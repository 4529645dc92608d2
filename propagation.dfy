/**
 * `calculate` for every kind of component, and the propagation sweep of
 * `Circuit::calculate`.
 *
 * The functions say what a call computes: the circuit calculates the
 * components of its schedule in order and, after each one, updates every
 * connection in insertion order; the first failing calculation stops it and
 * leaves the arena as it is at that point. The methods do it the way the
 * engine does, with a visited set and frontier vectors, and are proved to
 * compute exactly what the functions say.
 */
module Propagation {
  import opened Results
  import opened Components
  import opened Schedules

  /** Every component a sweep can reach can be calculated. */
  lemma NodesOk(a: seq<Component>, c: Circuit, depth: nat)
    requires WellFormed(a, c, depth)
    ensures forall k :: k in Nodes(c) ==> RefOk(a, k, depth)
  {
    forall k | k in Nodes(c) ensures RefOk(a, k, depth) {
      if k in c.inputs {
        var i :| 0 <= i < |c.inputs| && c.inputs[i] == k;
      } else {
        var e :| e in c.connections && e.dst == k;
      }
    }
  }

  /** `LogicGate::calculate` on cell `k`. */
  function CalcAt(a: seq<Component>, k: Ref, eval: Evaluator, ghost depth: nat): (r: (Outcome<CalcError>, seq<Component>))
    requires RefOk(a, k, depth) && Conforming(a, eval)
    ensures Similar(a, r.1)
    decreases depth, 0, 0
  {
    match a[k]
    case Basic(g, mode) =>
      (match GateCalc(g, mode.code, eval)
       case Err(e) => (Fail(e), a)
       case Ok(g') => (Pass, a[k := Basic(g', mode)]))
    case Nested(c) => CircuitCalc(a, c, eval, depth - 1)
    case _ => (Pass, a)
  }

  /**
   * Calculating the components `ks` of `c` in order, updating every
   * connection of `c` after each one, and stopping at the first failure.
   */
  function Run(a: seq<Component>, c: Circuit, ks: seq<Ref>, eval: Evaluator, ghost depth: nat): (r: (Outcome<CalcError>, seq<Component>))
    requires WellFormed(a, c, depth) && Conforming(a, eval)
    requires forall k :: k in ks ==> k in Nodes(c)
    ensures Similar(a, r.1)
    decreases depth, 1, |ks|
  {
    if ks == [] then (Pass, a)
    else
      NodesOk(a, c, depth);
      var step := CalcAt(a, ks[0], eval, depth);
      if step.0.Fail? then step
      else
        var a1 := step.1;
        SimilarWellFormed(a, a1, c, depth);
        SimilarConforming(a, a1, eval);
        WellFormedConnsOk(a1, c, depth);
        var a2 := UpdateAll(a1, c.connections);
        SimilarTrans(a, a1, a2);
        SimilarWellFormed(a, a2, c, depth);
        SimilarConforming(a, a2, eval);
        var r := Run(a2, c, ks[1..], eval, depth);
        SimilarTrans(a, a2, r.1);
        r
  }

  /** `Circuit::calculate`: a run over the circuit's schedule. */
  function CircuitCalc(a: seq<Component>, c: Circuit, eval: Evaluator, ghost depth: nat): (r: (Outcome<CalcError>, seq<Component>))
    requires WellFormed(a, c, depth) && Conforming(a, eval)
    ensures Similar(a, r.1)
    decreases depth, 2, 0
  {
    Run(a, c, Schedule(c), eval, depth)
  }

  /**
   * The connection loop after a calculation: every connection is updated
   * in insertion order, and the destinations of those leaving `k` are
   * collected in the same order.
   */
  method UpdateConnections(arena: array<Component>, conns: seq<Connection>, k: Ref) returns (succ: seq<Ref>)
    requires ConnsOk(arena[..], conns)
    modifies arena
    ensures arena[..] == UpdateAll(old(arena[..]), conns)
    ensures succ == Successors(conns, k)
  {
    ghost var a0 := arena[..];
    succ := [];
    var i := 0;
    while i < |conns|
      invariant 0 <= i <= |conns|
      invariant ConnsOk(a0, conns[..i])
      invariant arena[..] == UpdateAll(a0, conns[..i])
      invariant succ == Successors(conns[..i], k)
    {
      assert conns[..i + 1][..i] == conns[..i];
      assert conns[i] in conns;
      SimilarConnOk(a0, arena[..], conns[i]);
      UpdateConnection(arena, conns[i]);
      if conns[i].src == k {
        succ := succ + [conns[i].dst];
      }
      i := i + 1;
    }
    assert conns[..i] == conns;
  }

  /** `LogicGate::calculate` on the component in cell `k`. */
  method CalculateComponent(arena: array<Component>, k: Ref, eval: Evaluator, ghost depth: nat) returns (r: Outcome<CalcError>)
    requires RefOk(arena[..], k, depth) && Conforming(arena[..], eval)
    modifies arena
    ensures (r, arena[..]) == CalcAt(old(arena[..]), k, eval, depth)
    decreases depth, 0, 0
  {
    match arena[k]
    case Basic(g, mode) =>
      match GateCalc(g, mode.code, eval) {
        case Err(e) =>
          r := Fail(e);
        case Ok(g') =>
          arena[k] := Basic(g', mode);
          r := Pass;
      }
    case Nested(c) =>
      ghost var trace;
      r, trace := CalculateCircuit(arena, c, eval, depth - 1);
    case _ =>
      r := Pass;
  }

  /**
   * Running `xs` and then `ys` is running `xs + ys`: the second part starts
   * from where the first left the arena, unless the first failed.
   */
  lemma {:induction false} RunAppend(a: seq<Component>, c: Circuit, xs: seq<Ref>, ys: seq<Ref>, eval: Evaluator, depth: nat)
    requires WellFormed(a, c, depth) && Conforming(a, eval)
    requires forall k :: k in xs ==> k in Nodes(c)
    requires forall k :: k in ys ==> k in Nodes(c)
    ensures WellFormed(Run(a, c, xs, eval, depth).1, c, depth)
    ensures Conforming(Run(a, c, xs, eval, depth).1, eval)
    ensures Run(a, c, xs + ys, eval, depth) ==
      if Run(a, c, xs, eval, depth).0.Fail? then Run(a, c, xs, eval, depth)
      else Run(Run(a, c, xs, eval, depth).1, c, ys, eval, depth)
    decreases |xs|
  {
    var first := Run(a, c, xs, eval, depth);
    SimilarWellFormed(a, first.1, c, depth);
    SimilarConforming(a, first.1, eval);
    if xs == [] {
      assert xs + ys == ys;
    } else {
      assert (xs + ys)[0] == xs[0] && (xs + ys)[1..] == xs[1..] + ys;
      NodesOk(a, c, depth);
      var step := CalcAt(a, xs[0], eval, depth);
      if step.0.Pass? {
        SimilarWellFormed(a, step.1, c, depth);
        SimilarConforming(a, step.1, eval);
        WellFormedConnsOk(step.1, c, depth);
        var a2 := UpdateAll(step.1, c.connections);
        SimilarTrans(a, step.1, a2);
        SimilarWellFormed(a, a2, c, depth);
        SimilarConforming(a, a2, eval);
        RunAppend(a2, c, xs[1..], ys, eval, depth);
      }
    }
  }

  lemma Regroup(x: seq<Ref>, y: seq<Ref>, z: seq<Ref>)
    ensures x + (y + z) == (x + y) + z
  {
  }

  lemma ElemsSnoc(s: seq<Ref>, k: Ref)
    ensures Elems(s + [k]) == Elems(s) + {k}
  {
  }

  /**
   * The bookkeeping of a round that has walked `F[..j]`: `done` lists the
   * components visited so far and `next` their successors, and what is
   * left of the round over `F[j..]` completes both.
   */
  ghost predicate RoundBook(conns: seq<Connection>, V: set<Ref>, F: seq<Ref>, round: (seq<Ref>, seq<Ref>),
                            j: nat, done: seq<Ref>, V': set<Ref>, next: seq<Ref>)
  {
    j <= |F| && V' == V + Elems(done) &&
    round.0 == done + Round(conns, V', F[j..]).0 &&
    round.1 == next + Round(conns, V', F[j..]).1
  }

  lemma RoundBookStart(conns: seq<Connection>, V: set<Ref>, F: seq<Ref>)
    ensures RoundBook(conns, V, F, Round(conns, V, F), 0, [], V, [])
  {
    assert F[0..] == F;
    assert Elems([]) == {};
  }

  /** A component visited before is skipped, and the round goes on with the rest. */
  lemma RoundBookSkip(conns: seq<Connection>, V: set<Ref>, F: seq<Ref>, round: (seq<Ref>, seq<Ref>),
                      j: nat, done: seq<Ref>, V': set<Ref>, next: seq<Ref>)
    requires RoundBook(conns, V, F, round, j, done, V', next) && j < |F| && F[j] in V'
    ensures Round(conns, V', F[j..]) == Round(conns, V', F[j + 1..])
    ensures RoundBook(conns, V, F, round, j + 1, done, V', next)
  {
    assert F[j..][0] == F[j] && F[j..][1..] == F[j + 1..];
  }

  /** A component not visited before is the next one the round visits. */
  lemma RoundBookVisit(conns: seq<Connection>, V: set<Ref>, F: seq<Ref>, round: (seq<Ref>, seq<Ref>),
                       j: nat, done: seq<Ref>, V': set<Ref>, next: seq<Ref>)
    requires RoundBook(conns, V, F, round, j, done, V', next) && j < |F| && F[j] !in V'
    ensures Round(conns, V', F[j..]).0 == [F[j]] + Round(conns, V' + {F[j]}, F[j + 1..]).0
    ensures RoundBook(conns, V, F, round, j + 1, done + [F[j]], V' + {F[j]}, next + Successors(conns, F[j]))
  {
    var k := F[j];
    assert F[j..][0] == k && F[j..][1..] == F[j + 1..];
    var rest := Round(conns, V' + {k}, F[j + 1..]);
    Regroup(done, [k], rest.0);
    Regroup(next, Successors(conns, k), rest.1);
    ElemsSnoc(done, k);
  }

  /** What is left of a round lies in the frontier. */
  lemma RoundRestInFrontier(conns: seq<Connection>, V: set<Ref>, F: seq<Ref>, j: nat)
    requires j <= |F|
    ensures forall x :: x in Round(conns, V, F[j..]).0 ==> x in F
  {
    forall x | x in Round(conns, V, F[j..]).0 ensures x in F {
      assert x in F[j..];
    }
  }

  /**
   * The body of the frontier loop for a component not yet visited:
   * calculate it, then update every connection and collect the
   * destinations of those leaving it.
   */
  method Visit(arena: array<Component>, c: Circuit, eval: Evaluator, ghost depth: nat, k: Ref, ghost ks: seq<Ref>)
    returns (r: Outcome<CalcError>, succ: seq<Ref>)
    requires WellFormed(arena[..], c, depth) && Conforming(arena[..], eval)
    requires k in Nodes(c) && forall x :: x in ks ==> x in Nodes(c)
    modifies arena
    ensures WellFormed(arena[..], c, depth) && Conforming(arena[..], eval)
    ensures Run(old(arena[..]), c, [k] + ks, eval, depth) ==
      if r.Fail? then (r, arena[..]) else Run(arena[..], c, ks, eval, depth)
    ensures succ == Successors(c.connections, k)
    decreases depth, 1, 0
  {
    ghost var a0 := arena[..];
    assert ([k] + ks)[0] == k && ([k] + ks)[1..] == ks;
    NodesOk(a0, c, depth);
    r := CalculateComponent(arena, k, eval, depth);
    SimilarWellFormed(a0, arena[..], c, depth);
    SimilarConforming(a0, arena[..], eval);
    if r.Pass? {
      WellFormedConnsOk(arena[..], c, depth);
      ghost var a1 := arena[..];
      succ := UpdateConnections(arena, c.connections, k);
      SimilarWellFormed(a1, arena[..], c, depth);
      SimilarConforming(a1, arena[..], eval);
    } else {
      succ := Successors(c.connections, k);
    }
  }

  /**
   * One pass of the outer loop of `Circuit::calculate`: the frontier is
   * walked in order, a component already visited is skipped, and each
   * other one is visited and marked.
   */
  method CalculateRound(arena: array<Component>, c: Circuit, eval: Evaluator, ghost depth: nat,
                        visited: set<Ref>, frontier: seq<Ref>)
    returns (r: Outcome<CalcError>, visitedAfter: set<Ref>, next: seq<Ref>)
    requires WellFormed(arena[..], c, depth) && Conforming(arena[..], eval)
    requires forall f :: f in frontier ==> f in Nodes(c)
    modifies arena
    ensures (r, arena[..]) == Run(old(arena[..]), c, Round(c.connections, visited, frontier).0, eval, depth)
    ensures r.Pass? ==> visitedAfter == visited + Elems(Round(c.connections, visited, frontier).0)
    ensures r.Pass? ==> next == Round(c.connections, visited, frontier).1
    decreases depth, 1, 1
  {
    ghost var round := Round(c.connections, visited, frontier);
    ghost var goal := Run(arena[..], c, round.0, eval, depth);
    ghost var done: seq<Ref> := [];
    visitedAfter := visited;
    next := [];
    RoundBookStart(c.connections, visited, frontier);
    var j := 0;
    while j < |frontier|
      invariant RoundBook(c.connections, visited, frontier, round, j, done, visitedAfter, next)
      invariant WellFormed(arena[..], c, depth) && Conforming(arena[..], eval)
      invariant forall x :: x in Round(c.connections, visitedAfter, frontier[j..]).0 ==> x in Nodes(c)
      invariant Run(arena[..], c, Round(c.connections, visitedAfter, frontier[j..]).0, eval, depth) == goal
    {
      var k := frontier[j];
      RoundRestInFrontier(c.connections, visitedAfter, frontier, j + 1);
      RoundRestInFrontier(c.connections, visitedAfter + {k}, frontier, j + 1);
      if k in visitedAfter {
        RoundBookSkip(c.connections, visited, frontier, round, j, done, visitedAfter, next);
      } else {
        RoundBookVisit(c.connections, visited, frontier, round, j, done, visitedAfter, next);
        var succ;
        r, succ := Visit(arena, c, eval, depth, k, Round(c.connections, visitedAfter + {k}, frontier[j + 1..]).0);
        if r.Fail? {
          return;
        }
        visitedAfter := visitedAfter + {k};
        done := done + [k];
        next := next + succ;
      }
      j := j + 1;
    }
    assert frontier[j..] == [];
    r := Pass;
  }

  /**
   * `Circuit::calculate`: rounds over a frontier that starts with the input
   * buses, until the frontier is empty or a calculation fails. The ghost
   * `trace` lists the components calculated, in order.
   */
  method CalculateCircuit(arena: array<Component>, c: Circuit, eval: Evaluator, ghost depth: nat)
    returns (r: Outcome<CalcError>, ghost trace: seq<Ref>)
    requires WellFormed(arena[..], c, depth) && Conforming(arena[..], eval)
    modifies arena
    ensures (r, arena[..]) == CircuitCalc(old(arena[..]), c, eval, depth)
    ensures r.Pass? ==> trace == Schedule(c)
    decreases depth, 2, 0
  {
    ghost var goal := CircuitCalc(arena[..], c, eval, depth);
    var visited: set<Ref> := {};
    var toUpdate := c.inputs;
    trace := [];
    while toUpdate != []
      invariant forall f :: f in toUpdate ==> f in Nodes(c)
      invariant WellFormed(arena[..], c, depth) && Conforming(arena[..], eval)
      invariant trace + Sweep(c, visited, toUpdate) == Schedule(c)
      invariant Run(arena[..], c, Sweep(c, visited, toUpdate), eval, depth) == goal
      decreases Nodes(c) - visited, |toUpdate|
    {
      ghost var round := Round(c.connections, visited, toUpdate);
      SweepUnfold(c, visited, toUpdate);
      ghost var tail := Sweep(c, visited + Elems(round.0), round.1);
      RunAppend(arena[..], c, round.0, tail, eval, depth);
      var visitedAfter, next;
      r, visitedAfter, next := CalculateRound(arena, c, eval, depth, visited, toUpdate);
      if r.Fail? {
        return;
      }
      assert Sweep(c, visitedAfter, next) == tail;
      Regroup(trace, round.0, tail);
      trace := trace + round.0;
      visited, toUpdate := visitedAfter, next;
    }
    r := Pass;
  }
}
