/**
 * The order in which `Circuit::calculate` visits components.
 *
 * The sweep starts from the circuit's input buses and proceeds in rounds:
 * each round visits the not yet visited components of the current frontier,
 * in order, and the next frontier lists, for each component visited, the
 * destinations of the connections leaving it. Which components are visited,
 * and in what order, depends only on the connections and never on pin
 * values, so it is a function of the circuit alone.
 */
module Schedules {
  import opened Components

  /** Some connection of `conns` goes from `x` to `y`. */
  ghost predicate Edge(conns: seq<Connection>, x: Ref, y: Ref)
  {
    exists i :: 0 <= i < |conns| && conns[i].src == x && conns[i].dst == y
  }

  /** The elements of `s`. */
  function Elems(s: seq<Ref>): set<Ref>
  {
    set x | x in s
  }

  /** No element occurs twice. */
  predicate Distinct(s: seq<Ref>)
  {
    forall i, j :: 0 <= i < j < |s| ==> s[i] != s[j]
  }

  /** The components a sweep can reach: input buses and connection destinations. */
  function Nodes(c: Circuit): set<Ref>
  {
    (set r | r in c.inputs) + (set e | e in c.connections :: e.dst)
  }

  /**
   * The destinations of the connections whose source is `k`, in insertion
   * order, with repeats.
   */
  function Successors(conns: seq<Connection>, k: Ref): seq<Ref>
  {
    if conns == [] then []
    else
      var e := conns[|conns| - 1];
      Successors(conns[..|conns| - 1], k) + (if e.src == k then [e.dst] else [])
  }

  /** The successors of `k` are exactly the ends of the connections leaving `k`. */
  lemma {:induction false} SuccessorsAreEdges(conns: seq<Connection>, k: Ref)
    ensures forall y :: y in Successors(conns, k) <==> Edge(conns, k, y)
  {
    if conns != [] {
      var front := conns[..|conns| - 1];
      var e := conns[|conns| - 1];
      SuccessorsAreEdges(front, k);
      forall y | Edge(front, k, y) ensures Edge(conns, k, y) {
        var i :| 0 <= i < |front| && front[i].src == k && front[i].dst == y;
        assert conns[i] == front[i];
      }
      forall y | Edge(conns, k, y) ensures Edge(front, k, y) || (e.src == k && e.dst == y) {
        var i :| 0 <= i < |conns| && conns[i].src == k && conns[i].dst == y;
        if i < |front| {
          assert front[i] == conns[i];
        }
      }
      assert e.src == k ==> Edge(conns, k, e.dst) by {
        assert conns[|conns| - 1] == e;
      }
    }
  }

  /**
   * One round over the frontier `F` with visited set `V`: the components
   * visited, in order, and the next frontier. A component that occurs
   * twice in the frontier is visited at its first occurrence only.
   */
  function Round(conns: seq<Connection>, V: set<Ref>, F: seq<Ref>): (r: (seq<Ref>, seq<Ref>))
    ensures forall x :: x in r.0 ==> x in F
    decreases |F|
  {
    if F == [] then ([], [])
    else if F[0] in V then Round(conns, V, F[1..])
    else
      var rest := Round(conns, V + {F[0]}, F[1..]);
      ([F[0]] + rest.0, Successors(conns, F[0]) + rest.1)
  }

  /**
   * A round visits each frontier component that was not visited before,
   * once, and nothing else; its next frontier holds exactly the ends of the
   * connections leaving the components it visited.
   */
  lemma {:induction false} RoundFacts(conns: seq<Connection>, V: set<Ref>, F: seq<Ref>)
    ensures forall x :: x in Round(conns, V, F).0 ==> x in F && x !in V
    ensures Distinct(Round(conns, V, F).0)
    ensures forall x :: x in F ==> x in V || x in Round(conns, V, F).0
    ensures forall y :: y in Round(conns, V, F).1 ==> exists x :: x in Round(conns, V, F).0 && Edge(conns, x, y)
    ensures forall x, y :: x in Round(conns, V, F).0 && Edge(conns, x, y) ==> y in Round(conns, V, F).1
    ensures Round(conns, V, F).0 == [] ==> Round(conns, V, F).1 == []
    decreases |F|
  {
    if F != [] {
      if F[0] in V {
        RoundFacts(conns, V, F[1..]);
      } else {
        var rest := Round(conns, V + {F[0]}, F[1..]);
        RoundFacts(conns, V + {F[0]}, F[1..]);
        SuccessorsAreEdges(conns, F[0]);
        var r := Round(conns, V, F);
        assert r == ([F[0]] + rest.0, Successors(conns, F[0]) + rest.1);
        forall y | y in r.1 ensures exists x :: x in r.0 && Edge(conns, x, y) {
          if y in Successors(conns, F[0]) {
            assert F[0] in r.0 && Edge(conns, F[0], y);
          } else {
            var x :| x in rest.0 && Edge(conns, x, y);
            assert x in r.0;
          }
        }
      }
    }
  }

  /**
   * A sweep from a non-empty frontier is its first round followed by the
   * sweep from the round's next frontier; either the round visits a new
   * component, or it visits none and the next frontier is empty.
   */
  lemma SweepUnfold(c: Circuit, V: set<Ref>, F: seq<Ref>)
    requires F != [] && forall f :: f in F ==> f in Nodes(c)
    ensures forall x :: x in Round(c.connections, V, F).0 ==> x in Nodes(c)
    ensures forall y :: y in Round(c.connections, V, F).1 ==> y in Nodes(c)
    ensures Sweep(c, V, F) == Round(c.connections, V, F).0 +
      Sweep(c, V + Elems(Round(c.connections, V, F).0), Round(c.connections, V, F).1)
    ensures Round(c.connections, V, F).0 != [] ==>
      Nodes(c) - (V + Elems(Round(c.connections, V, F).0)) < Nodes(c) - V
    ensures Round(c.connections, V, F).0 == [] ==> Round(c.connections, V, F).1 == []
  {
    var r := Round(c.connections, V, F);
    RoundFacts(c.connections, V, F);
    NextFrontierInNodes(c, r.0, r.1);
    if r.0 != [] {
      assert r.0[0] in Nodes(c) - V && r.0[0] !in Nodes(c) - (V + Elems(r.0));
    }
  }

  /** The rounds from frontier `F` with visited set `V`, until the frontier is empty. */
  function Sweep(c: Circuit, V: set<Ref>, F: seq<Ref>): seq<Ref>
    requires forall f :: f in F ==> f in Nodes(c)
    decreases Nodes(c) - V, |F|
  {
    if F == [] then []
    else
      var r := Round(c.connections, V, F);
      RoundFacts(c.connections, V, F);
      NextFrontierInNodes(c, r.0, r.1);
      assert r.0 != [] ==> r.0[0] in Nodes(c) - V && r.0[0] !in Nodes(c) - (V + Elems(r.0));
      r.0 + Sweep(c, V + Elems(r.0), r.1)
  }

  /** A sweep visits only reachable-set nodes it had not visited, each once. */
  lemma {:induction false} SweepFacts(c: Circuit, V: set<Ref>, F: seq<Ref>)
    requires forall f :: f in F ==> f in Nodes(c)
    ensures forall x :: x in Sweep(c, V, F) ==> x !in V && x in Nodes(c)
    ensures Distinct(Sweep(c, V, F))
    decreases Nodes(c) - V, |F|
  {
    if F != [] {
      var r := Round(c.connections, V, F);
      RoundFacts(c.connections, V, F);
      NextFrontierInNodes(c, r.0, r.1);
      var V' := V + Elems(r.0);
      assert r.0 != [] ==> r.0[0] in Nodes(c) - V && r.0[0] !in Nodes(c) - V';
      var rest := Sweep(c, V', r.1);
      SweepFacts(c, V', r.1);
      assert Sweep(c, V, F) == r.0 + rest;
      forall i, j | 0 <= i < |r.0| <= j < |r.0 + rest| ensures (r.0 + rest)[i] != (r.0 + rest)[j] {
        assert (r.0 + rest)[i] == r.0[i] && r.0[i] in V';
        assert (r.0 + rest)[j] == rest[j - |r.0|];
      }
    }
  }

  /**
   * The components `Circuit::calculate` calculates, in order, when no
   * calculation fails: each at most once, and only input buses and
   * connection destinations.
   */
  function Schedule(c: Circuit): (s: seq<Ref>)
    ensures Distinct(s)
    ensures forall x :: x in s ==> x in Nodes(c)
  {
    SweepFacts(c, {}, c.inputs);
    Sweep(c, {}, c.inputs)
  }

  lemma NextFrontierInNodes(c: Circuit, N: seq<Ref>, next: seq<Ref>)
    requires forall y :: y in next ==> exists x :: x in N && Edge(c.connections, x, y)
    ensures forall y :: y in next ==> y in Nodes(c)
  {
    forall y | y in next ensures y in Nodes(c) {
      var x :| x in N && Edge(c.connections, x, y);
      var i :| 0 <= i < |c.connections| && c.connections[i].src == x && c.connections[i].dst == y;
      assert c.connections[i] in c.connections;
    }
  }

  // ---------------------------------------------------------------------
  // Reachability
  // ---------------------------------------------------------------------

  /** `p` starts at an input bus and follows connections. */
  ghost predicate IsPath(c: Circuit, p: seq<Ref>)
  {
    |p| > 0 && p[0] in c.inputs &&
    forall i :: 0 <= i < |p| - 1 ==> Edge(c.connections, p[i], p[i + 1])
  }

  /** Some path from an input bus ends at `x`. */
  ghost predicate Reachable(c: Circuit, x: Ref)
  {
    exists p :: IsPath(c, p) && p[|p| - 1] == x
  }

  lemma ExtendPath(c: Circuit, x: Ref, y: Ref)
    requires Reachable(c, x) && Edge(c.connections, x, y)
    ensures Reachable(c, y)
  {
    var p :| IsPath(c, p) && p[|p| - 1] == x;
    var q := p + [y];
    assert forall i :: 0 <= i < |q| - 1 ==> Edge(c.connections, q[i], q[i + 1]) by {
      forall i | 0 <= i < |q| - 1 ensures Edge(c.connections, q[i], q[i + 1]) {
        if i < |p| - 1 {
          assert q[i] == p[i] && q[i + 1] == p[i + 1];
        }
      }
    }
    assert IsPath(c, q) && q[|q| - 1] == y;
  }

  /** A sweep from reachable components visits only reachable components. */
  lemma {:induction false} SweepReachable(c: Circuit, V: set<Ref>, F: seq<Ref>)
    requires forall f :: f in F ==> f in Nodes(c)
    requires forall f :: f in F ==> Reachable(c, f)
    ensures forall x :: x in Sweep(c, V, F) ==> Reachable(c, x)
    decreases Nodes(c) - V, |F|
  {
    if F != [] {
      var r := Round(c.connections, V, F);
      RoundFacts(c.connections, V, F);
      NextFrontierInNodes(c, r.0, r.1);
      var V' := V + Elems(r.0);
      if r.0 != [] {
        assert r.0[0] in Nodes(c) - V && r.0[0] !in Nodes(c) - V';
      }
      forall y | y in r.1 ensures Reachable(c, y) {
        var x :| x in r.0 && Edge(c.connections, x, y);
        ExtendPath(c, x, y);
      }
      SweepReachable(c, V', r.1);
      assert Sweep(c, V, F) == r.0 + Sweep(c, V', r.1);
    }
  }

  /**
   * Only components reachable from an input bus through connections are
   * ever calculated.
   */
  lemma ScheduleReachable(c: Circuit)
    ensures forall x :: x in Schedule(c) ==> Reachable(c, x)
  {
    forall f | f in c.inputs ensures Reachable(c, f) {
      assert IsPath(c, [f]);
    }
    SweepReachable(c, {}, c.inputs);
  }

  /** No connection leaves `W`. */
  ghost predicate Closed(c: Circuit, W: set<Ref>)
  {
    forall x, y :: x in W && Edge(c.connections, x, y) ==> y in W
  }

  /**
   * If every connection leaving a visited component ends in a visited
   * component or in the frontier, the sweep covers the frontier and what it
   * adds to the visited set leaves no connection unfollowed.
   */
  lemma {:induction false} SweepCloses(c: Circuit, V: set<Ref>, F: seq<Ref>)
    requires forall f :: f in F ==> f in Nodes(c)
    requires forall x, y :: x in V && Edge(c.connections, x, y) ==> y in V || y in F
    ensures forall f :: f in F ==> f in V || f in Sweep(c, V, F)
    ensures Closed(c, V + Elems(Sweep(c, V, F)))
    decreases Nodes(c) - V, |F|
  {
    var s := Sweep(c, V, F);
    if F == [] {
      assert s == [];
      assert V + Elems(s) == V;
    } else {
      var r := Round(c.connections, V, F);
      RoundFacts(c.connections, V, F);
      NextFrontierInNodes(c, r.0, r.1);
      var V' := V + Elems(r.0);
      if r.0 != [] {
        assert r.0[0] in Nodes(c) - V && r.0[0] !in Nodes(c) - V';
      }
      forall x, y | x in V' && Edge(c.connections, x, y) ensures y in V' || y in r.1 {
        if x in V {
          assert y in V || y in F;
        }
      }
      SweepCloses(c, V', r.1);
      var rest := Sweep(c, V', r.1);
      assert s == r.0 + rest;
      assert V + Elems(s) == V' + Elems(rest);
    }
  }

  lemma {:induction false} ClosedHoldsPath(c: Circuit, W: set<Ref>, p: seq<Ref>)
    requires Closed(c, W) && (forall f :: f in c.inputs ==> f in W)
    requires IsPath(c, p)
    ensures p[|p| - 1] in W
    decreases |p|
  {
    if |p| > 1 {
      var q := p[..|p| - 1];
      assert IsPath(c, q) by {
        forall i | 0 <= i < |q| - 1 ensures Edge(c.connections, q[i], q[i + 1]) {
          assert q[i] == p[i] && q[i + 1] == p[i + 1];
        }
      }
      ClosedHoldsPath(c, W, q);
      assert Edge(c.connections, p[|p| - 2], p[|p| - 1]);
    }
  }

  /** Every component reachable from an input bus is calculated. */
  lemma ScheduleComplete(c: Circuit)
    ensures forall x :: Reachable(c, x) ==> x in Schedule(c)
  {
    forall f | f in c.inputs ensures f in Nodes(c) {
    }
    SweepCloses(c, {}, c.inputs);
    var W := {} + Elems(Schedule(c));
    forall x | Reachable(c, x) ensures x in Schedule(c) {
      var p :| IsPath(c, p) && p[|p| - 1] == x;
      ClosedHoldsPath(c, W, p);
    }
  }

  lemma {:induction false} DistinctSize(s: seq<Ref>)
    requires Distinct(s)
    ensures |Elems(s)| == |s|
  {
    if s != [] {
      DistinctSize(s[1..]);
      var tail := Elems(s[1..]);
      assert Elems(s) == tail + {s[0]};
      assert s[0] !in tail;
      assert |tail + {s[0]}| == |tail| + 1;
    }
  }

  /** A call calculates at most as many components as the circuit can reach. */
  lemma ScheduleBounded(c: Circuit)
    ensures |Schedule(c)| <= |Nodes(c)|
  {
    DistinctSize(Schedule(c));
    SubsetSize(Elems(Schedule(c)), Nodes(c));
  }

  lemma {:induction false} SubsetSize(A: set<Ref>, B: set<Ref>)
    requires A <= B
    ensures |A| <= |B|
    decreases A
  {
    if A != {} {
      var x :| x in A;
      SubsetSize(A - {x}, B - {x});
    }
  }
}
