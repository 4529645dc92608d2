/**
 * Compiling a component to a truth table. A bus compiles to the identity
 * table, a gate without memory by running its script on every input
 * combination, and a circuit by writing every combination into its input
 * buses and calculating the circuit once per combination.
 */
module Compilation {
  import opened Results
  import opened TruthTables
  import opened Components
  import opened Propagation

  /** `CantCompileGate`. */
  datatype CompileError = CantCompileGate

  // ---------------------------------------------------------------------
  // Compilability
  // ---------------------------------------------------------------------

  /** Compilability of cell `k` can be decided: the cell exists, and a circuit in it is well formed. */
  ghost predicate CompileReady(a: seq<Component>, k: Ref, depth: nat)
  {
    k < |a| && (a[k].Nested? ==> depth > 0 && WellFormed(a, a[k].circuit, depth - 1))
  }

  /**
   * `LogicGate::compilable`: a bus always, a basic gate when it has no
   * memory, a circuit when all its members are, a button or lamp never.
   */
  predicate Compilable(a: seq<Component>, k: Ref, ghost depth: nat)
    requires CompileReady(a, k, depth)
    decreases depth, 0
  {
    match a[k]
    case Bus(_) => true
    case Basic(g, _) => !IsStateful(g)
    case Nested(c) => CircuitCompilable(a, c, depth - 1)
    case Button(_) => false
    case Lamp(_) => false
  }

  /** `Circuit::compilable`: every member gate is compilable. */
  predicate CircuitCompilable(a: seq<Component>, c: Circuit, ghost depth: nat)
    requires WellFormed(a, c, depth)
    decreases depth, 1
  {
    MembersReady(a, c, depth);
    forall m :: m in c.gates ==> Compilable(a, m.gate, depth)
  }

  /** Compilability of every member of a well-formed circuit can be decided. */
  lemma MembersReady(a: seq<Component>, c: Circuit, depth: nat)
    requires WellFormed(a, c, depth)
    ensures forall m :: m in c.gates ==> CompileReady(a, m.gate, depth)
  {
    forall m | m in c.gates ensures CompileReady(a, m.gate, depth) {
      assert RefOk(a, m.gate, depth);
    }
  }

  // ---------------------------------------------------------------------
  // Bus
  // ---------------------------------------------------------------------

  /** `CircuitBus::compile`: the table of the one-pin identity. */
  function BusTable(): (t: TruthTable)
    ensures t.entries.Keys == {[false], [true]}
  {
    EmptyTable().Add([false], [false]).Add([true], [true])
  }

  /** The bus table has exactly the one-pin keys and maps each to itself. */
  lemma BusTableIdentity(v: seq<bool>)
    ensures v in BusTable().entries <==> v in AllKeys(1)
    ensures v in BusTable().entries ==> BusTable().entries[v] == v
  {
    AllKeysAreAllVectors(1, v);
    if |v| == 1 {
      assert v == [false] || v == [true];
    }
  }

  // ---------------------------------------------------------------------
  // Gate
  // ---------------------------------------------------------------------

  /**
   * The script answers on every input combination of the gate: compilation
   * unwraps each answer, so an error there is a panic.
   */
  ghost predicate ScriptTotal(g: Gate, code: LuaCode, eval: Evaluator)
  {
    forall i :: 0 <= i < Pow2(|g.inputs|) ==> eval(code, Key(i, |g.inputs|), g.memory).Ok?
  }

  /**
   * `t` maps the key of combination j of an `n`-input component to
   * `outs[j]`, for every j < |outs|, and has no other key.
   */
  ghost predicate Tabulates(t: TruthTable, n: nat, outs: seq<seq<bool>>)
  {
    t.entries.Keys == KeysBelow(|outs|, n) &&
    forall j :: 0 <= j < |outs| ==> Key(j, n) in t.entries && t.entries[Key(j, n)] == outs[j]
  }

  /** Recording the next combination extends the table by exactly that row. */
  lemma TabulatesAdd(t: TruthTable, n: nat, outs: seq<seq<bool>>, v: seq<bool>)
    requires Tabulates(t, n, outs) && |outs| < Pow2(n)
    ensures Tabulates(t.Add(Key(|outs|, n), v), n, outs + [v])
  {
    var i := |outs|;
    var t' := t.Add(Key(i, n), v);
    assert KeysBelow(i + 1, n) == KeysBelow(i, n) + {Key(i, n)};
    forall j | 0 <= j < i + 1
      ensures Key(j, n) in t'.entries && t'.entries[Key(j, n)] == (outs + [v])[j]
    {
      if j < i && Key(j, n) == Key(i, n) {
        KeyInjective(j, i, n);
      }
    }
  }

  /** A table that records every combination has the 2^n keys of all combinations. */
  lemma TabulatesAll(t: TruthTable, n: nat, outs: seq<seq<bool>>)
    requires Tabulates(t, n, outs) && |outs| == Pow2(n)
    ensures t.entries.Keys == AllKeys(n)
    ensures |t.entries| == Pow2(n)
  {
    AllKeysSize(n);
  }

  /** What the script outputs on each combination of the gate's inputs, in order. */
  ghost function ScriptOutputs(g: Gate, code: LuaCode, eval: Evaluator, count: nat): (outs: seq<seq<bool>>)
    requires ScriptTotal(g, code, eval) && count <= Pow2(|g.inputs|)
    ensures |outs| == count
    ensures forall j :: 0 <= j < count ==> outs[j] == eval(code, Key(j, |g.inputs|), g.memory).value.0
  {
    seq(count, j requires 0 <= j < count => eval(code, Key(j, |g.inputs|), g.memory).value.0)
  }

  /** `t` maps the key of every combination to what the script outputs on it, and has no other key. */
  ghost predicate GateTable(t: TruthTable, g: Gate, code: LuaCode, eval: Evaluator)
  {
    ScriptTotal(g, code, eval) &&
    Tabulates(t, |g.inputs|, ScriptOutputs(g, code, eval, Pow2(|g.inputs|)))
  }

  /** Recording the script's outputs on the next combination extends the table of the earlier ones. */
  lemma GateTableStep(t: TruthTable, g: Gate, code: LuaCode, eval: Evaluator, i: nat)
    requires ScriptTotal(g, code, eval) && i < Pow2(|g.inputs|)
    requires Tabulates(t, |g.inputs|, ScriptOutputs(g, code, eval, i))
    ensures Tabulates(t.Add(Key(i, |g.inputs|), eval(code, Key(i, |g.inputs|), g.memory).value.0),
                      |g.inputs|, ScriptOutputs(g, code, eval, i + 1))
  {
    var n := |g.inputs|;
    var v := eval(code, Key(i, n), g.memory).value.0;
    assert ScriptOutputs(g, code, eval, i + 1) == ScriptOutputs(g, code, eval, i) + [v];
    TabulatesAdd(t, n, ScriptOutputs(g, code, eval, i), v);
  }

  /**
   * After the first `i` steps of compiling `g`: the table holds the rows of
   * the first `i` combinations, and the gate holds the last of them and the
   * script's outputs on it, its name and memory unchanged.
   */
  ghost predicate RowsCompiled(g: Gate, code: LuaCode, eval: Evaluator, table: TruthTable, after: Gate, i: nat)
  {
    var n := |g.inputs|;
    ScriptTotal(g, code, eval) && i <= Pow2(n) &&
    after.name == g.name && after.memory == g.memory &&
    (i > 0 ==>
      after.inputs == Key(i - 1, n) &&
      eval(code, after.inputs, g.memory).Ok? && after.outputs == eval(code, after.inputs, g.memory).value.0) &&
    Tabulates(table, n, ScriptOutputs(g, code, eval, i))
  }

  /** Calculating the gate on the next combination and recording its outputs compiles one more row. */
  lemma RowsCompiledStep(g: Gate, code: LuaCode, eval: Evaluator, table: TruthTable, prev: Gate, i: nat, next: Gate)
    requires RowsCompiled(g, code, eval, table, prev, i) && i < Pow2(|g.inputs|)
    requires next.name == g.name && next.memory == g.memory && next.inputs == Key(i, |g.inputs|)
    requires eval(code, next.inputs, g.memory).Ok? && next.outputs == eval(code, next.inputs, g.memory).value.0
    ensures RowsCompiled(g, code, eval, table.Add(Key(i, |g.inputs|), next.outputs), next, i + 1)
  {
    GateTableStep(table, g, code, eval, i);
  }

  /** Before the first step nothing is recorded. */
  lemma RowsCompiledStart(g: Gate, code: LuaCode, eval: Evaluator)
    requires ScriptTotal(g, code, eval)
    ensures RowsCompiled(g, code, eval, EmptyTable(), g, 0)
  {
    assert KeysBelow(0, |g.inputs|) == {};
  }

  /**
   * What compiling gate `g` gives: an error exactly when the gate has
   * memory, leaving it as it was; otherwise a table that holds the rows of
   * all 2^n combinations, with the gate left holding the last combination
   * and the script's outputs on it.
   */
  ghost predicate GateCompiled(g: Gate, code: LuaCode, eval: Evaluator, r: Result<TruthTable, CompileError>, after: Gate)
  {
    (r.Err? <==> IsStateful(g)) &&
    (r.Err? ==> r.error == CantCompileGate && after == g) &&
    (r.Ok? ==> RowsCompiled(g, code, eval, r.value, after, Pow2(|g.inputs|)))
  }

  /**
   * One step of compiling gate `g`: set the inputs of `prev`, the gate as
   * the previous step left it, to combination `i`, calculate it and record
   * the inputs and outputs in the table.
   */
  method CompileRow(g: Gate, code: LuaCode, eval: Evaluator, table: TruthTable, prev: Gate, i: nat)
    returns (table': TruthTable, next: Gate)
    requires !IsStateful(g) && i < Pow2(|g.inputs|) && RowsCompiled(g, code, eval, table, prev, i)
    ensures RowsCompiled(g, code, eval, table', next, i + 1)
  {
    var n := |g.inputs|;
    var inputs := FromBitString(FormatBinary(i, n));
    KeyFormats(i, n);
    var result := GateCalc(prev.(inputs := inputs), code, eval);
    next := result.value;
    RowsCompiledStep(g, code, eval, table, prev, i, next);
    table' := table.Add(inputs, next.outputs);
  }

  /**
   * `compile_gate_to_truth_table`: fails for a gate with memory; otherwise
   * sets the gate's inputs to each combination in turn, calculates it and
   * records inputs and outputs. The gate is left at the last combination.
   */
  method CompileGate(g: Gate, code: LuaCode, eval: Evaluator) returns (r: Result<TruthTable, CompileError>, after: Gate)
    requires !IsStateful(g) ==> ScriptTotal(g, code, eval)
    ensures GateCompiled(g, code, eval, r, after)
  {
    if IsStateful(g) {
      return Err(CantCompileGate), g;
    }
    var table;
    table, after := CompileRows(g, code, eval);
    r := Ok(table);
  }

  /** The loop of `compile_gate_to_truth_table`: every combination in turn, from 0 up. */
  method CompileRows(g: Gate, code: LuaCode, eval: Evaluator) returns (table: TruthTable, after: Gate)
    requires !IsStateful(g) && ScriptTotal(g, code, eval)
    ensures RowsCompiled(g, code, eval, table, after, Pow2(|g.inputs|))
  {
    var count := Pow2(|g.inputs|);
    table, after := EmptyTable(), g;
    RowsCompiledStart(g, code, eval);
    var i := 0;
    while i < count
      invariant i <= count && RowsCompiled(g, code, eval, table, after, i)
    {
      table, after := CompileRow(g, code, eval, table, after, i);
      i := i + 1;
    }
  }

  /** A compiled gate answers every lookup with what calculating the gate on those inputs gives. */
  lemma CompiledGateAgrees(t: TruthTable, g: Gate, code: LuaCode, eval: Evaluator, v: seq<bool>)
    requires GateTable(t, g, code, eval)
    requires |v| == |g.inputs| >= 1 || (|g.inputs| == 0 && v == [false])
    ensures v in t.entries
    ensures GateCalc(g.(inputs := v), code, eval).Ok?
    ensures t.entries[v] == GateCalc(g.(inputs := v), code, eval).value.outputs
  {
    var n := |g.inputs|;
    if n == 0 {
      assert Key(0, 0) == [false];
    } else {
      var i := ValueOf(v);
      ValueOfBound(v);
      KeyShape(i, n);
      ValueOfInjective(Key(i, n), v);
    }
  }

  // ---------------------------------------------------------------------
  // Circuit
  // ---------------------------------------------------------------------

  /** Writes `bits[j]` into bus `refs[j]`, for each j in order. */
  function WriteBuses(a: seq<Component>, refs: seq<Ref>, bits: seq<bool>): (r: seq<Component>)
    requires AllBuses(a, refs) && |bits| >= |refs|
    ensures Similar(a, r)
    ensures forall x :: 0 <= x < |a| && x !in refs ==> r[x] == a[x]
    decreases |refs|
  {
    if refs == [] then a
    else
      var m := |refs| - 1;
      WriteBuses(a, refs[..m], bits)[refs[m] := Bus(bits[m])]
  }

  /** When the buses are distinct, each one holds the bit written for it. */
  lemma {:induction false} WriteBusesReads(a: seq<Component>, refs: seq<Ref>, bits: seq<bool>)
    requires AllBuses(a, refs) && |bits| >= |refs|
    requires forall i, j :: 0 <= i < j < |refs| ==> refs[i] != refs[j]
    ensures forall i :: 0 <= i < |refs| ==> WriteBuses(a, refs, bits)[refs[i]] == Bus(bits[i])
    decreases |refs|
  {
    if refs != [] {
      var m := |refs| - 1;
      WriteBusesReads(a, refs[..m], bits);
      forall i | 0 <= i < m ensures WriteBuses(a, refs, bits)[refs[i]] == Bus(bits[i]) {
        assert refs[..m][i] == refs[i] != refs[m];
      }
    }
  }

  /**
   * Writing into each bus of `refs` the bit that bus holds in `b` makes
   * every written bus equal to its cell in `b`.
   */
  lemma {:induction false} WriteBusesBack(a: seq<Component>, b: seq<Component>, refs: seq<Ref>, bits: seq<bool>)
    requires AllBuses(a, refs) && AllBuses(b, refs) && |a| == |b| && |bits| >= |refs|
    requires forall i :: 0 <= i < |refs| ==> bits[i] == b[refs[i]].mem
    ensures forall x :: x in refs ==> WriteBuses(a, refs, bits)[x] == b[x]
    decreases |refs|
  {
    if refs != [] {
      var m := |refs| - 1;
      var front := refs[..m];
      forall i | 0 <= i < |front| ensures front[i] < |a| && a[front[i]].Bus? && front[i] < |b| && b[front[i]].Bus? && bits[i] == b[front[i]].mem {
        assert front[i] == refs[i];
      }
      WriteBusesBack(a, b, front, bits);
      forall x | x in refs ensures WriteBuses(a, refs, bits)[x] == b[x] {
        if x != refs[m] {
          var i :| 0 <= i < |refs| && refs[i] == x;
          assert front[i] == x;
        }
      }
    }
  }

  /** `set_input` on each bus of `refs` in turn (`set_output` has the same effect on a bus). */
  method WriteBusesInPlace(arena: array<Component>, refs: seq<Ref>, bits: seq<bool>)
    requires AllBuses(arena[..], refs) && |bits| >= |refs|
    modifies arena
    ensures arena[..] == WriteBuses(old(arena[..]), refs, bits)
  {
    ghost var a0 := arena[..];
    for j := 0 to |refs|
      invariant arena[..] == WriteBuses(a0, refs[..j], bits)
    {
      assert refs[..j + 1][..j] == refs[..j];
      arena[refs[j]] := Bus(bits[j]);
    }
    assert refs[..|refs|] == refs;
  }

  /** One compilation pass: write `key` into the input buses, then calculate the circuit. */
  function CompilePass(a: seq<Component>, c: Circuit, key: seq<bool>, eval: Evaluator, ghost depth: nat): (r: (Outcome<CalcError>, seq<Component>))
    requires WellFormed(a, c, depth) && Conforming(a, eval) && |key| >= |c.inputs|
    ensures Similar(a, r.1)
  {
    var w := WriteBuses(a, c.inputs, key);
    SimilarWellFormed(a, w, c, depth);
    SimilarConforming(a, w, eval);
    var r := CircuitCalc(w, c, eval, depth);
    SimilarTrans(a, w, r.1);
    r
  }

  /** Pass j, on the key of combination j, succeeds from arena `a` and leaves arena `b`. */
  ghost predicate PassStep(a: seq<Component>, c: Circuit, eval: Evaluator, depth: nat, j: nat, b: seq<Component>)
  {
    WellFormed(a, c, depth) && Conforming(a, eval) && |Key(j, |c.inputs|)| >= |c.inputs| &&
    CompilePass(a, c, Key(j, |c.inputs|), eval, depth) == (Pass, b)
  }

  /** Each element of `states` after the first is what `step`, numbered j, relates to the one before it. */
  ghost predicate Chain<T>(states: seq<T>, step: (T, nat, T) -> bool)
  {
    forall i, j :: 0 <= i && j == i + 1 < |states| ==> step(states[i], i, states[j])
  }

  /** One more related element extends a chain. */
  lemma ChainSnoc<T>(states: seq<T>, step: (T, nat, T) -> bool, next: T)
    requires |states| >= 1 && Chain(states, step) && step(states[|states| - 1], |states| - 1, next)
    ensures Chain(states + [next], step)
  {
    var s' := states + [next];
    forall i, j | 0 <= i && j == i + 1 < |s'| ensures step(s'[i], i, s'[j]) {
      if j < |states| {
        assert s'[i] == states[i] && s'[j] == states[j];
      } else {
        assert s'[i] == states[i] && s'[j] == next;
      }
    }
  }

  ghost function PassRelation(c: Circuit, eval: Evaluator, depth: nat): (seq<Component>, nat, seq<Component>) -> bool
  {
    (a: seq<Component>, j: nat, b: seq<Component>) => PassStep(a, c, eval, depth, j, b)
  }

  /** `states[j + 1]` is what pass j, on the key of combination j, leaves behind in `states[j]`. */
  ghost predicate Passes(states: seq<seq<Component>>, c: Circuit, eval: Evaluator, depth: nat)
  {
    Chain(states, PassRelation(c, eval, depth))
  }

  /** Pass j of a chain of passes is a successful pass from `states[j]` to `states[j + 1]`. */
  lemma PassesAt(states: seq<seq<Component>>, c: Circuit, eval: Evaluator, depth: nat, j: nat)
    requires Passes(states, c, eval, depth) && j + 1 < |states|
    ensures PassStep(states[j], c, eval, depth, j, states[j + 1])
  {
    assert PassRelation(c, eval, depth)(states[j], j, states[j + 1]);
  }

  /** The cells `refs` are buses in every arena of `states`. */
  ghost predicate OutputsReadable(states: seq<seq<Component>>, refs: seq<Ref>)
  {
    forall j :: 0 <= j < |states| ==> AllBuses(states[j], refs)
  }

  /** The boundary outputs in each arena of `states`, in order. */
  ghost function PassOutputs(states: seq<seq<Component>>, refs: seq<Ref>): (outs: seq<seq<bool>>)
    requires OutputsReadable(states, refs)
    ensures |outs| == |states|
    ensures forall j :: 0 <= j < |states| ==> outs[j] == Mems(states[j], refs)
  {
    if states == [] then []
    else PassOutputs(states[..|states| - 1], refs) + [Mems(states[|states| - 1], refs)]
  }

  /** The boundary buses hold their values in `a0` again; every other cell holds its value in `last`. */
  ghost predicate Restored(a0: seq<Component>, c: Circuit, last: seq<Component>, a1: seq<Component>)
  {
    |a1| == |a0| == |last| &&
    forall x :: 0 <= x < |a0| ==>
      a1[x] == if x in c.inputs || x in c.outputs then a0[x] else last[x]
  }

  /** The pass that follows the arenas `states` fails, leaving the arena `a1`. */
  ghost predicate FailsAfter(states: seq<seq<Component>>, c: Circuit, eval: Evaluator, depth: nat, a1: seq<Component>)
  {
    var n := |c.inputs|;
    var j := |states| - 1;
    j >= 0 && WellFormed(states[j], c, depth) && Conforming(states[j], eval) && |Key(j, n)| >= n &&
    CompilePass(states[j], c, Key(j, n), eval, depth) == (CompilePass(states[j], c, Key(j, n), eval, depth).0, a1) &&
    CompilePass(states[j], c, Key(j, n), eval, depth).0.Fail?
  }

  /**
   * What compiling `c` from arena `a0` does when `c` is compilable, with
   * `states` the arenas before and after each pass and `a1` the final arena:
   * the passes run on the combinations in order. On success there were
   * exactly 2^n of them, the table maps the key of each combination to what
   * the output buses held after its pass, and the boundary buses are
   * restored. On failure the arena stays where the failing pass left it.
   */
  ghost predicate CircuitCompiled(a0: seq<Component>, c: Circuit, eval: Evaluator, depth: nat,
                                  r: Result<TruthTable, CompileError>, states: seq<seq<Component>>, a1: seq<Component>)
  {
    var n := |c.inputs|;
    |states| >= 1 && states[0] == a0 && Passes(states, c, eval, depth) &&
    (r.Ok? ==>
      |states| == Pow2(n) + 1 &&
      Recorded(c, states[1..], r.value) &&
      Restored(a0, c, states[Pow2(n)], a1)) &&
    (r.Err? ==>
      r.error == CantCompileGate && |states| <= Pow2(n) && FailsAfter(states, c, eval, depth, a1))
  }

  lemma KeyLength(i: nat, n: nat)
    requires i < Pow2(n)
    ensures |Key(i, n)| >= n
  {
    if n >= 1 {
      KeyShape(i, n);
    }
  }

  /** One more successful pass extends the chain of arenas. */
  lemma PassRelationHolds(c: Circuit, eval: Evaluator, depth: nat, a: seq<Component>, j: nat, b: seq<Component>)
    requires PassStep(a, c, eval, depth, j, b)
    ensures PassRelation(c, eval, depth)(a, j, b)
  {
  }

  /** One more pass that leaves the output buses in place adds its outputs to the recorded ones. */
  lemma PassOutputsSnoc(states: seq<seq<Component>>, refs: seq<Ref>, next: seq<Component>)
    requires OutputsReadable(states, refs) && AllBuses(next, refs)
    ensures OutputsReadable(states + [next], refs)
    ensures PassOutputs(states + [next], refs) == PassOutputs(states, refs) + [Mems(next, refs)]
  {
    assert (states + [next])[..|states|] == states;
  }

  /** Arena `cur` still has the shape of `a0`, so the circuit can still be calculated in it. */
  ghost predicate ArenaOk(a0: seq<Component>, c: Circuit, eval: Evaluator, depth: nat, cur: seq<Component>)
  {
    Similar(a0, cur) && WellFormed(cur, c, depth) && Conforming(cur, eval)
  }

  /** The table holds the output buses of each arena of `after`, the arena after pass j under the key of pass j. */
  ghost predicate Recorded(c: Circuit, after: seq<seq<Component>>, table: TruthTable)
  {
    OutputsReadable(after, c.outputs) &&
    Tabulates(table, |c.inputs|, PassOutputs(after, c.outputs))
  }

  /**
   * After the first |states| - 1 passes of compiling `c` from arena `a0`:
   * the arena `cur` is what the last one left, `after` is `states` without
   * `a0`, and the table holds the output buses of each pass under its key.
   */
  ghost predicate PassesRan(a0: seq<Component>, c: Circuit,
                            states: seq<seq<Component>>, after: seq<seq<Component>>, table: TruthTable, cur: seq<Component>)
  {
    |states| >= 1 && states[0] == a0 && states[|states| - 1] == cur && |states| - 1 <= Pow2(|c.inputs|) &&
    after == states[1..] && Recorded(c, after, table)
  }

  lemma PassesRanStart(a0: seq<Component>, c: Circuit, eval: Evaluator, depth: nat)
    requires WellFormed(a0, c, depth) && Conforming(a0, eval)
    ensures PassesRan(a0, c, [a0], [], EmptyTable(), a0)
    ensures ArenaOk(a0, c, eval, depth, a0) && Passes([a0], c, eval, depth)
  {
    assert [a0][1..] == [];
    assert KeysBelow(0, |c.inputs|) == {};
  }

  lemma ArenaOkStep(a0: seq<Component>, c: Circuit, eval: Evaluator, depth: nat, cur: seq<Component>, next: seq<Component>)
    requires ArenaOk(a0, c, eval, depth, cur) && Similar(cur, next)
    ensures ArenaOk(a0, c, eval, depth, next) && AllBuses(next, c.outputs)
  {
    SimilarTrans(a0, cur, next);
    SimilarWellFormed(cur, next, c, depth);
    SimilarConforming(cur, next, eval);
  }

  lemma RecordedStep(c: Circuit, after: seq<seq<Component>>, table: TruthTable, next: seq<Component>)
    requires Recorded(c, after, table) && |after| < Pow2(|c.inputs|) && AllBuses(next, c.outputs)
    ensures Recorded(c, after + [next], table.Add(Key(|after|, |c.inputs|), Mems(next, c.outputs)))
  {
    PassOutputsSnoc(after, c.outputs, next);
    TabulatesAdd(table, |c.inputs|, PassOutputs(after, c.outputs), Mems(next, c.outputs));
  }

  lemma TailSnoc<T>(s: seq<T>, x: T)
    requires |s| >= 1
    ensures (s + [x])[1..] == s[1..] + [x]
  {
  }

  /** One more pass that leaves the output buses in place extends the chain of arenas and the table by one row. */
  lemma PassesRanStep(a0: seq<Component>, c: Circuit, states: seq<seq<Component>>,
                      after: seq<seq<Component>>, table: TruthTable, cur: seq<Component>, next: seq<Component>)
    requires PassesRan(a0, c, states, after, table, cur) && |states| - 1 < Pow2(|c.inputs|)
    requires AllBuses(next, c.outputs)
    ensures PassesRan(a0, c, states + [next], after + [next],
                      table.Add(Key(|after|, |c.inputs|), Mems(next, c.outputs)), next)
  {
    TailSnoc(states, next);
    RecordedStep(c, after, table, next);
  }

  /** One pass of `Circuit::compile`: write the key of combination `i` into the input buses and calculate. */
  method RunPass(arena: array<Component>, c: Circuit, eval: Evaluator, ghost depth: nat, i: nat)
    returns (outcome: Outcome<CalcError>)
    requires WellFormed(arena[..], c, depth) && Conforming(arena[..], eval) && i < Pow2(|c.inputs|)
    modifies arena
    ensures |Key(i, |c.inputs|)| >= |c.inputs|
    ensures CompilePass(old(arena[..]), c, Key(i, |c.inputs|), eval, depth) == (outcome, arena[..])
  {
    ghost var before := arena[..];
    var inputs := FromBitString(FormatBinary(i, |c.inputs|));
    KeyFormats(i, |c.inputs|);
    KeyLength(i, |c.inputs|);
    WriteBusesInPlace(arena, c.inputs, inputs);
    SimilarWellFormed(before, arena[..], c, depth);
    SimilarConforming(before, arena[..], eval);
    ghost var trace;
    outcome, trace := CalculateCircuit(arena, c, eval, depth);
  }

  /**
   * The loop of `Circuit::compile`: for each combination in turn, write its
   * key into the input buses, calculate the circuit and record the output
   * buses, stopping at the first failed calculation.
   */
  method RunPasses(arena: array<Component>, c: Circuit, eval: Evaluator, ghost depth: nat)
    returns (ok: bool, table: TruthTable, ghost states: seq<seq<Component>>)
    requires WellFormed(arena[..], c, depth) && Conforming(arena[..], eval)
    modifies arena
    ensures |states| >= 1 && states[0] == old(arena[..]) && Passes(states, c, eval, depth)
    ensures ok ==> |states| == Pow2(|c.inputs|) + 1 && Similar(old(arena[..]), arena[..])
    ensures ok ==> PassesRan(old(arena[..]), c, states, states[1..], table, arena[..])
    ensures !ok ==> |states| <= Pow2(|c.inputs|) && FailsAfter(states, c, eval, depth, arena[..])
  {
    ghost var a0 := arena[..];
    states := [a0];
    ghost var after := [];
    table := EmptyTable();
    PassesRanStart(a0, c, eval, depth);
    var n := |c.inputs|;
    var count := Pow2(n);
    var i := 0;
    while i < count
      invariant |states| == i + 1 && PassesRan(a0, c, states, after, table, arena[..])
      invariant ArenaOk(a0, c, eval, depth, arena[..]) && Passes(states, c, eval, depth)
    {
      ghost var before := arena[..];
      var outcome := RunPass(arena, c, eval, depth, i);
      if outcome.Fail? {
        return false, table, states;
      }
      PassRelationHolds(c, eval, depth, states[i], i, arena[..]);
      ChainSnoc(states, PassRelation(c, eval, depth), arena[..]);
      ArenaOkStep(a0, c, eval, depth, before, arena[..]);
      PassesRanStep(a0, c, states, after, table, before, arena[..]);
      table := table.Add(Key(i, n), Mems(arena[..], c.outputs));
      states, after := states + [arena[..]], after + [arena[..]];
      i := i + 1;
    }
    ok := true;
  }

  /** Writing back the boundary values of `a0` over `last` restores exactly the boundary buses. */
  lemma RestoreBoundary(a0: seq<Component>, c: Circuit, last: seq<Component>)
    requires Boundary(a0, c) && Boundary(last, c) && |a0| == |last|
    ensures AllBuses(WriteBuses(last, c.inputs, Mems(a0, c.inputs)), c.outputs)
    ensures Restored(a0, c, last,
      WriteBuses(WriteBuses(last, c.inputs, Mems(a0, c.inputs)), c.outputs, Mems(a0, c.outputs)))
  {
    var mid := WriteBuses(last, c.inputs, Mems(a0, c.inputs));
    forall i | 0 <= i < |c.outputs| ensures c.outputs[i] < |mid| && mid[c.outputs[i]].Bus? {
      assert SameShape(last[c.outputs[i]], mid[c.outputs[i]]);
    }
    var a1 := WriteBuses(mid, c.outputs, Mems(a0, c.outputs));
    WriteBusesBack(last, a0, c.inputs, Mems(a0, c.inputs));
    WriteBusesBack(mid, a0, c.outputs, Mems(a0, c.outputs));
    forall x | 0 <= x < |a0| ensures a1[x] == if x in c.inputs || x in c.outputs then a0[x] else last[x] {
      if x !in c.outputs {
        assert a1[x] == mid[x];
      }
    }
  }

  /** `Circuit::compile`. */
  method CompileCircuit(arena: array<Component>, c: Circuit, eval: Evaluator, ghost depth: nat)
    returns (r: Result<TruthTable, CompileError>, ghost states: seq<seq<Component>>)
    requires WellFormed(arena[..], c, depth) && Conforming(arena[..], eval)
    modifies arena
    ensures !CircuitCompilable(old(arena[..]), c, depth) ==> r == Err(CantCompileGate) && arena[..] == old(arena[..])
    ensures CircuitCompilable(old(arena[..]), c, depth) ==> CircuitCompiled(old(arena[..]), c, eval, depth, r, states, arena[..])
  {
    ghost var a0 := arena[..];
    states := [a0];
    if !CircuitCompilable(arena[..], c, depth) {
      return Err(CantCompileGate), states;
    }
    var ins := Mems(arena[..], c.inputs);
    var outs := Mems(arena[..], c.outputs);
    var ok, table;
    ok, table, states := RunPasses(arena, c, eval, depth);
    if !ok {
      return Err(CantCompileGate), states;
    }
    ghost var last := arena[..];
    SimilarWellFormed(a0, last, c, depth);
    RestoreBoundary(a0, c, last);
    WriteBusesInPlace(arena, c.inputs, ins);
    WriteBusesInPlace(arena, c.outputs, outs);
    r := Ok(table);
  }

  /** A successful circuit compilation has exactly 2^n distinct keys, the keys of all combinations. */
  lemma CompiledCircuitKeys(a0: seq<Component>, c: Circuit, eval: Evaluator, depth: nat,
                            r: Result<TruthTable, CompileError>, states: seq<seq<Component>>, a1: seq<Component>)
    requires CircuitCompiled(a0, c, eval, depth, r, states, a1) && r.Ok?
    ensures r.value.entries.Keys == AllKeys(|c.inputs|)
    ensures |r.value.entries| == Pow2(|c.inputs|)
  {
    var n := |c.inputs|;
    assert |states| == Pow2(n) + 1;
    var outs := PassOutputs(states[1..], c.outputs);
    assert Tabulates(r.value, n, outs);
    TabulatesAll(r.value, n, outs);
  }

  /**
   * Each row of a successfully compiled circuit is what the output buses
   * show after writing that row's key into the input buses and
   * calculating the circuit from the arena the previous pass left.
   */
  lemma CompiledCircuitAgrees(a0: seq<Component>, c: Circuit, eval: Evaluator, depth: nat,
                              r: Result<TruthTable, CompileError>, states: seq<seq<Component>>, a1: seq<Component>, j: nat)
    requires CircuitCompiled(a0, c, eval, depth, r, states, a1) && r.Ok? && j < Pow2(|c.inputs|)
    ensures Key(j, |c.inputs|) in r.value.entries
    ensures WellFormed(states[j], c, depth) && Conforming(states[j], eval) && |Key(j, |c.inputs|)| >= |c.inputs|
    ensures var pass := CompilePass(states[j], c, Key(j, |c.inputs|), eval, depth);
      pass.0 == Pass && AllBuses(pass.1, c.outputs) &&
      r.value.entries[Key(j, |c.inputs|)] == Mems(pass.1, c.outputs)
  {
    PassesAt(states, c, eval, depth, j);
    assert states[1..][j] == states[j + 1];
  }

  /**
   * `BasicGate::compile`: fails for a gate with memory; otherwise a script
   * gate is compiled by running it on every combination, and a table gate
   * returns a copy of its table.
   */
  method CompileBasic(arena: array<Component>, k: Ref, eval: Evaluator) returns (r: Result<TruthTable, CompileError>)
    requires k < arena.Length && arena[k].Basic?
    requires arena[k].mode.Lua? && !IsStateful(arena[k].gate) ==> ScriptTotal(arena[k].gate, arena[k].mode.code, eval)
    modifies arena
    ensures IsStateful(old(arena[k]).gate) ==> r == Err(CantCompileGate) && arena[..] == old(arena[..])
    ensures !IsStateful(old(arena[k]).gate) && old(arena[k]).mode.Table? ==>
      r == Ok(old(arena[k]).mode.table) && arena[..] == old(arena[..])
    ensures !IsStateful(old(arena[k]).gate) && old(arena[k]).mode.Lua? ==>
      arena[..] == old(arena[..])[k := arena[k]] &&
      arena[k].Basic? && arena[k].mode == old(arena[k]).mode &&
      GateCompiled(old(arena[k]).gate, old(arena[k]).mode.code, eval, r, arena[k].gate)
  {
    var g, mode := arena[k].gate, arena[k].mode;
    if IsStateful(g) {
      return Err(CantCompileGate);
    }
    match mode
    case Lua(code) =>
      var after;
      r, after := CompileGate(g, code, eval);
      arena[k] := Basic(after, mode);
    case Table(table) =>
      r := Ok(table);
  }

  /** `LogicGate::compile` on cell `k`. */
  method CompileComponent(arena: array<Component>, k: Ref, eval: Evaluator, ghost depth: nat)
    returns (r: Result<TruthTable, CompileError>, ghost states: seq<seq<Component>>)
    requires CompileReady(arena[..], k, depth) && Conforming(arena[..], eval)
    requires arena[k].Basic? && arena[k].mode.Lua? && !IsStateful(arena[k].gate) ==>
      ScriptTotal(arena[k].gate, arena[k].mode.code, eval)
    modifies arena
    ensures !Compilable(old(arena[..]), k, depth) ==> r == Err(CantCompileGate) && arena[..] == old(arena[..])
    ensures old(arena[k]).Bus? ==> r == Ok(BusTable()) && arena[..] == old(arena[..])
    ensures old(arena[k]).Basic? && old(arena[k]).mode.Table? && Compilable(old(arena[..]), k, depth) ==>
      r == Ok(old(arena[k]).mode.table) && arena[..] == old(arena[..])
    ensures old(arena[k]).Basic? && old(arena[k]).mode.Lua? && Compilable(old(arena[..]), k, depth) ==>
      arena[..] == old(arena[..])[k := arena[k]] &&
      arena[k].Basic? && arena[k].mode == old(arena[k]).mode &&
      GateCompiled(old(arena[k]).gate, old(arena[k]).mode.code, eval, r, arena[k].gate)
    ensures old(arena[k]).Nested? && Compilable(old(arena[..]), k, depth) ==>
      CircuitCompiled(old(arena[..]), old(arena[k]).circuit, eval, depth - 1, r, states, arena[..])
  {
    states := [arena[..]];
    match arena[k]
    case Bus(_) =>
      r := Ok(BusTable());
    case Basic(_, _) =>
      r := CompileBasic(arena, k, eval);
    case Nested(c) =>
      r, states := CompileCircuit(arena, c, eval, depth - 1);
    case Button(_) =>
      r := Err(CantCompileGate);
    case Lamp(_) =>
      r := Err(CantCompileGate);
  }
}
