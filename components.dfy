/**
 * Components of the logic-gate engine and their pins.
 *
 * The engine shares components through reference-counted cells and compares
 * them by pointer. Here every component lives in one arena (a sequence of
 * cells, an array in the methods) and a `Ref` is the index of its cell, so
 * pointer identity becomes index equality and sharing is two `Ref`s with the
 * same value.
 */
module Components {
  import opened Results
  import opened TruthTables

  /** Index of a component's cell in the arena. */
  type Ref = nat

  /** Opaque identifier a circuit stores next to each member gate. */
  type Uuid = nat

  /** Source text of a gate's Lua script. */
  datatype LuaCode = LuaCode(source: string)

  /** How a basic gate computes: by its Lua script or by a compiled table. */
  datatype CalcMode = Lua(code: LuaCode) | Table(table: TruthTable)

  /** `Gate`: a name and its input, output and memory pin vectors. */
  datatype Gate = Gate(name: string, inputs: seq<bool>, outputs: seq<bool>, memory: seq<bool>)

  /** A registered member of a circuit: the gate's cell and its id. */
  datatype Member = Member(gate: Ref, id: Uuid)

  /** `Connection`: output pin `srcPin` of `src` drives input pin `dstPin` of `dst`. */
  datatype Connection = Connection(src: Ref, srcPin: nat, dst: Ref, dstPin: nat)

  /** `Circuit`: members, connections in insertion order, and the boundary cells. */
  datatype Circuit = Circuit(
    name: string,
    gates: seq<Member>,
    connections: seq<Connection>,
    inputs: seq<Ref>,
    outputs: seq<Ref>)

  /**
   * The kinds of component that can sit in a cell: a `CircuitBus`, a
   * `BasicGate`, a nested `Circuit`, and the `ButtonGate` and `LampGate`
   * of the user interface.
   */
  datatype Component =
    | Bus(mem: bool)
    | Basic(gate: Gate, mode: CalcMode)
    | Nested(circuit: Circuit)
    | Button(state: bool)
    | Lamp(state: bool)

  /** An error raised while running a gate's script. */
  datatype CalcError = LuaError(message: string)

  /**
   * The Lua runtime, as a function of the script, the input pins and the
   * memory pins: either new output and memory vectors, or an error.
   */
  type Evaluator = (LuaCode, seq<bool>, seq<bool>) -> Result<(seq<bool>, seq<bool>), CalcError>

  // ---------------------------------------------------------------------
  // Gate
  // ---------------------------------------------------------------------

  /** `Gate::new`: a gate without memory. */
  function NewGate(name: string, inputs: seq<bool>, outputs: seq<bool>): (g: Gate)
    ensures !IsStateful(g)
    ensures g.inputs == inputs && g.outputs == outputs
  {
    Gate(name, inputs, outputs, [])
  }

  /** `Gate::is_stateful`: the gate has memory pins. */
  predicate IsStateful(g: Gate)
  {
    |g.memory| != 0
  }

  /**
   * `Gate::calculate` in Lua mode: the outputs are replaced by what the
   * script returns, and the memory only when the gate has memory.
   */
  function GateCalc(g: Gate, code: LuaCode, eval: Evaluator): (r: Result<Gate, CalcError>)
    ensures r.Err? <==> eval(code, g.inputs, g.memory).Err?
    ensures r.Ok? ==> r.value.name == g.name && r.value.inputs == g.inputs
    ensures r.Ok? ==> r.value.outputs == eval(code, g.inputs, g.memory).value.0
    ensures r.Ok? && !IsStateful(g) ==> r.value.memory == g.memory
    ensures r.Ok? && IsStateful(g) ==> r.value.memory == eval(code, g.inputs, g.memory).value.1
  {
    match eval(code, g.inputs, g.memory)
    case Err(e) => Err(e)
    case Ok(result) =>
      Ok(g.(outputs := result.0, memory := if IsStateful(g) then result.1 else g.memory))
  }

  /** The script of `code` always answers with as many outputs as `g` has. */
  ghost predicate ConformingGate(g: Gate, code: LuaCode, eval: Evaluator)
  {
    forall ins, mem :: eval(code, ins, mem).Ok? ==> |eval(code, ins, mem).value.0| == |g.outputs|
  }

  /** Every Lua gate of the arena keeps its number of outputs when calculated. */
  ghost predicate Conforming(a: seq<Component>, eval: Evaluator)
  {
    forall k :: 0 <= k < |a| && a[k].Basic? && a[k].mode.Lua? ==>
      ConformingGate(a[k].gate, a[k].mode.code, eval)
  }

  // ---------------------------------------------------------------------
  // Pins
  // ---------------------------------------------------------------------

  /** `get_input_num`, read off the component's shape. */
  function InputCount(x: Component): nat
  {
    match x
    case Bus(_) => 1
    case Basic(g, _) => |g.inputs|
    case Nested(c) => |c.inputs|
    case Button(_) => 0
    case Lamp(_) => 1
  }

  /** `get_output_num`, read off the component's shape. */
  function OutputCount(x: Component): nat
  {
    match x
    case Bus(_) => 1
    case Basic(g, _) => |g.outputs|
    case Nested(c) => |c.outputs|
    case Button(_) => 1
    case Lamp(_) => 0
  }

  /** Writing input pin `i` does not index out of range (a bus, button and lamp ignore the index). */
  predicate InPinOk(x: Component, i: nat)
  {
    match x
    case Basic(g, _) => i < |g.inputs|
    case Nested(c) => i < |c.inputs|
    case _ => true
  }

  /** Reading output pin `i` does not index out of range. */
  predicate OutPinOk(x: Component, i: nat)
  {
    i < OutputCount(x)
  }

  /** Every cell of `refs` is a bus of the arena. */
  predicate AllBuses(a: seq<Component>, refs: seq<Ref>)
  {
    forall i :: 0 <= i < |refs| ==> refs[i] < |a| && a[refs[i]].Bus?
  }

  /** Every boundary cell of `c` is a bus of the arena. */
  predicate Boundary(a: seq<Component>, c: Circuit)
  {
    AllBuses(a, c.inputs) && AllBuses(a, c.outputs)
  }

  /** Cell `k` exists, and if it holds a circuit, its boundary buses exist. */
  predicate Readable(a: seq<Component>, k: Ref)
  {
    k < |a| && (a[k].Nested? ==> Boundary(a, a[k].circuit))
  }

  /** The `mem` of each bus in `refs`, in order. */
  function Mems(a: seq<Component>, refs: seq<Ref>): (bits: seq<bool>)
    requires AllBuses(a, refs)
    ensures |bits| == |refs|
    ensures forall i :: 0 <= i < |refs| ==> bits[i] == a[refs[i]].mem
  {
    if refs == [] then [] else [a[refs[0]].mem] + Mems(a, refs[1..])
  }

  /**
   * `get_inputs`: a bus shows its one cell, a circuit the first input of
   * each of its input buses, a button nothing and a lamp its state.
   */
  function Inputs(a: seq<Component>, k: Ref): (pins: seq<bool>)
    requires Readable(a, k)
    ensures |pins| == InputCount(a[k])
  {
    match a[k]
    case Bus(m) => [m]
    case Basic(g, _) => g.inputs
    case Nested(c) => Mems(a, c.inputs)
    case Button(_) => []
    case Lamp(s) => [s]
  }

  /**
   * `get_outputs`: a bus shows its one cell, a circuit the first output of
   * each of its output buses, a button its state and a lamp nothing.
   */
  function Outputs(a: seq<Component>, k: Ref): (pins: seq<bool>)
    requires Readable(a, k)
    ensures |pins| == OutputCount(a[k])
  {
    match a[k]
    case Bus(m) => [m]
    case Basic(g, _) => g.outputs
    case Nested(c) => Mems(a, c.outputs)
    case Button(s) => [s]
    case Lamp(_) => []
  }

  /** The cell that writing input pin `i` of component `k` changes. */
  function InputCell(a: seq<Component>, k: Ref, i: nat): Ref
    requires Readable(a, k) && InPinOk(a[k], i)
  {
    if a[k].Nested? then a[k].circuit.inputs[i] else k
  }

  /** The cell that writing output pin `i` of component `k` changes. */
  function OutputCell(a: seq<Component>, k: Ref, i: nat): Ref
    requires Readable(a, k) && OutPinOk(a[k], i)
  {
    if a[k].Nested? then a[k].circuit.outputs[i] else k
  }

  /** Where pin `i` shows up among the pins: a bus and a lamp have one pin whatever the index. */
  function PinOf(x: Component, i: nat): nat
  {
    if x.Bus? || x.Lamp? then 0 else i
  }

  /**
   * Two cells that hold components of the same shape: same kind, same
   * script and pin counts for a basic gate, the very same circuit for a
   * nested one. Calculating and wiring values never change a shape.
   */
  predicate SameShape(x: Component, y: Component)
  {
    match x
    case Bus(_) => y.Bus?
    case Basic(g, mode) =>
      y.Basic? && y.mode == mode && y.gate.name == g.name &&
      |y.gate.inputs| == |g.inputs| && |y.gate.outputs| == |g.outputs|
    case Nested(_) => y == x
    case Button(_) => y.Button?
    case Lamp(_) => y.Lamp?
  }

  /** Two arenas that differ only in pin values. */
  predicate Similar(a: seq<Component>, b: seq<Component>)
  {
    |a| == |b| && forall k :: 0 <= k < |a| ==> SameShape(a[k], b[k])
  }

  /**
   * `set_input`: a bus stores the value whatever the index, a basic gate
   * writes pin `i`, a circuit writes its `i`-th input bus, a button ignores
   * the call and a lamp stores the value.
   */
  function SetInput(a: seq<Component>, k: Ref, i: nat, v: bool): (r: seq<Component>)
    requires Readable(a, k) && InPinOk(a[k], i)
    ensures Similar(a, r)
    ensures forall j :: 0 <= j < |a| && j != InputCell(a, k, i) ==> r[j] == a[j]
    ensures a[k].Button? ==> r == a
    ensures !a[k].Button? ==> Readable(r, k) && Inputs(r, k)[PinOf(a[k], i)] == v
    ensures a[k].Basic? ==> r[k] == Basic(a[k].gate.(inputs := a[k].gate.inputs[i := v]), a[k].mode)
  {
    match a[k]
    case Bus(_) => a[k := Bus(v)]
    case Basic(g, mode) => a[k := Basic(g.(inputs := g.inputs[i := v]), mode)]
    case Nested(c) => a[c.inputs[i] := Bus(v)]
    case Button(_) => a
    case Lamp(_) => a[k := Lamp(v)]
  }

  /**
   * `set_output`: a bus stores the value whatever the index, a basic gate
   * writes pin `i`, a circuit writes its `i`-th output bus, a button stores
   * the value and a lamp ignores the call.
   */
  function SetOutput(a: seq<Component>, k: Ref, i: nat, v: bool): (r: seq<Component>)
    requires Readable(a, k) && (a[k].Lamp? || a[k].Bus? || a[k].Button? || OutPinOk(a[k], i))
    ensures Similar(a, r)
    ensures forall j :: 0 <= j < |a| && j != k && !(a[k].Nested? && j == a[k].circuit.outputs[i]) ==> r[j] == a[j]
    ensures a[k].Lamp? ==> r == a
    ensures !a[k].Lamp? ==> Readable(r, k) && Outputs(r, k)[if a[k].Bus? || a[k].Button? then 0 else i] == v
    ensures a[k].Basic? ==> r[k] == Basic(a[k].gate.(outputs := a[k].gate.outputs[i := v]), a[k].mode)
  {
    match a[k]
    case Bus(_) => a[k := Bus(v)]
    case Basic(g, mode) => a[k := Basic(g.(outputs := g.outputs[i := v]), mode)]
    case Nested(c) => a[c.outputs[i] := Bus(v)]
    case Button(_) => a[k := Button(v)]
    case Lamp(_) => a
  }

  // ---------------------------------------------------------------------
  // Connections
  // ---------------------------------------------------------------------

  /** Updating `e` reads and writes pins that exist. */
  predicate ConnOk(a: seq<Component>, e: Connection)
  {
    Readable(a, e.src) && Readable(a, e.dst) && OutPinOk(a[e.src], e.srcPin) && InPinOk(a[e.dst], e.dstPin)
  }

  /**
   * `Connection::update`: the source's output pin is copied to the
   * destination's input pin; only the written cell changes.
   */
  function Update(a: seq<Component>, e: Connection): (r: seq<Component>)
    requires ConnOk(a, e)
    ensures Similar(a, r)
    ensures forall j :: 0 <= j < |a| && j != InputCell(a, e.dst, e.dstPin) ==> r[j] == a[j]
    ensures !a[e.dst].Button? ==> Readable(r, e.dst) && Inputs(r, e.dst)[PinOf(a[e.dst], e.dstPin)] == Outputs(a, e.src)[e.srcPin]
    ensures a[e.dst].Basic? ==>
      r[e.dst] == Basic(a[e.dst].gate.(inputs := a[e.dst].gate.inputs[e.dstPin := Outputs(a, e.src)[e.srcPin]]), a[e.dst].mode)
  {
    SetInput(a, e.dst, e.dstPin, Outputs(a, e.src)[e.srcPin])
  }

  /** `set_input` on the component in cell `k` of the arena. */
  method WriteInput(arena: array<Component>, k: Ref, i: nat, v: bool)
    requires Readable(arena[..], k) && InPinOk(arena[k], i)
    modifies arena
    ensures arena[..] == SetInput(old(arena[..]), k, i, v)
  {
    match arena[k]
    case Bus(_) =>
      arena[k] := Bus(v);
    case Basic(g, mode) =>
      arena[k] := Basic(g.(inputs := g.inputs[i := v]), mode);
    case Nested(c) =>
      arena[c.inputs[i]] := Bus(v);
    case Button(_) =>
    case Lamp(_) =>
      arena[k] := Lamp(v);
  }

  /** `Connection::update` on the arena. */
  method UpdateConnection(arena: array<Component>, e: Connection)
    requires ConnOk(arena[..], e)
    modifies arena
    ensures arena[..] == Update(old(arena[..]), e)
  {
    var v := Outputs(arena[..], e.src)[e.srcPin];
    WriteInput(arena, e.dst, e.dstPin, v);
  }

  /** Every connection of `conns` can be updated in `a`. */
  predicate ConnsOk(a: seq<Component>, conns: seq<Connection>)
  {
    forall e :: e in conns ==> ConnOk(a, e)
  }

  /** Updating every connection of `conns`, in order. */
  function UpdateAll(a: seq<Component>, conns: seq<Connection>): (r: seq<Component>)
    requires ConnsOk(a, conns)
    ensures Similar(a, r)
    decreases |conns|
  {
    if conns == [] then a
    else
      var front := conns[..|conns| - 1];
      var b := UpdateAll(a, front);
      SimilarConnOk(a, b, conns[|conns| - 1]);
      SimilarTrans(a, b, Update(b, conns[|conns| - 1]));
      Update(b, conns[|conns| - 1])
  }

  // ---------------------------------------------------------------------
  // Well-formed circuits
  // ---------------------------------------------------------------------

  /**
   * Cell `r` exists and can be calculated with at most `depth` levels of
   * circuit nesting below it. A circuit that (indirectly) contains its own
   * cell has no such bound: the engine would try to borrow that cell twice.
   * A table-backed gate is excluded, because its `calculate` is not
   * implemented.
   */
  predicate RefOk(a: seq<Component>, r: Ref, depth: nat)
    decreases depth, 0
  {
    r < |a| &&
    match a[r]
    case Basic(_, mode) => mode.Lua?
    case Nested(c) => depth > 0 && WellFormed(a, c, depth - 1)
    case _ => true
  }

  /**
   * The boundary cells of `c` are buses, and every member and every
   * connection endpoint is a cell that can be calculated; every connection
   * reads and writes pins that exist.
   */
  predicate WellFormed(a: seq<Component>, c: Circuit, depth: nat)
    decreases depth, 1
  {
    Boundary(a, c) &&
    (forall m :: m in c.gates ==> RefOk(a, m.gate, depth)) &&
    (forall e :: e in c.connections ==>
      RefOk(a, e.src, depth) && RefOk(a, e.dst, depth) &&
      OutPinOk(a[e.src], e.srcPin) && InPinOk(a[e.dst], e.dstPin))
  }

  // ---------------------------------------------------------------------
  // Lemmas
  // ---------------------------------------------------------------------

  lemma SimilarTrans(a: seq<Component>, b: seq<Component>, c: seq<Component>)
    requires Similar(a, b) && Similar(b, c)
    ensures Similar(a, c)
  {
    forall k | 0 <= k < |a| ensures SameShape(a[k], c[k]) {
      assert SameShape(a[k], b[k]) && SameShape(b[k], c[k]);
    }
  }

  lemma SimilarReadable(a: seq<Component>, b: seq<Component>, k: Ref)
    requires Similar(a, b) && Readable(a, k)
    ensures Readable(b, k) && SameShape(a[k], b[k])
  {
    if a[k].Nested? {
      var c := a[k].circuit;
      assert b[k] == a[k];
      forall i | 0 <= i < |c.inputs| ensures c.inputs[i] < |b| && b[c.inputs[i]].Bus? {
        assert SameShape(a[c.inputs[i]], b[c.inputs[i]]);
      }
      forall i | 0 <= i < |c.outputs| ensures c.outputs[i] < |b| && b[c.outputs[i]].Bus? {
        assert SameShape(a[c.outputs[i]], b[c.outputs[i]]);
      }
    }
  }

  /** Pin values do not decide whether a connection can be updated. */
  lemma SimilarConnOk(a: seq<Component>, b: seq<Component>, e: Connection)
    requires Similar(a, b) && ConnOk(a, e)
    ensures ConnOk(b, e)
  {
    SimilarReadable(a, b, e.src);
    SimilarReadable(a, b, e.dst);
  }

  lemma SimilarConnsOk(a: seq<Component>, b: seq<Component>, conns: seq<Connection>)
    requires Similar(a, b) && ConnsOk(a, conns)
    ensures ConnsOk(b, conns)
  {
    forall e | e in conns ensures ConnOk(b, e) {
      SimilarConnOk(a, b, e);
    }
  }

  /** Pin values do not decide whether every script keeps its output count. */
  lemma SimilarConforming(a: seq<Component>, b: seq<Component>, eval: Evaluator)
    requires Similar(a, b) && Conforming(a, eval)
    ensures Conforming(b, eval)
  {
    forall k | 0 <= k < |b| && b[k].Basic? && b[k].mode.Lua?
      ensures ConformingGate(b[k].gate, b[k].mode.code, eval)
    {
      assert SameShape(a[k], b[k]);
    }
  }

  /**
   * `Connection::update` is idempotent: the second update copies the same
   * value again, because the first one either wrote a different cell from
   * the one it read or wrote back the value it read.
   */
  lemma UpdateTwice(a: seq<Component>, e: Connection)
    requires ConnOk(a, e)
    ensures ConnOk(Update(a, e), e)
    ensures Update(Update(a, e), e) == Update(a, e)
  {
    var b := Update(a, e);
    SimilarConnOk(a, b, e);
    var v := Outputs(a, e.src)[e.srcPin];
    assert Outputs(b, e.src)[e.srcPin] == v by {
      var w := InputCell(a, e.dst, e.dstPin);
      var o := OutputCell(a, e.src, e.srcPin);
      if w != o {
        assert b[o] == a[o];
        if a[e.src].Nested? {
          assert b[e.src] == a[e.src];
        }
      }
    }
    assert Update(b, e) == SetInput(b, e.dst, e.dstPin, v);
    match a[e.dst]
    case Bus(_) =>
      assert b[e.dst] == Bus(v);
    case Basic(g, mode) =>
      var g1 := g.(inputs := g.inputs[e.dstPin := v]);
      assert b[e.dst] == Basic(g1, mode);
      assert g1.inputs[e.dstPin := v] == g1.inputs;
      assert g1.(inputs := g1.inputs[e.dstPin := v]) == g1;
    case Nested(c) =>
      assert b[e.dst] == a[e.dst];
      assert b[c.inputs[e.dstPin]] == Bus(v);
    case Button(_) =>
    case Lamp(_) =>
      assert b[e.dst] == Lamp(v);
  }

  lemma RefOkReadable(a: seq<Component>, r: Ref, depth: nat)
    requires RefOk(a, r, depth)
    ensures Readable(a, r)
  {
  }

  /** Every connection of a well-formed circuit can be updated. */
  lemma WellFormedConnsOk(a: seq<Component>, c: Circuit, depth: nat)
    requires WellFormed(a, c, depth)
    ensures ConnsOk(a, c.connections)
  {
    forall e | e in c.connections ensures ConnOk(a, e) {
      RefOkReadable(a, e.src, depth);
      RefOkReadable(a, e.dst, depth);
    }
  }

  /** Pin values do not decide whether a cell can be calculated. */
  lemma {:induction false} SimilarRefOk(a: seq<Component>, b: seq<Component>, r: Ref, depth: nat)
    requires Similar(a, b) && RefOk(a, r, depth)
    ensures RefOk(b, r, depth)
    decreases depth, 0
  {
    assert SameShape(a[r], b[r]);
    if a[r].Nested? {
      SimilarWellFormed(a, b, a[r].circuit, depth - 1);
    }
  }

  /** Pin values do not decide whether a circuit is well formed. */
  lemma {:induction false} SimilarWellFormed(a: seq<Component>, b: seq<Component>, c: Circuit, depth: nat)
    requires Similar(a, b) && WellFormed(a, c, depth)
    ensures WellFormed(b, c, depth)
    decreases depth, 1
  {
    forall i | 0 <= i < |c.inputs| ensures c.inputs[i] < |b| && b[c.inputs[i]].Bus? {
      assert SameShape(a[c.inputs[i]], b[c.inputs[i]]);
    }
    forall i | 0 <= i < |c.outputs| ensures c.outputs[i] < |b| && b[c.outputs[i]].Bus? {
      assert SameShape(a[c.outputs[i]], b[c.outputs[i]]);
    }
    forall m | m in c.gates ensures RefOk(b, m.gate, depth) {
      SimilarRefOk(a, b, m.gate, depth);
    }
    forall e | e in c.connections
      ensures RefOk(b, e.src, depth) && RefOk(b, e.dst, depth) &&
              OutPinOk(b[e.src], e.srcPin) && InPinOk(b[e.dst], e.dstPin)
    {
      SimilarRefOk(a, b, e.src, depth);
      SimilarRefOk(a, b, e.dst, depth);
      assert SameShape(a[e.src], b[e.src]) && SameShape(a[e.dst], b[e.dst]);
    }
  }
}
