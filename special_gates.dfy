/**
 * The components with a single cell of state: the circuit bus, which is
 * both its own input and output, the button, which only drives, and the
 * lamp, which only listens. None of them computes anything.
 */
module SpecialGates {
  import opened Results
  import opened Components
  import opened Propagation
  import opened Compilation

  /** `CircuitBus::new`: a bus holding false, one pin in and one pin out. */
  function NewBus(): (x: Component)
    ensures x.Bus? && InputCount(x) == 1 && OutputCount(x) == 1 && !x.mem
  {
    Bus(false)
  }

  /** `ButtonGate::new`: a released button with no inputs and one output. */
  function NewButton(): (x: Component)
    ensures x.Button? && InputCount(x) == 0 && OutputCount(x) == 1 && !x.state
  {
    Button(false)
  }

  /** `LampGate::new`: a dark lamp with one input and no outputs. */
  function NewLamp(): (x: Component)
    ensures x.Lamp? && InputCount(x) == 1 && OutputCount(x) == 0 && !x.state
  {
    Lamp(false)
  }

  /**
   * A bus shows its cell as its only input and its only output, and
   * writing either pin, whatever the index, stores the value in that cell
   * and changes nothing else.
   */
  lemma BusPins(a: seq<Component>, k: Ref, i: nat, j: nat, v: bool)
    requires k < |a| && a[k].Bus?
    ensures Inputs(a, k) == Outputs(a, k) == [a[k].mem]
    ensures SetInput(a, k, i, v) == SetOutput(a, k, j, v) == a[k := Bus(v)]
  {
  }

  /**
   * A button has no inputs and shows its state as its one output; writing
   * an input does nothing, and writing any output index stores the value.
   */
  lemma ButtonPins(a: seq<Component>, k: Ref, i: nat, v: bool)
    requires k < |a| && a[k].Button?
    ensures Inputs(a, k) == [] && Outputs(a, k) == [a[k].state]
    ensures SetInput(a, k, i, v) == a
    ensures SetOutput(a, k, i, v) == a[k := Button(v)]
  {
  }

  /**
   * A lamp shows its state as its one input and has no outputs; writing
   * any input index stores the value, and writing an output does nothing.
   */
  lemma LampPins(a: seq<Component>, k: Ref, i: nat, v: bool)
    requires k < |a| && a[k].Lamp?
    ensures Inputs(a, k) == [a[k].state] && Outputs(a, k) == []
    ensures SetInput(a, k, i, v) == a[k := Lamp(v)]
    ensures SetOutput(a, k, i, v) == a
  {
  }

  /** Calculating a bus, button or lamp succeeds and changes nothing. */
  lemma CalculateIsNoop(a: seq<Component>, k: Ref, eval: Evaluator, depth: nat)
    requires k < |a| && (a[k].Bus? || a[k].Button? || a[k].Lamp?)
    requires Conforming(a, eval)
    ensures CalcAt(a, k, eval, depth) == (Pass, a)
  {
  }

  /** A bus is always compilable; a button or a lamp never is. */
  lemma SpecialCompilable(a: seq<Component>, k: Ref, depth: nat)
    requires k < |a| && (a[k].Bus? || a[k].Button? || a[k].Lamp?)
    ensures Compilable(a, k, depth) <==> a[k].Bus?
  {
  }

  /** The identity table a bus compiles to maps [false] to [false] and [true] to [true], and nothing else. */
  lemma BusTableEntries()
    ensures BusTable().entries == map[[false] := [false], [true] := [true]]
  {
    var t := BusTable();
    BusTableIdentity([false]);
    BusTableIdentity([true]);
  }
}
