/**
 * Building a circuit: registering boundary buses and member gates, and
 * wiring them with connections. `CircuitBuilder` holds the fields that the
 * calls update in place; `Value()` is the circuit they describe, which is
 * what a cell of the arena holds once the circuit is placed there. The
 * functions say what each checked wiring call does to that value.
 */
module Wiring {
  import opened Results
  import opened Components

  /** Why `conn_input_to_gate` or `conn_gate_to_output` refused a connection. */
  datatype CantConnect =
    | InputOutOfRange
    | OutputOutOfRange
    | GateNotInCircuit
    | OutputAlreadyConnected

  /** `Circuit::new`: a named circuit with nothing in it. */
  function NewCircuit(name: string): (c: Circuit)
    ensures c.name == name
    ensures |c.gates| == 0 && |c.connections| == 0 && |c.inputs| == 0 && |c.outputs| == 0
  {
    Circuit(name, [], [], [], [])
  }

  /** Cell `g` was registered with `add_gate` (compared by identity). */
  predicate IsMember(c: Circuit, g: Ref)
  {
    exists j :: 0 <= j < |c.gates| && c.gates[j].gate == g
  }

  /** Some connection already writes into cell `out`. */
  predicate Driven(c: Circuit, out: Ref)
  {
    exists j :: 0 <= j < |c.connections| && c.connections[j].dst == out
  }

  /** The connections that write into cell `out`, by position. */
  function Drivers(c: Circuit, out: Ref): (ds: set<nat>)
    ensures forall j :: j in ds <==> 0 <= j < |c.connections| && c.connections[j].dst == out
  {
    set j | 0 <= j < |c.connections| && c.connections[j].dst == out
  }

  /**
   * `conn_input_to_gate` on a circuit value: it fails exactly when the
   * input index is out of range or the gate is not a member; otherwise it
   * appends one connection from pin 0 of that input bus to the gate's pin
   * and changes nothing else.
   */
  function InputToGate(c: Circuit, inputNum: nat, g: Ref, destPin: nat): (r: Result<Circuit, CantConnect>)
    ensures r.Err? <==> inputNum >= |c.inputs| || !IsMember(c, g)
    ensures inputNum >= |c.inputs| ==> r == Err(InputOutOfRange)
    ensures inputNum < |c.inputs| && !IsMember(c, g) ==> r == Err(GateNotInCircuit)
    ensures r.Ok? ==>
      r.value.name == c.name && r.value.gates == c.gates &&
      r.value.inputs == c.inputs && r.value.outputs == c.outputs &&
      |r.value.connections| == |c.connections| + 1 &&
      r.value.connections[..|c.connections|] == c.connections &&
      r.value.connections[|c.connections|] == Connection(c.inputs[inputNum], 0, g, destPin)
  {
    if inputNum >= |c.inputs| then Err(InputOutOfRange)
    else if !IsMember(c, g) then Err(GateNotInCircuit)
    else Ok(c.(connections := c.connections + [Connection(c.inputs[inputNum], 0, g, destPin)]))
  }

  /**
   * `conn_gate_to_output` on a circuit value: it checks, in this order, the
   * output index, the membership of the gate and whether some connection
   * already drives the output bus, and fails at the first check that does
   * not pass. Otherwise it appends one connection from the gate's pin to
   * pin 0 of that output bus and changes nothing else.
   */
  function GateToOutput(c: Circuit, outputNum: nat, g: Ref, srcPin: nat): (r: Result<Circuit, CantConnect>)
    ensures r.Err? <==> outputNum >= |c.outputs| || !IsMember(c, g) || Driven(c, c.outputs[outputNum])
    ensures outputNum >= |c.outputs| ==> r == Err(OutputOutOfRange)
    ensures outputNum < |c.outputs| && !IsMember(c, g) ==> r == Err(GateNotInCircuit)
    ensures outputNum < |c.outputs| && IsMember(c, g) && Driven(c, c.outputs[outputNum]) ==>
      r == Err(OutputAlreadyConnected)
    ensures r.Ok? ==>
      r.value.name == c.name && r.value.gates == c.gates &&
      r.value.inputs == c.inputs && r.value.outputs == c.outputs &&
      |r.value.connections| == |c.connections| + 1 &&
      r.value.connections[..|c.connections|] == c.connections &&
      r.value.connections[|c.connections|] == Connection(g, srcPin, c.outputs[outputNum], 0)
  {
    if outputNum >= |c.outputs| then Err(OutputOutOfRange)
    else if !IsMember(c, g) then Err(GateNotInCircuit)
    else if Driven(c, c.outputs[outputNum]) then Err(OutputAlreadyConnected)
    else Ok(c.(connections := c.connections + [Connection(g, srcPin, c.outputs[outputNum], 0)]))
  }

  /** The outcome `Result<(), CantConnect>` that a wiring call reports. */
  function Status(r: Result<Circuit, CantConnect>): Outcome<CantConnect>
  {
    if r.Ok? then Pass else Fail(r.error)
  }

  // ---------------------------------------------------------------------
  // One driver per output
  // ---------------------------------------------------------------------

  /** Once an output is connected, connecting anything to it again fails and changes nothing. */
  lemma SecondOutputConnectionFails(c: Circuit, outputNum: nat, g: Ref, srcPin: nat, g2: Ref, srcPin2: nat)
    requires GateToOutput(c, outputNum, g, srcPin).Ok?
    ensures GateToOutput(GateToOutput(c, outputNum, g, srcPin).value, outputNum, g2, srcPin2).Err?
  {
    var c' := GateToOutput(c, outputNum, g, srcPin).value;
    var j := |c.connections|;
    assert c'.connections[j].dst == c'.outputs[outputNum];
  }

  /** After a successful `conn_gate_to_output`, exactly one connection drives that output bus. */
  lemma GateToOutputSingleDriver(c: Circuit, outputNum: nat, g: Ref, srcPin: nat)
    requires GateToOutput(c, outputNum, g, srcPin).Ok?
    ensures Drivers(GateToOutput(c, outputNum, g, srcPin).value, c.outputs[outputNum]) == {|c.connections|}
  {
    var c' := GateToOutput(c, outputNum, g, srcPin).value;
    var out := c.outputs[outputNum];
    forall j | j in Drivers(c', out) ensures j == |c.connections| {
      if j < |c.connections| {
        assert false;
      }
    }
  }

  /** No output bus has more than one connection writing into it. */
  predicate SingleDrivers(c: Circuit)
  {
    forall o :: 0 <= o < |c.outputs| ==> |Drivers(c, c.outputs[o])| <= 1
  }

  /** `conn_gate_to_output` keeps every output bus driven at most once. */
  lemma {:induction false} GateToOutputKeepsSingleDrivers(c: Circuit, outputNum: nat, g: Ref, srcPin: nat)
    requires SingleDrivers(c) && GateToOutput(c, outputNum, g, srcPin).Ok?
    ensures SingleDrivers(GateToOutput(c, outputNum, g, srcPin).value)
  {
    var c' := GateToOutput(c, outputNum, g, srcPin).value;
    var out := c.outputs[outputNum];
    var n := |c.connections|;
    forall o | 0 <= o < |c'.outputs| ensures |Drivers(c', c'.outputs[o])| <= 1 {
      var x := c'.outputs[o];
      if x == out {
        GateToOutputSingleDriver(c, outputNum, g, srcPin);
      } else {
        assert Drivers(c', x) == Drivers(c, x) by {
          forall j ensures j in Drivers(c', x) <==> j in Drivers(c, x) {
            if 0 <= j < n {
              assert c'.connections[j] == c.connections[j];
            }
          }
        }
      }
    }
  }

  // ---------------------------------------------------------------------
  // Wiring keeps a circuit calculable
  // ---------------------------------------------------------------------

  /** Connecting an input bus to a member pin that exists keeps the circuit well formed. */
  lemma InputToGateWellFormed(a: seq<Component>, c: Circuit, depth: nat, inputNum: nat, g: Ref, destPin: nat)
    requires WellFormed(a, c, depth)
    requires InputToGate(c, inputNum, g, destPin).Ok?
    requires g < |a| && InPinOk(a[g], destPin)
    ensures WellFormed(a, InputToGate(c, inputNum, g, destPin).value, depth)
  {
    var c' := InputToGate(c, inputNum, g, destPin).value;
    var j :| 0 <= j < |c.gates| && c.gates[j].gate == g;
    assert c.gates[j] in c.gates;
    var src := c.inputs[inputNum];
    assert a[src].Bus?;
    forall e | e in c'.connections
      ensures RefOk(a, e.src, depth) && RefOk(a, e.dst, depth) &&
        OutPinOk(a[e.src], e.srcPin) && InPinOk(a[e.dst], e.dstPin)
    {
      if e !in c.connections {
        assert e == Connection(src, 0, g, destPin);
      }
    }
  }

  /** Connecting a member pin that exists to an undriven output bus keeps the circuit well formed. */
  lemma GateToOutputWellFormed(a: seq<Component>, c: Circuit, depth: nat, outputNum: nat, g: Ref, srcPin: nat)
    requires WellFormed(a, c, depth)
    requires GateToOutput(c, outputNum, g, srcPin).Ok?
    requires g < |a| && OutPinOk(a[g], srcPin)
    ensures WellFormed(a, GateToOutput(c, outputNum, g, srcPin).value, depth)
  {
    var c' := GateToOutput(c, outputNum, g, srcPin).value;
    var j :| 0 <= j < |c.gates| && c.gates[j].gate == g;
    assert c.gates[j] in c.gates;
    var dst := c.outputs[outputNum];
    assert a[dst].Bus?;
    forall e | e in c'.connections
      ensures RefOk(a, e.src, depth) && RefOk(a, e.dst, depth) &&
        OutPinOk(a[e.src], e.srcPin) && InPinOk(a[e.dst], e.dstPin)
    {
      if e !in c.connections {
        assert e == Connection(g, srcPin, dst, 0);
      }
    }
  }

  // ---------------------------------------------------------------------
  // The circuit under construction
  // ---------------------------------------------------------------------

  /** The fields of `Circuit` that the wiring calls update in place. */
  class CircuitBuilder {
    var name: string
    var gates: seq<Member>
    var connections: seq<Connection>
    var inputs: seq<Ref>
    var outputs: seq<Ref>

    /** The circuit these fields describe. */
    function Value(): (c: Circuit)
      reads this
      ensures c.gates == gates && c.connections == connections
      ensures c.inputs == inputs && c.outputs == outputs && c.name == name
    {
      Circuit(name, gates, connections, inputs, outputs)
    }

    /** `Circuit::new`. */
    constructor (name: string)
      ensures Value() == NewCircuit(name)
    {
      this.name := name;
      gates := [];
      connections := [];
      inputs := [];
      outputs := [];
    }

    /** `add_input`: registers `bus` as the next boundary input and hands it back. */
    method AddInput(bus: Ref) returns (r: Ref)
      modifies this
      ensures Value() == old(Value()).(inputs := old(inputs) + [bus])
      ensures r == bus
    {
      inputs := inputs + [bus];
      r := bus;
    }

    /** `add_output`: registers `bus` as the next boundary output and hands it back. */
    method AddOutput(bus: Ref) returns (r: Ref)
      modifies this
      ensures Value() == old(Value()).(outputs := old(outputs) + [bus])
      ensures r == bus
    {
      outputs := outputs + [bus];
      r := bus;
    }

    /** `add_gate`: registers cell `g` as a member under `id` and hands it back. */
    method AddGate(g: Ref, id: Uuid) returns (r: Ref)
      modifies this
      ensures Value() == old(Value()).(gates := old(gates) + [Member(g, id)])
      ensures r == g
    {
      gates := gates + [Member(g, id)];
      r := g;
    }

    /** `connect`: appends a connection without any check. */
    method Connect(src: Ref, srcPin: nat, dst: Ref, dstPin: nat)
      modifies this
      ensures Value() == old(Value()).(connections := old(connections) + [Connection(src, srcPin, dst, dstPin)])
    {
      connections := connections + [Connection(src, srcPin, dst, dstPin)];
    }

    /** The membership test by identity that both checked wiring calls run. */
    method HasMember(g: Ref) returns (found: bool)
      ensures found == IsMember(Value(), g)
    {
      found := false;
      var j := 0;
      while j < |gates|
        invariant 0 <= j <= |gates|
        invariant !found ==> forall i :: 0 <= i < j ==> gates[i].gate != g
        invariant found ==> IsMember(Value(), g)
      {
        if gates[j].gate == g {
          found := true;
        }
        j := j + 1;
      }
    }

    /** `conn_input_to_gate`. */
    method ConnInputToGate(inputNum: nat, g: Ref, destPin: nat) returns (r: Outcome<CantConnect>)
      modifies this
      ensures r == Status(InputToGate(old(Value()), inputNum, g, destPin))
      ensures r.Pass? ==> Value() == InputToGate(old(Value()), inputNum, g, destPin).value
      ensures r.Fail? ==> Value() == old(Value())
    {
      if inputNum >= |inputs| {
        return Fail(InputOutOfRange);
      }
      var member := HasMember(g);
      if !member {
        return Fail(GateNotInCircuit);
      }
      connections := connections + [Connection(inputs[inputNum], 0, g, destPin)];
      r := Pass;
    }

    /** `conn_gate_to_output`: the range check, the membership check, then a scan of the connections. */
    method ConnGateToOutput(outputNum: nat, g: Ref, srcPin: nat) returns (r: Outcome<CantConnect>)
      modifies this
      ensures r == Status(GateToOutput(old(Value()), outputNum, g, srcPin))
      ensures r.Pass? ==> Value() == GateToOutput(old(Value()), outputNum, g, srcPin).value
      ensures r.Fail? ==> Value() == old(Value())
    {
      if outputNum >= |outputs| {
        return Fail(OutputOutOfRange);
      }
      var member := HasMember(g);
      if !member {
        return Fail(GateNotInCircuit);
      }
      var out := outputs[outputNum];
      var j := 0;
      while j < |connections|
        invariant 0 <= j <= |connections|
        invariant forall i :: 0 <= i < j ==> connections[i].dst != out
      {
        if connections[j].dst == out {
          return Fail(OutputAlreadyConnected);
        }
        j := j + 1;
      }
      connections := connections + [Connection(g, srcPin, out, 0)];
      r := Pass;
    }
  }
}
