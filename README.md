# logic-gates, modelled in Dafny

This project models the engine of the logic-gates simulator. The engine has these parts:

- **Truth tables**, which are maps from an input vector to an output vector. They are stored as lists of `'0'`/`'1'` strings paired with outputs.
- **Components** that can sit in a circuit:
  - the circuit bus, a single cell that serves as both input and output;
  - the basic gate, whose Lua script computes its outputs and, when it has memory, its memory;
  - the nested circuit;
  - the button and the lamp of the user interface.
- **Circuits**, which are built from member gates, boundary buses and connections. Wiring a circuit is checked.
- **Propagation in `Circuit::calculate`**: starting from the input buses, each round walks a frontier. Every component the sweep reaches is calculated at most once. After each calculation, every connection is updated in insertion order.
- **Exhaustive compilation** of a gate or a circuit to a truth table. It enumerates the `format!("{:0width$b}", i)` patterns of all 2^n input combinations.
- **State machines of the user interface:**
  - the undo/redo history of the canvas, which merges repeated events;
  - the per-canvas event history;
  - the row of canvas tabs with a single selection;
  - the RGBA pixel buffer a gate script draws into;
  - the cached texture made from that buffer.

## How the model is organised

- **Components are held in an arena.** The engine shares components through `Rc<RefCell<Box<dyn LogicGate>>>` and compares them by pointer. The model holds every component in one arena instead: a `seq<Component>` in the functions and an `array<Component>` in the methods. A `Ref` is a cell index, so pointer identity becomes index equality.
- **A circuit is a value.** A circuit is a datatype value stored in its arena cell. The wiring calls that the engine makes on `&mut Circuit` are written twice:
  - as functions on that value (`Wiring.InputToGate`, `Wiring.GateToOutput`);
  - as methods of `Wiring.CircuitBuilder`, which update its fields in place.
- **The Lua runtime is a parameter.** It is an `Evaluator` function from script, inputs and memory to either new outputs and memory, or an error.
- **Nesting is bounded by a ghost depth.** A ghost `depth` bounds how deeply circuits are nested. A circuit that contains its own cell has no such bound. The engine would borrow that cell twice and panic.
- **Propagation is proved against a specification.** The specification is the function `Propagation.CircuitCalc`, which is `Run(Schedule(c))`. `Schedules.Schedule` is the visiting order. It depends only on the connections, never on pin values.
- **The propagation method mirrors the engine.** `Propagation.CalculateCircuit` walks the frontier vectors and the visited set as the engine does. It is proved to leave exactly the arena `CircuitCalc` describes.
- **Compilation keeps a ghost trace.** `Compilation.CompileCircuit` records the arenas before and after every pass as a ghost value. Its contract relates each table row to the pass that produced it.

## Where the code and its description differ (the model follows the code)

- **Every connection is updated after each calculation.** After calculating each component, `Circuit::calculate` updates every connection of the circuit, not only those leaving the component (`Propagation.Run`, `Propagation.UpdateConnections`).
- **The gate is left at the last combination.** `compile_gate_to_truth_table` leaves the gate holding its last combination and the outputs for it. It does not restore the gate's inputs (`Compilation.RowsCompiled`).
- **A 0-input component compiles under the key `[false]`.** `format!("{:0width$b}", 0)` with width 0 is `"0"`, so the single key is `[false]`, not `[]` (`TruthTables.ZeroInputKey`).
- **Only the boundary buses are restored, and only on success.** `Circuit::compile` restores the input and output buses after a successful run. Every other cell keeps what the last pass left. After a failed pass nothing is restored (`Compilation.CircuitCompiled`).
- **Histories are never truncated.** The truncation of later events in the canvas history is commented out, so `add_event` never drops events (`CanvasEvents.CanvasEventQueue.AddEvent`).

## Model

| member | source | states |
|---|---|---|
| `TruthTables.TruthTable.Add` | src/lib.rs:27-29 | the key set grows by the inputs; the new key maps to the outputs; every other entry is kept |
| `TruthTables.EmptyTable` | src/lib.rs:21-25 | a new table has no entries |
| `TruthTables.ToBitString` | src/lib.rs:37-39 | one character per pin: '1' exactly at the true pins, '0' exactly at the false ones |
| `TruthTables.FromBitString` | src/lib.rs:40-42 | one pin per character, true exactly where the character is '1' |
| `TruthTables.BitStringRoundTrip` | src/lib.rs:37-42 | reading back a written bit string gives the original vector |
| `TruthTables.ToBitStringInjective` | src/lib.rs:37-39 | distinct vectors get distinct bit strings |
| `TruthTables.Serialize` | src/lib.rs:45-60 | every serialised pair records an association of the table |
| `TruthTables.Deserialize` | src/lib.rs:61-74 | the rebuilt map has exactly the keys the pairs name |
| `TruthTables.DeserializeAgrees` | src/lib.rs:61-74 | pairs that record associations of a table rebuild a map that agrees with the table on each key |
| `TruthTables.ListingCoversKeys` | src/lib.rs:45-74 | every key of the table is rebuilt from its serialised pairs |
| `TruthTables.SerializeRoundTrip` | src/lib.rs:45-74 | deserialising a listing of the serialised pairs, in any order and with repeats, rebuilds exactly the same table |
| `TruthTables.KeyFormats` | src/lib.rs:309-310 | the vector read back from the zero-padded binary of combination i is `Key(i, n)` |
| `TruthTables.KeyShape` | src/lib.rs:343-345 | for n >= 1, the key of combination i < 2^n has n pins and spells i, most significant bit first |
| `TruthTables.KeyInjective` | src/lib.rs:308-310 | distinct combinations below 2^n get distinct keys |
| `TruthTables.KeysBelowMember` | src/lib.rs:308-310 | a vector is among the keys of the first `count` combinations exactly when one of them produces it |
| `TruthTables.AllKeysAreAllVectors` | src/lib.rs:343-345 | for n >= 1, the keys enumerated are exactly the boolean vectors of length n |
| `TruthTables.ZeroInputKey` | src/lib.rs:343-345 | with no inputs the only key enumerated is [false] |
| `TruthTables.KeysBelowSize` | src/lib.rs:343-350 | the first `count` <= 2^n combinations give `count` distinct keys |
| `TruthTables.AllKeysSize` | src/lib.rs:308-320 | the enumeration of an n-input component gives 2^n distinct keys |
| `Components.NewGate` | src/lib.rs:370-377 | a new gate keeps the given pins and has no memory, so it is not stateful |
| `Components.GateCalc` | src/lib.rs:424-447 | fails exactly when the script fails; otherwise keeps name and inputs, takes the script's outputs, and replaces the memory only for a gate with memory |
| `Components.Mems` | src/lib.rs:243-249 | the values of the listed buses, one per bus, in order |
| `Components.Inputs` | src/lib.rs:243-245 | a component shows as many inputs as its input count |
| `Components.Outputs` | src/lib.rs:247-249 | a component shows as many outputs as its output count |
| `Components.SetInput` | src/lib.rs:251-253 | only the written cell changes; it then shows the value at the pin, except on a button, which ignores the call; a basic gate changes only that input pin, keeping its other inputs, outputs and memory |
| `Components.SetOutput` | src/lib.rs:255-257 | only the written cell changes; it then shows the value at the pin, except on a lamp, which ignores the call; a basic gate changes only that output pin, keeping its inputs, other outputs and memory |
| `Components.Update` | src/lib.rs:658-661 | the destination input pin takes the source output pin; no other cell changes, and a basic destination keeps its other inputs, outputs and memory; shapes are kept |
| `Components.WriteInput` | src/lib.rs:400-402 | writing an input pin in place leaves the arena that `SetInput` describes |
| `Components.UpdateConnection` | src/lib.rs:658-661 | updating a connection in place leaves the arena that `Update` describes |
| `Components.UpdateAll` | src/lib.rs:281-286 | updating every connection in order changes pin values only, never shapes |
| `Components.UpdateTwice` | src/lib.rs:658-661 | updating the same connection twice equals updating it once |
| `Wiring.NewCircuit` | src/lib.rs:149-157 | a new circuit has the name and no members, connections or boundary buses |
| `Wiring.Drivers` | src/lib.rs:210-215 | exactly the positions of the connections that write into the given cell |
| `Wiring.InputToGate` | src/lib.rs:178-195 | fails exactly on an input index out of range or a gate that is not a member, in that order; otherwise appends exactly one connection from pin 0 of the input bus to the gate pin and changes nothing else |
| `Wiring.GateToOutput` | src/lib.rs:197-221 | fails exactly on an output index out of range, a non-member gate or an already driven output bus, in that order; otherwise appends exactly one connection from the gate pin to pin 0 of the output bus and changes nothing else |
| `Wiring.SecondOutputConnectionFails` | src/lib.rs:210-215 | once an output is connected, connecting anything to it again fails |
| `Wiring.GateToOutputSingleDriver` | src/lib.rs:210-218 | after a successful connection exactly one connection drives that output bus |
| `Wiring.GateToOutputKeepsSingleDrivers` | src/lib.rs:197-221 | connecting to an output keeps every output bus driven at most once |
| `Wiring.InputToGateWellFormed` | src/lib.rs:178-195 | connecting an input bus to an existing member pin keeps the circuit calculable |
| `Wiring.GateToOutputWellFormed` | src/lib.rs:197-221 | connecting an existing member pin to an output bus keeps the circuit calculable |
| `Wiring.CircuitBuilder.Value` | src/lib.rs:140-146 | the circuit value holds exactly the builder's fields |
| `Wiring.CircuitBuilder.constructor` | src/lib.rs:149-157 | the fields describe the new, empty circuit |
| `Wiring.CircuitBuilder.AddInput` | src/lib.rs:159-162 | appends the bus to the inputs, changes nothing else, and hands the bus back |
| `Wiring.CircuitBuilder.AddOutput` | src/lib.rs:164-167 | appends the bus to the outputs, changes nothing else, and hands the bus back |
| `Wiring.CircuitBuilder.AddGate` | src/lib.rs:169-172 | appends the member with its id, changes nothing else, and hands the gate back |
| `Wiring.CircuitBuilder.Connect` | src/lib.rs:232-235 | appends the connection unchecked and changes nothing else |
| `Wiring.CircuitBuilder.HasMember` | src/lib.rs:185-185 | answers exactly whether the cell is a registered member |
| `Wiring.CircuitBuilder.ConnInputToGate` | src/lib.rs:178-195 | reports what `InputToGate` reports, takes its circuit on success, and changes nothing on failure |
| `Wiring.CircuitBuilder.ConnGateToOutput` | src/lib.rs:197-221 | reports what `GateToOutput` reports, takes its circuit on success, and changes nothing on failure |
| `Schedules.SuccessorsAreEdges` | src/lib.rs:281-286 | the components queued after calculating k are exactly the ends of the connections leaving k |
| `Schedules.Round` | src/lib.rs:270-287 | a round visits only components of its frontier |
| `Schedules.RoundFacts` | src/lib.rs:267-290 | a round visits each unvisited frontier component once and nothing else; its next frontier holds exactly the ends of connections leaving what it visited |
| `Schedules.SweepUnfold` | src/lib.rs:267-290 | a sweep is its first round followed by the sweep from the next frontier, and each non-empty round shrinks the set of unvisited reachable nodes |
| `Schedules.SweepFacts` | src/lib.rs:267-290 | a sweep visits only input buses and connection destinations it had not visited, each once |
| `Schedules.Schedule` | src/lib.rs:259-293 | a call calculates each component at most once, and only input buses and connection destinations |
| `Schedules.SweepReachable` | src/lib.rs:267-290 | a sweep from reachable components visits only reachable components |
| `Schedules.ScheduleReachable` | src/lib.rs:259-293 | only components reachable from an input bus through connections are calculated |
| `Schedules.SweepCloses` | src/lib.rs:267-290 | a sweep covers its frontier and leaves no connection from a visited component unfollowed |
| `Schedules.ScheduleComplete` | src/lib.rs:259-293 | every component reachable from an input bus is calculated |
| `Schedules.ScheduleBounded` | src/lib.rs:259-293 | a call calculates no more components than the circuit can reach, even with cycles |
| `Propagation.CalcAt` | src/lib.rs:573-576 | calculating a component changes pin values only, never shapes |
| `Propagation.Run` | src/lib.rs:270-287 | calculating a list of components with connection updates changes pin values only |
| `Propagation.CircuitCalc` | src/lib.rs:259-293 | calculating a circuit changes pin values only |
| `Propagation.UpdateConnections` | src/lib.rs:281-286 | the inner loop updates every connection in order and collects the destinations of those leaving k, in order |
| `Propagation.CalculateComponent` | src/lib.rs:573-576 | calculating the cell in place gives the outcome and arena of `CalcAt` |
| `Propagation.RunAppend` | src/lib.rs:267-290 | running two lists of components in turn is running their concatenation, and a failure stops the rest |
| `Propagation.RoundBookStart` | src/lib.rs:270-270 | before the frontier loop nothing is visited and nothing is queued |
| `Propagation.RoundBookSkip` | src/lib.rs:271-274 | a component visited before is skipped and the round goes on with the rest |
| `Propagation.RoundBookVisit` | src/lib.rs:276-286 | a component not visited before is the next one the round calculates, marks and queues successors for |
| `Propagation.Visit` | src/lib.rs:276-286 | calculating one component and updating the connections continues the run of the remaining components, or stops it on failure, and queues the component's successors |
| `Propagation.CalculateRound` | src/lib.rs:270-287 | one pass over the frontier gives the outcome and arena of running the round, and on success the new visited set and next frontier of the round |
| `Propagation.CalculateCircuit` | src/lib.rs:259-293 | the frontier loop gives exactly the outcome and arena of `CircuitCalc`, and on success calculates exactly the schedule |
| `Compilation.BusTable` | src/lib.rs:131-136 | the bus table has exactly the keys [false] and [true] |
| `Compilation.BusTableIdentity` | src/lib.rs:131-136 | the bus table's keys are the one-pin vectors, and it maps each to itself |
| `Compilation.TabulatesAdd` | src/lib.rs:318-319 | recording the next combination extends a table by exactly that row |
| `Compilation.TabulatesAll` | src/lib.rs:308-320 | a table with a row for every combination has exactly the 2^n keys of all combinations |
| `Compilation.ScriptOutputs` | src/lib.rs:343-349 | what the script outputs on each combination, in order |
| `Compilation.GateTableStep` | src/lib.rs:343-349 | the script's outputs on the next combination extend the rows of the earlier ones |
| `Compilation.RowsCompiledStart` | src/lib.rs:336-336 | before the first combination the table is empty |
| `Compilation.RowsCompiledStep` | src/lib.rs:344-349 | calculating the gate on the next combination and recording its outputs compiles one more row |
| `Compilation.CompileRow` | src/lib.rs:344-349 | one iteration sets the inputs to combination i, calculates and records the row |
| `Compilation.CompileRows` | src/lib.rs:343-350 | the loop records the script's outputs for all 2^n combinations and leaves the gate at the last one |
| `Compilation.CompileGate` | src/lib.rs:335-353 | fails exactly for a gate with memory, leaving the gate as it was; otherwise gives the table of all 2^n combinations |
| `Compilation.CompiledGateAgrees` | src/lib.rs:335-353 | a compiled gate answers every lookup of an n-pin vector (or [false] for no inputs) with what calculating the gate on it gives |
| `Compilation.WriteBuses` | src/lib.rs:312-314 | writing the input buses changes pin values only, and only of those buses |
| `Compilation.WriteBusesReads` | src/lib.rs:312-314 | when the buses are distinct each holds the bit written for it |
| `Compilation.WriteBusesBack` | src/lib.rs:322-329 | writing back the values saved from an arena makes each written bus equal to its saved cell |
| `Compilation.WriteBusesInPlace` | src/lib.rs:312-314 | writing the buses in place leaves the arena `WriteBuses` describes |
| `Compilation.CompilePass` | src/lib.rs:309-317 | one pass changes pin values only |
| `Compilation.PassesAt` | src/lib.rs:308-320 | pass j of a chain of passes is a successful pass on the key of combination j |
| `Compilation.PassesRanStart` | src/lib.rs:306-306 | before the first pass nothing is recorded and the arena is the starting one |
| `Compilation.PassesRanStep` | src/lib.rs:318-319 | one more successful pass extends the arenas and adds its output buses under its key |
| `Compilation.RecordedStep` | src/lib.rs:318-319 | the output buses after the next pass become the table row of the next key |
| `Compilation.RunPass` | src/lib.rs:309-317 | one iteration writes combination i into the input buses and calculates, giving the outcome and arena of `CompilePass` |
| `Compilation.RunPasses` | src/lib.rs:308-320 | the loop runs the passes on combinations 0, 1, ... in order; either all 2^n succeed with each row recorded, or it stops at the first failing pass |
| `Compilation.RestoreBoundary` | src/lib.rs:322-329 | writing back the saved input and output values restores exactly the boundary buses |
| `Compilation.CompileCircuit` | src/lib.rs:299-332 | a circuit that is not compilable fails and changes nothing; a compilable one runs its passes in order; on success there are 2^n passes with each row recorded and the boundary restored; on failure the arena stays where the failing pass left it |
| `Compilation.CompiledCircuitKeys` | src/lib.rs:308-320 | a compiled circuit's table has exactly the 2^n keys of all combinations |
| `Compilation.CompiledCircuitAgrees` | src/lib.rs:308-320 | the row of combination j is what the output buses show after writing its key and calculating from the arena pass j - 1 left |
| `Compilation.CompileBasic` | src/lib.rs:582-597 | a gate with memory fails and changes nothing; a table gate gives its table; a script gate is compiled by `CompileGate` in place |
| `Compilation.CompileComponent` | src/lib.rs:541-542 | a component that is not compilable fails and changes nothing; a bus gives the identity table; a basic gate and a circuit compile as `CompileBasic` and `CompileCircuit` say |
| `SpecialGates.NewBus` | src/lib.rs:94-98 | a new bus holds false, with one pin in and one pin out |
| `SpecialGates.NewButton` | src/ui/special_gates.rs:9-13 | a new button is released, with no inputs and one output |
| `SpecialGates.NewLamp` | src/ui/special_gates.rs:62-66 | a new lamp is dark, with one input and no outputs |
| `SpecialGates.BusPins` | src/lib.rs:107-121 | a bus shows its cell as its only input and output, and writing either pin at any index stores the value in that cell |
| `SpecialGates.ButtonPins` | src/ui/special_gates.rs:21-34 | a button has no inputs and shows its state as output; set_input does nothing and set_output stores the value at any index |
| `SpecialGates.LampPins` | src/ui/special_gates.rs:74-87 | a lamp shows its state as input and has no outputs; set_input stores the value at any index and set_output does nothing |
| `SpecialGates.CalculateIsNoop` | src/ui/special_gates.rs:36-38 | calculating a bus, button or lamp succeeds and changes nothing |
| `SpecialGates.SpecialCompilable` | src/ui/special_gates.rs:40-46 | a bus is compilable and a button or lamp never is |
| `SpecialGates.BusTableEntries` | src/lib.rs:131-136 | the bus table is exactly {[false] -> [false], [true] -> [true]} |
| `EventQueues.Merge` | src/ui/event_queue.rs:131-159 | a pan or zoom takes the new end point, a move the new start and end points, a click the new position; every other field is kept |
| `EventQueues.MergeTwice` | src/ui/event_queue.rs:131-159 | merging the same event again changes nothing |
| `EventQueues.EventQueue.constructor` | src/ui/event_queue.rs:92-97 | no events, cursor at 0 |
| `EventQueues.EventQueue.GetCurrent` | src/ui/event_queue.rs:115-121 | the event under the cursor exactly when the cursor is inside the list |
| `EventQueues.EventQueue.GetLastMut` | src/ui/event_queue.rs:123-129 | the position before the cursor exactly when 1 <= cursor <= length |
| `EventQueues.EventQueue.MutateLastIfSame` | src/ui/event_queue.rs:131-159 | merges the event into the one before the cursor and answers false exactly when that one exists and both are mergeable; otherwise answers true and changes nothing |
| `EventQueues.EventQueue.AddEvent` | src/ui/event_queue.rs:99-113 | appends and answers true with the cursor kept, or merges, moves the cursor to the last event and answers false |
| `EventQueues.EventQueue.Advance` | src/ui/event_queue.rs:162-164 | the cursor moves forward by one and the events are kept |
| `EventQueues.EventQueue.Undo` | src/ui/event_queue.rs:166-174 | from a cursor >= 0 hands back the event under it and steps back; otherwise hands back nothing and changes nothing |
| `EventQueues.EventQueue.Redo` | src/ui/event_queue.rs:176-184 | when an event follows the cursor, steps forward and hands it back; otherwise hands back nothing and changes nothing |
| `CanvasEvents.CanvasEventQueue.constructor` | src/ui/canvas_events.rs:51-57 | no events, cursor -1, nothing changed |
| `CanvasEvents.CanvasEventQueue.GetCurrentEvent` | src/ui/canvas_events.rs:59-65 | the event under the cursor exactly when the cursor is inside the list |
| `CanvasEvents.CanvasEventQueue.AddEvent` | src/ui/canvas_events.rs:67-75 | appends exactly one event, marks the history changed, keeps the cursor and keeps -1 <= cursor < length |
| `CanvasEvents.CanvasEventQueue.Undo` | src/ui/canvas_events.rs:77-86 | always marks changed; from a cursor >= 0 hands back the event under it and steps back, otherwise nothing; keeps the cursor invariant |
| `CanvasEvents.CanvasEventQueue.Redo` | src/ui/canvas_events.rs:88-97 | always marks changed; steps forward and hands back the event only when one follows the cursor; keeps the cursor invariant |
| `CanvasEvents.CanvasEventQueue.UndoThenRedo` | src/ui/canvas_events.rs:77-97 | a successful undo followed by a redo restores the cursor and hands back the same event |
| `CanvasLists.NewSelectable` | src/ui/canvas_list.rs:12-18 | a new tab is unselected and shows a canvas of its own name |
| `CanvasLists.CanvasList.constructor` | src/ui/canvas_list.rs:30-37 | exactly the tabs "Canvas 1" and "Canvas 2", neither selected |
| `CanvasLists.CanvasList.AddElement` | src/ui/canvas_list.rs:39-41 | appends the tab at the end and changes nothing else |
| `CanvasLists.CanvasList.UnselectAll` | src/ui/canvas_list.rs:43-47 | every tab is unselected; length, names, canvases and order are kept |
| `CanvasLists.CanvasList.GetSelected` | src/ui/canvas_list.rs:49-56 | the canvas of the first selected tab, or nothing exactly when no tab is selected |
| `CanvasLists.CanvasList.Select` | src/ui/canvas_list.rs:86-90 | tab j is selected exactly when j is the clicked index, everything else is kept, and at most one tab is selected |
| `CanvasLists.CanvasList.Remove` | src/ui/canvas_list.rs:93-95 | exactly the tab at the index is deleted |
| `CanvasLists.RemoveKeepsOthers` | src/ui/canvas_list.rs:93-95 | removal keeps every other tab in its relative order and keeps a single selection single |
| `VisualBuffers.PixelIndex` | src/ui/drawable_gate.rs:56-56 | the position is below 2^32 and equals y * width + x when that does not wrap |
| `VisualBuffers.RowMajor` | src/ui/drawable_gate.rs:55-62 | inside a width-by-height buffer, each pixel of the rectangle lands inside the buffer, at its own position |
| `VisualBuffers.VisualBuffer.constructor` | src/ui/drawable_gate.rs:195-199 | for integral sizes: width * height transparent pixels, the given size, flagged changed |
| `VisualBuffers.VisualBuffer.GetSize` | src/ui/drawable_gate.rs:49-49 | the size the buffer was created with |
| `VisualBuffers.VisualBuffer.GetPixel` | src/ui/drawable_gate.rs:50-50 | the pixel at the row-major position, which must be inside the buffer |
| `VisualBuffers.VisualBuffer.SetPixel` | src/ui/drawable_gate.rs:55-62 | an in-range position sets exactly that pixel; an out-of-range one changes no pixel; either way the buffer is flagged changed and its size kept |
| `VisualBuffers.VisualBuffer.SetAll` | src/ui/drawable_gate.rs:63-69 | every pixel becomes the colour, so the texture is that colour everywhere; flagged changed, size kept |
| `VisualBuffers.VisualBuffer.AsTexture` | src/ui/drawable_gate.rs:97-111 | an image of the buffer's width and height, with exactly one colour per buffer pixel, in order |
| `VisualBuffers.ImageTexture.constructor` | src/ui/drawable_gate.rs:120-126 | holds the image, not uploaded yet |
| `VisualBuffers.ImageTexture.UpdateImageFromBuffer` | src/ui/drawable_gate.rs:128-133 | a changed buffer replaces the image and clears the upload; otherwise both are kept; the buffer and its flag are never touched |

## Left out

- **Lua execution** is an abstract `Evaluator` parameter. This covers loading the script, reading `NUM_OF_INS`/`NUM_OF_OUTS` and its `expect` panic, and moving memory in and out of the globals. `BasicGate::from_lua` and the gate property reader are left out.
- **Scripts must keep their output count.** A script that answers with a different number of outputs would make later pin reads panic. The model requires every script gate to answer with as many outputs as it has (`Components.Conforming`).
- **Table-backed gates are not calculated.** `Gate::calculate` for a table-backed gate is `todo!()`. A circuit is well formed only when its basic gates run scripts (`Components.RefOk`).
- **Circuit boundaries hold buses only.** `Circuit::add_input` and `add_output` accept any shared component, and `get_inputs`/`set_input` read or write pin 0 of whatever sits there. The model requires every boundary cell of a circuit to be a bus (`Components.Boundary`, `Components.Readable`), which is how every circuit in the repository's tests is built.
- **Re-entrant borrows are excluded.** A circuit that contains its own cell would panic on a second `RefCell` borrow. The ghost `depth` bound excludes such circuits instead.
- Compilation.CompileGate: `compile_gate_to_truth_table` unwraps every script answer and panics on an error. The model requires instead that the script answers on every combination (`Compilation.ScriptTotal`).
- **Failed calculations are not rolled back.** When a calculation fails, the cells calculated before the failing one keep their new values, in the engine and in the model. A failure inside a nested circuit's round is propagated as in the engine.
- Components.GateCalc: a failing script call leaves the gate unchanged. In the engine, a stateful gate whose `Calculate` succeeds but leaves a `memory` global that is not a list of booleans keeps the new outputs and then reports the error (src/lib.rs:442-445). The model has no way to express "outputs written, memory read failed".
- Components.GateCalc: the `Evaluator` is a pure function of script, inputs and memory. In the engine, `Gate::calculate` runs in the gate's own Lua state, whose globals survive from one call to the next, while `compile_gate_to_truth_table` starts a fresh Lua state for every combination (src/lib.rs:347). A script that keeps hidden state in other globals is not modelled, and `Compilation.CompiledGateAgrees` relies on this purity.
- **File and JSON I/O** is left out: `save_truth_table`, `load_truth_table`, `run`, and reading gate files. Only the pure mapping between the pair list and the map is modelled.
- **HashMap iteration order** is unspecified, so the serialised form is a set of pairs.
- **Widths and sizes are unbounded.** `2_usize.pow(n)` overflow, `u32` truncation of the exponent and `u8` pin counts are not modelled: counts are unbounded naturals.
- VisualBuffers.PixelIndex: models the `u32` index arithmetic with 32-bit wrap-around, as in a release build. A debug build would panic on the overflow instead.
- VisualBuffers.VisualBuffer.constructor: the model takes a `u32` width and height and allocates `width * height` pixels. The engine stores the truncated float sizes but allocates `(size.0 * size.1) as usize` pixels, the truncated product of the float sizes (src/ui/drawable_gate.rs:196, 217). The two differ for non-integral sizes: 2.5 by 2.5 gives 6 pixels in the engine and 4 in the model. The float geometry of `DrawableGate::new` is left out.
- **Colours are copied as given.** The non-premultiplied-to-premultiplied conversion of `Color32::from_rgba_unmultiplied` is not modelled. `as_texture` copies the four channels into the texture colour.
- **Texture upload and debug output are left out**, because they are rendering and printing: `ImageTexture::upload_texture`, `ImageTexture::update`, the texture id getter, and the Lua `test` method that only prints. The `println!` in `EventQueue::add_event` is also left out.
- **Trivial accessors are not modelled.** `Circuit::get_gate_num`, `Gate::set_memory`/`get_memory`, `get_name` and `get_lua_env` only read or write one field. They are not modelled separately.
- **Tab drawing is left out.** The tab row's egui drawing and click detection are left out. The selection update and the removal after a click are modelled as `CanvasLists.CanvasList.Select` and `CanvasLists.CanvasList.Remove`.
- **Event payloads are opaque.** Points, zoom factors, gate templates and drawn gates are opaque values. The histories only copy them.
