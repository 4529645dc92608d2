/**
 * The per-canvas edit history: a list of events, a cursor that starts
 * before the first event, and a flag recording unsaved changes.
 */
module CanvasEvents {
  import opened Results
  import opened Components
  import opened EventQueues

  datatype CanvasEvent =
    | AddGate(gate: GhostGate, pos: Point, size: Point, id: Uuid)
    | SelectToSpawnGate(gate: GhostGate, id: Uuid)
    | MoveGate(id: Uuid, fromCoordinates: Point, toCoordinates: Point)
    | SelectGate(id: Uuid)
    | ClickedGateInPut(id: Uuid, inNum: nat)
    | ClickedGateOutPut(id: Uuid, outNum: nat)
    | ConnectGates(fromId: Uuid, toId: Uuid, inNum: nat, outNum: nat)
    | RemoveGate(id: Uuid)

  class CanvasEventQueue {
    var events: seq<CanvasEvent>
    var currentIndex: int
    var changed: bool

    /** The cursor is on an event, or just before the first one. */
    ghost predicate Valid()
      reads this
    {
      -1 <= currentIndex < |events|
    }

    /** `CanvasEventQueue::new`: no events, cursor before the first, nothing changed. */
    constructor ()
      ensures Valid()
      ensures events == [] && currentIndex == -1 && !changed
    {
      events := [];
      currentIndex := -1;
      changed := false;
    }

    /** `get_current_event`: the event under the cursor, when there is one. */
    function GetCurrentEvent(): (r: Option<CanvasEvent>)
      reads this
      ensures r.Some? <==> 0 <= currentIndex < |events|
      ensures r.Some? ==> r.value == events[currentIndex]
    {
      if 0 <= currentIndex < |events| then Some(events[currentIndex]) else None
    }

    /**
     * `add_event`: appends the event and marks the history changed; the
     * cursor stays where it is and no later event is dropped.
     */
    method AddEvent(event: CanvasEvent)
      requires Valid()
      modifies this
      ensures Valid()
      ensures events == old(events) + [event]
      ensures currentIndex == old(currentIndex) && changed
    {
      changed := true;
      events := events + [event];
    }

    /**
     * `undo`: marks the history changed; when the cursor is on an event,
     * hands it back and steps back, otherwise hands back nothing.
     */
    method Undo() returns (r: Option<CanvasEvent>)
      requires Valid()
      modifies this
      ensures Valid()
      ensures events == old(events) && changed
      ensures old(currentIndex) >= 0 ==> r == Some(events[old(currentIndex)]) && currentIndex == old(currentIndex) - 1
      ensures old(currentIndex) < 0 ==> r == None && currentIndex == old(currentIndex)
    {
      changed := true;
      if currentIndex >= 0 {
        r := Some(events[currentIndex]);
        currentIndex := currentIndex - 1;
      } else {
        r := None;
      }
    }

    /**
     * `redo`: marks the history changed; when an event follows the cursor,
     * steps forward and hands it back, otherwise hands back nothing.
     */
    method Redo() returns (r: Option<CanvasEvent>)
      requires Valid()
      modifies this
      ensures Valid()
      ensures events == old(events) && changed
      ensures old(currentIndex) + 1 < |events| ==>
        currentIndex == old(currentIndex) + 1 && r == Some(events[currentIndex])
      ensures old(currentIndex) + 1 >= |events| ==> r == None && currentIndex == old(currentIndex)
    {
      changed := true;
      if currentIndex + 1 < |events| {
        currentIndex := currentIndex + 1;
        r := Some(events[currentIndex]);
      } else {
        r := None;
      }
    }

    /**
     * An undo that hands back an event, followed by a redo, puts the
     * cursor back where it was and hands back the same event.
     */
    method UndoThenRedo() returns (undone: Option<CanvasEvent>, redone: Option<CanvasEvent>)
      requires Valid()
      modifies this
      ensures Valid() && events == old(events)
      ensures undone.Some? <==> old(currentIndex) >= 0
      ensures undone.Some? ==> currentIndex == old(currentIndex) && redone == undone
    {
      undone := Undo();
      redone := Redo();
    }
  }
}
