/**
 * The canvas history used for undo and redo: a list of events and a
 * cursor into it. Repeated pans, gate moves, zooms and canvas clicks are
 * merged into the event before the cursor instead of being appended.
 */
module EventQueues {
  import opened Results
  import opened Components

  /** A point on the canvas; the coordinates are only ever copied. */
  type Point = (real, real)

  /** A pin position on a drawn gate, kept opaque. */
  type PinPosition = nat

  /** A gate template picked from the gate list, kept opaque. */
  type GhostGate = nat

  /** A drawn gate, kept opaque. */
  type DrawnGate = nat

  datatype GateEvent =
    | ClickedOn(id: Uuid)
    | ClickedIn(num: PinPosition, id: Uuid)
    | ClickedOut(num: PinPosition, id: Uuid)
    | MovedGate(id: Uuid, from: Point, to: Point, start: Point)

  datatype CanvasEvent =
    | SpawnGate(gate: GhostGate, pos: Point, size: Point)
    | RemoveSelected
    | AddConnection(fromGate: Option<DrawnGate>, toGate: Option<DrawnGate>,
                    inputPos: Option<PinPosition>, outputPos: Option<PinPosition>)
    | PanCanvas(from: Point, to: Point)
    | ZoomCanvas(fromZoom: real, toZoom: real)
    | ClickedCanvas(pos: Point)
    | OnGate(event: GateEvent)

  /** The pairs of events that `mutate_last_if_same` merges: both pans, both moves, both zooms or both clicks. */
  predicate Mergeable(last: CanvasEvent, next: CanvasEvent)
  {
    (last.PanCanvas? && next.PanCanvas?) ||
    (last.OnGate? && last.event.MovedGate? && next.OnGate? && next.event.MovedGate?) ||
    (last.ZoomCanvas? && next.ZoomCanvas?) ||
    (last.ClickedCanvas? && next.ClickedCanvas?)
  }

  /**
   * The stored event after merging `next` into it: a pan or a zoom takes
   * the new end point, a move takes the new start and end points, and a
   * click takes the new position; every other field is kept.
   */
  function Merge(last: CanvasEvent, next: CanvasEvent): (m: CanvasEvent)
    requires Mergeable(last, next)
    ensures last.PanCanvas? ==> m == PanCanvas(last.from, next.to)
    ensures last.ZoomCanvas? ==> m == ZoomCanvas(last.fromZoom, next.toZoom)
    ensures last.ClickedCanvas? ==> m == ClickedCanvas(next.pos)
    ensures last.OnGate? ==>
      m == OnGate(MovedGate(last.event.id, next.event.from, next.event.to, last.event.start))
  {
    match last
    case PanCanvas(from, _) => PanCanvas(from, next.to)
    case ZoomCanvas(from, _) => ZoomCanvas(from, next.toZoom)
    case ClickedCanvas(_) => ClickedCanvas(next.pos)
    case OnGate(e) => OnGate(MovedGate(e.id, next.event.from, next.event.to, e.start))
  }

  /** Merging is idempotent: merging the same event again changes nothing. */
  lemma MergeTwice(last: CanvasEvent, next: CanvasEvent)
    requires Mergeable(last, next)
    ensures Mergeable(Merge(last, next), next)
    ensures Merge(Merge(last, next), next) == Merge(last, next)
  {
  }

  class EventQueue {
    var events: seq<CanvasEvent>
    var currentIndex: int

    /** The cursor never goes below -1: only `undo` steps back, and only from 0 or above. */
    ghost predicate Valid()
      reads this
    {
      currentIndex >= -1
    }

    /** `EventQueue::new`: no events, cursor at 0. */
    constructor ()
      ensures Valid() && events == [] && currentIndex == 0
    {
      events := [];
      currentIndex := 0;
    }

    /** `get_current`: the event under the cursor, when the cursor is inside the list. */
    function GetCurrent(): (r: Option<CanvasEvent>)
      reads this
      ensures r.Some? <==> 0 <= currentIndex < |events|
      ensures r.Some? ==> r.value == events[currentIndex]
    {
      if 0 <= currentIndex < |events| then Some(events[currentIndex]) else None
    }

    /** `get_last_mut`: the position of the event just before the cursor, when there is one. */
    function GetLastMut(): (r: Option<nat>)
      reads this
      ensures r.Some? <==> 1 <= currentIndex <= |events|
      ensures r.Some? ==> r.value == currentIndex - 1 && r.value < |events|
    {
      if currentIndex >= 1 && currentIndex - 1 < |events| then Some(currentIndex - 1) else None
    }

    /**
     * `mutate_last_if_same`: merges `event` into the event before the
     * cursor when the two are mergeable and answers false; otherwise
     * changes nothing and answers true.
     */
    method MutateLastIfSame(event: CanvasEvent) returns (push: bool)
      requires Valid()
      modifies this
      ensures Valid()
      ensures currentIndex == old(currentIndex)
      ensures !push <==> old(GetLastMut()).Some? && Mergeable(old(events)[old(currentIndex) - 1], event)
      ensures !push ==> events == old(events)[old(currentIndex) - 1 := Merge(old(events)[old(currentIndex) - 1], event)]
      ensures push ==> events == old(events)
    {
      var last := GetLastMut();
      match last
      case None =>
        push := true;
      case Some(j) =>
        if Mergeable(events[j], event) {
          events := events[j := Merge(events[j], event)];
          push := false;
        } else {
          push := true;
        }
    }

    /**
     * `add_event`: appends the event and answers true, leaving the cursor
     * where it is; or, when it was merged into the event before the cursor,
     * moves the cursor to the last event and answers false.
     */
    method AddEvent(event: CanvasEvent) returns (added: bool)
      requires Valid()
      modifies this
      ensures Valid()
      ensures added <==> !(old(GetLastMut()).Some? && Mergeable(old(events)[old(currentIndex) - 1], event))
      ensures added ==> events == old(events) + [event] && currentIndex == old(currentIndex)
      ensures !added ==>
        events == old(events)[old(currentIndex) - 1 := Merge(old(events)[old(currentIndex) - 1], event)] &&
        |events| == |old(events)| && currentIndex == |events| - 1
    {
      var push := MutateLastIfSame(event);
      if push {
        events := events + [event];
        return true;
      }
      currentIndex := |events| - 1;
      added := false;
    }

    /** `advance`: moves the cursor one step forward, unconditionally. */
    method Advance()
      requires Valid()
      modifies this
      ensures Valid()
      ensures currentIndex == old(currentIndex) + 1 && events == old(events)
    {
      currentIndex := currentIndex + 1;
    }

    /**
     * `undo`: when the cursor is not before the list, hands back the event
     * under it and steps back; otherwise hands back nothing. The event is
     * read without an upper bound check, so the cursor must not be past
     * the end.
     */
    method Undo() returns (r: Option<CanvasEvent>)
      requires Valid() && currentIndex < |events|
      modifies this
      ensures Valid()
      ensures events == old(events)
      ensures old(currentIndex) >= 0 ==> r == Some(old(events)[old(currentIndex)]) && currentIndex == old(currentIndex) - 1
      ensures old(currentIndex) < 0 ==> r == None && currentIndex == old(currentIndex)
    {
      if currentIndex >= 0 {
        r := Some(events[currentIndex]);
        currentIndex := currentIndex - 1;
      } else {
        r := None;
      }
    }

    /** `redo`: when an event follows the cursor, steps forward and hands it back; otherwise nothing. */
    method Redo() returns (r: Option<CanvasEvent>)
      requires Valid()
      modifies this
      ensures Valid()
      ensures events == old(events)
      ensures old(currentIndex) + 1 < |events| ==>
        0 <= currentIndex && currentIndex == old(currentIndex) + 1 && r == Some(events[currentIndex])
      ensures old(currentIndex) + 1 >= |events| ==> r == None && currentIndex == old(currentIndex)
    {
      if currentIndex + 1 < |events| {
        currentIndex := currentIndex + 1;
        r := Some(events[currentIndex]);
      } else {
        r := None;
      }
    }
  }
}
