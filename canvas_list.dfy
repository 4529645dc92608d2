/**
 * The row of canvas tabs: each tab has a name, a selection flag and the
 * canvas it shows. A click selects exactly one tab; a close button removes
 * one tab.
 */
module CanvasLists {
  import opened Results

  /** The canvas a tab shows; only the name it was created with is kept. */
  datatype Canvas = Canvas(title: string)

  datatype SelectableCanvas = SelectableCanvas(name: string, selected: bool, canvas: Canvas)

  /** `SelectableCanvas::new`: an unselected tab over a fresh canvas of the same name. */
  function NewSelectable(name: string): (e: SelectableCanvas)
    ensures e.name == name && !e.selected && e.canvas.title == name
  {
    SelectableCanvas(name, false, Canvas(name))
  }

  class CanvasList {
    var elements: seq<SelectableCanvas>

    /** `CanvasList::new`: the two tabs "Canvas 1" and "Canvas 2", neither selected. */
    constructor ()
      ensures elements == [NewSelectable("Canvas 1"), NewSelectable("Canvas 2")]
      ensures forall i :: 0 <= i < |elements| ==> !elements[i].selected
    {
      elements := [NewSelectable("Canvas 1"), NewSelectable("Canvas 2")];
    }

    /** `add_element`: appends a tab at the end. */
    method AddElement(element: SelectableCanvas)
      modifies this
      ensures elements == old(elements) + [element]
    {
      elements := elements + [element];
    }

    /** `unselect_all`: clears every selection flag, keeping the tabs and their order. */
    method UnselectAll()
      modifies this
      ensures |elements| == |old(elements)|
      ensures forall i :: 0 <= i < |elements| ==> elements[i] == old(elements)[i].(selected := false)
    {
      var i := 0;
      while i < |elements|
        invariant 0 <= i <= |elements| == |old(elements)|
        invariant forall j :: 0 <= j < i ==> elements[j] == old(elements)[j].(selected := false)
        invariant forall j :: i <= j < |elements| ==> elements[j] == old(elements)[j]
      {
        elements := elements[i := elements[i].(selected := false)];
        i := i + 1;
      }
    }

    /** `get_selected`: the canvas of the first selected tab, or nothing when no tab is selected. */
    method GetSelected() returns (r: Option<Canvas>)
      ensures r.None? <==> forall i :: 0 <= i < |elements| ==> !elements[i].selected
      ensures r.Some? ==>
        exists i :: FirstSelected(elements, i) && r.value == elements[i].canvas
    {
      var i := 0;
      while i < |elements|
        invariant 0 <= i <= |elements|
        invariant forall j :: 0 <= j < i ==> !elements[j].selected
      {
        if elements[i].selected {
          return Some(elements[i].canvas);
        }
        i := i + 1;
      }
      r := None;
    }

    /** The selection update after a click on tab `index`: that tab is selected and every other one is not. */
    method Select(index: nat)
      modifies this
      ensures |elements| == |old(elements)|
      ensures forall i :: 0 <= i < |elements| ==> elements[i] == old(elements)[i].(selected := i == index)
      ensures SingleSelection(elements)
      ensures index < |elements| ==> elements[index].selected
    {
      var i := 0;
      while i < |elements|
        invariant 0 <= i <= |elements| == |old(elements)|
        invariant forall j :: 0 <= j < i ==> elements[j] == old(elements)[j].(selected := j == index)
        invariant forall j :: i <= j < |elements| ==> elements[j] == old(elements)[j]
      {
        elements := elements[i := elements[i].(selected := i == index)];
        i := i + 1;
      }
    }

    /** The removal after a click on the close button of tab `index` (`Vec::remove`). */
    method Remove(index: nat)
      requires index < |elements|
      modifies this
      ensures elements == old(elements)[..index] + old(elements)[index + 1..]
    {
      elements := elements[..index] + elements[index + 1..];
    }
  }

  /** Tab `i` is the first selected tab. */
  predicate FirstSelected(es: seq<SelectableCanvas>, i: int)
  {
    0 <= i < |es| && es[i].selected && forall j :: 0 <= j < i ==> !es[j].selected
  }

  /** At most one tab is selected. */
  predicate SingleSelection(es: seq<SelectableCanvas>)
  {
    forall i, j :: 0 <= i < |es| && 0 <= j < |es| && es[i].selected && es[j].selected ==> i == j
  }

  /**
   * Removing a tab keeps every other tab, in the same order: tab j of the
   * result is tab j of the original before the removed one and tab j + 1
   * after it, and a single selection stays single.
   */
  lemma RemoveKeepsOthers(es: seq<SelectableCanvas>, index: nat)
    requires index < |es|
    ensures |es[..index] + es[index + 1..]| == |es| - 1
    ensures forall j :: 0 <= j < |es| - 1 ==>
      (es[..index] + es[index + 1..])[j] == if j < index then es[j] else es[j + 1]
    ensures SingleSelection(es) ==> SingleSelection(es[..index] + es[index + 1..])
  {
    var r := es[..index] + es[index + 1..];
    if SingleSelection(es) {
      forall i, j | 0 <= i < |r| && 0 <= j < |r| && r[i].selected && r[j].selected ensures i == j {
        var i' := if i < index then i else i + 1;
        var j' := if j < index then j else j + 1;
        assert r[i] == es[i'] && r[j] == es[j'];
      }
    }
  }
}
