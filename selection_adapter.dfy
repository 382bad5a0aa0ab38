/**
 * SimpleTextAdapter's selection: the set of selected item positions of a
 * list shown to the learner, in single- or multiple-selection mode. The
 * list rendering is left out.
 */
module SelectionAdapter {
  import opened Wrappers

  /** The selection after toggling `position`: flipped in multiple mode, exactly {position} in single mode. */
  function Toggled(selected: set<int>, allowMultiple: bool, position: int): (r: set<int>)
    ensures !allowMultiple ==> r == {position}
    ensures allowMultiple ==> (position in r <==> position !in selected)
    ensures allowMultiple ==> forall p :: p != position ==> (p in r <==> p in selected)
  {
    if !allowMultiple then {position}
    else if position in selected then selected - {position} else selected + {position}
  }

  /** In multiple mode, toggling the same position twice restores the selection. */
  lemma {:induction false} ToggleTwice(selected: set<int>, position: int)
    ensures Toggled(Toggled(selected, true, position), true, position) == selected
  {
    var once := Toggled(selected, true, position);
    var twice := Toggled(once, true, position);
    assert forall p :: p in twice <==> p in selected;
  }

  class SimpleTextAdapter {
    const items: seq<string>
    var selectedIndices: set<int>
    var allowMultipleSelection: bool

    constructor (items: seq<string>, allowMultiple: bool)
      ensures this.items == items && selectedIndices == {} && allowMultipleSelection == allowMultiple
    {
      this.items := items;
      selectedIndices := {};
      allowMultipleSelection := allowMultiple;
    }

    method SetAllowMultipleSelection(allow: bool)
      modifies this
      ensures allowMultipleSelection == allow && selectedIndices == old(selectedIndices)
    {
      allowMultipleSelection := allow;
    }

    method ToggleSelection(position: int)
      modifies this
      ensures selectedIndices == Toggled(old(selectedIndices), allowMultipleSelection, position)
      ensures allowMultipleSelection == old(allowMultipleSelection)
    {
      if allowMultipleSelection {
        if position in selectedIndices {
          selectedIndices := selectedIndices - {position};
        } else {
          selectedIndices := selectedIndices + {position};
        }
      } else {
        selectedIndices := {};
        selectedIndices := selectedIndices + {position};
      }
    }

    /** Replaces the selection with the given set; null selects nothing. */
    method SetSelectedIndices(indices: Option<set<int>>)
      modifies this
      ensures selectedIndices == if indices.Some? then indices.value else {}
      ensures allowMultipleSelection == old(allowMultipleSelection)
    {
      selectedIndices := {};
      if indices.Some? {
        selectedIndices := selectedIndices + indices.value;
      }
    }

    /** A copy of the selection: a value, so later changes to either side do not reach the other. */
    method GetSelectedIndices() returns (r: set<int>)
      ensures r == selectedIndices
    {
      r := selectedIndices;
    }

    method ClearSelection()
      modifies this
      ensures selectedIndices == {} && allowMultipleSelection == old(allowMultipleSelection)
    {
      selectedIndices := {};
    }
  }
}
