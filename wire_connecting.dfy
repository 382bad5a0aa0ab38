/**
 * The wire-connecting task: left items are matched to right items, and
 * correctMatches maps a left index to the index of its right partner.
 * With no wires drawn, an arrangement is judged by position: the right
 * item shown at position i must be the partner of left item i.
 */
module WireConnecting {
  import Containers

  function Min(a: int, b: int): int { if a <= b then a else b }

  /**
   * ContainerWireConnecting.isCorrect: for every position i shown on both
   * sides that has a required match, the match is a right position and the
   * right item at i equals the item at that position. Positions without a
   * required match are skipped.
   */
  predicate Matched(leftItems: seq<string>, rightItems: seq<string>, correctMatches: map<int, int>)
  {
    forall i :: 0 <= i < Min(|leftItems|, |rightItems|) && i in correctMatches ==>
      0 <= correctMatches[i] < |rightItems| && rightItems[i] == rightItems[correctMatches[i]]
  }

  predicate Distinct(s: seq<string>)
  {
    forall i, j :: 0 <= i < j < |s| ==> s[i] != s[j]
  }

  /**
   * When the right items are all different, the arrangement is correct
   * exactly when every required match on a shown position points at that
   * same position.
   */
  lemma {:induction false} MatchedIffIdentity(leftItems: seq<string>, rightItems: seq<string>, correctMatches: map<int, int>)
    requires Distinct(rightItems)
    ensures Matched(leftItems, rightItems, correctMatches) <==>
      forall i :: 0 <= i < Min(|leftItems|, |rightItems|) && i in correctMatches ==> correctMatches[i] == i
  {
    if Matched(leftItems, rightItems, correctMatches) {
      forall i | 0 <= i < Min(|leftItems|, |rightItems|) && i in correctMatches
        ensures correctMatches[i] == i
      {
        var j := correctMatches[i];
        assert 0 <= j < |rightItems| && rightItems[i] == rightItems[j];
      }
    }
  }

  class WireConnecting {
    const id: int
    var instructions: string
    var leftItems: seq<string>
    var rightItems: seq<string>
    /** Left index to right index. */
    var correctMatches: map<int, int>

    /** This task's fields as a value. */
    function Value(): Containers.Wiring
      reads this
    {
      Containers.Wiring(instructions, leftItems, rightItems, correctMatches)
    }

    /** A new exercise has empty lists and no matches; "" stands for the instructions the source leaves null until set. */
    constructor (id: int)
      ensures this.id == id && Value() == Containers.Wiring("", [], [], map[])
    {
      this.id := id;
      instructions := "";
      leftItems := [];
      rightItems := [];
      correctMatches := map[];
    }

    method SetInstructions(text: string)
      modifies this
      ensures Value() == old(Value()).(instructions := text)
    {
      instructions := text;
    }

    method SetLeftItems(items: seq<string>)
      modifies this
      ensures Value() == old(Value()).(leftItems := items)
    {
      leftItems := items;
    }

    method SetRightItems(items: seq<string>)
      modifies this
      ensures Value() == old(Value()).(rightItems := items)
    {
      rightItems := items;
    }

    method SetCorrectMatches(matches: map<int, int>)
      modifies this
      ensures Value() == old(Value()).(correctMatches := matches)
    {
      correctMatches := matches;
    }

    method IsCorrect() returns (r: bool)
      ensures r == Matched(leftItems, rightItems, correctMatches)
    {
      var i := 0;
      var shown := Min(|leftItems|, |rightItems|);
      while i < shown
        invariant 0 <= i <= shown
        invariant forall j :: 0 <= j < i && j in correctMatches ==>
          0 <= correctMatches[j] < |rightItems| && rightItems[j] == rightItems[correctMatches[j]]
      {
        if i in correctMatches {
          var expected := correctMatches[i];
          if expected < 0 || expected >= |rightItems| {
            return false;
          }
          if i >= |rightItems| || rightItems[i] != rightItems[expected] {
            return false;
          }
        }
        i := i + 1;
      }
      return true;
    }
  }
}
