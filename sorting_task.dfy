/**
 * The sorting task: the learner rearranges a list of items, by swapping
 * two of them or by moving one to another position, until it reads in
 * the correct order. Both moves only rearrange, so the current order is
 * always a permutation of the correct one.
 */
module SortingTask {
  import Containers

  /** The list with the items at i and j exchanged; unchanged unless both are positions of it. */
  function Swapped(s: seq<string>, i: int, j: int): (r: seq<string>)
    ensures |r| == |s|
  {
    if 0 <= i < |s| && 0 <= j < |s| then s[i := s[j]][j := s[i]] else s
  }

  /**
   * The list with the item at `from` taken out and reinserted at `to`
   * (List.remove then List.add); unchanged unless both are positions of it.
   */
  function Moved(s: seq<string>, from: int, to: int): (r: seq<string>)
    ensures |r| == |s|
  {
    if 0 <= from < |s| && 0 <= to < |s| then
      var rest := s[..from] + s[from + 1..];
      rest[..to] + [s[from]] + rest[to..]
    else s
  }

  /** A swap only rearranges the items. */
  lemma {:induction false} SwappedPermutes(s: seq<string>, i: int, j: int)
    ensures multiset(Swapped(s, i, j)) == multiset(s)
  {
    if 0 <= i < |s| && 0 <= j < |s| {
      var t := s[i := s[j]];
      assert multiset(t) == multiset(s) - multiset{s[i]} + multiset{s[j]};
      assert multiset(t[j := s[i]]) == multiset(t) - multiset{t[j]} + multiset{s[i]};
    }
  }

  /** Swapping the same two positions again restores the list. */
  lemma {:induction false} SwappedTwice(s: seq<string>, i: int, j: int)
    ensures Swapped(Swapped(s, i, j), i, j) == s
  {
    if 0 <= i < |s| && 0 <= j < |s| {
      var t := Swapped(s, i, j);
      assert t[i] == s[j] && t[j] == s[i];
      assert Swapped(t, i, j) == s by {
        assert forall k :: 0 <= k < |s| ==> Swapped(t, i, j)[k] == s[k];
      }
    }
  }

  /** A move only rearranges the items. */
  lemma {:induction false} MovedPermutes(s: seq<string>, from: int, to: int)
    ensures multiset(Moved(s, from, to)) == multiset(s)
  {
    if 0 <= from < |s| && 0 <= to < |s| {
      var rest := s[..from] + s[from + 1..];
      assert s == s[..from] + [s[from]] + s[from + 1..];
      assert multiset(rest) + multiset{s[from]} == multiset(s);
      assert rest == rest[..to] + rest[to..];
      assert multiset(Moved(s, from, to)) == multiset(rest[..to]) + multiset{s[from]} + multiset(rest[to..]);
    }
  }

  /**
   * After a move the item sits at `to`, and taking it out again leaves the
   * other items in the order they had.
   */
  lemma {:induction false} MovedPlaces(s: seq<string>, from: int, to: int)
    requires 0 <= from < |s| && 0 <= to < |s|
    ensures Moved(s, from, to)[to] == s[from]
    ensures Moved(s, from, to)[..to] + Moved(s, from, to)[to + 1..] == s[..from] + s[from + 1..]
  {
    var rest := s[..from] + s[from + 1..];
    var r := Moved(s, from, to);
    assert r == rest[..to] + [s[from]] + rest[to..];
    assert r[..to] == rest[..to];
    assert r[to + 1..] == rest[to..];
    assert rest[..to] + rest[to..] == rest;
  }

  /** Moving the item back from `to` to `from` restores the list. */
  lemma {:induction false} MovedBack(s: seq<string>, from: int, to: int)
    ensures Moved(Moved(s, from, to), to, from) == s
  {
    if 0 <= from < |s| && 0 <= to < |s| {
      var r := Moved(s, from, to);
      MovedPlaces(s, from, to);
      var rest := r[..to] + r[to + 1..];
      assert Moved(r, to, from) == rest[..from] + [s[from]] + rest[from..];
      assert rest == s[..from] + s[from + 1..];
      assert rest[..from] == s[..from];
      assert rest[from..] == s[from + 1..];
      assert s == s[..from] + [s[from]] + s[from + 1..];
    }
  }

  class SortingTask {
    const id: int
    var instructions: string
    var correctOrder: seq<string>
    /** The learner's current arrangement. */
    var currentOrder: seq<string>

    /** The learner's arrangement holds exactly the items of the correct order. */
    ghost predicate Valid()
      reads this
    {
      multiset(currentOrder) == multiset(correctOrder)
    }

    /** This task's fields as a value. */
    function Value(): Containers.Sorting
      reads this
    {
      Containers.Sorting(instructions, correctOrder, currentOrder)
    }

    /** A new task has empty orders; "" stands for the instructions the source leaves null until set. */
    constructor (id: int)
      ensures Valid() && this.id == id
      ensures Value() == Containers.Sorting("", [], [])
    {
      this.id := id;
      instructions := "";
      correctOrder := [];
      currentOrder := [];
    }

    method SetInstructions(text: string)
      requires Valid()
      modifies this
      ensures Valid() && Value() == old(Value()).(instructions := text)
    {
      instructions := text;
    }

    /** Sets the correct order; the learner starts from a copy of it. */
    method SetCorrectOrder(order: seq<string>)
      modifies this
      ensures Valid() && Value() == old(Value()).(correctOrder := order, currentOrder := order)
    {
      correctOrder := order;
      currentOrder := order;
    }

    /** Exchanges two items of the current order when both positions exist. */
    method SwapItems(from: int, to: int)
      requires Valid()
      modifies this
      ensures Valid() && Value() == old(Value()).(currentOrder := Swapped(old(currentOrder), from, to))
    {
      SwappedPermutes(currentOrder, from, to);
      if 0 <= from < |currentOrder| && 0 <= to < |currentOrder| {
        var temp := currentOrder[from];
        currentOrder := currentOrder[from := currentOrder[to]];
        currentOrder := currentOrder[to := temp];
      }
    }

    /** Takes the item at `from` out and reinserts it at `to` when both positions exist. */
    method MoveItem(from: int, to: int)
      requires Valid()
      modifies this
      ensures Valid() && Value() == old(Value()).(currentOrder := Moved(old(currentOrder), from, to))
    {
      MovedPermutes(currentOrder, from, to);
      if 0 <= from < |currentOrder| && 0 <= to < |currentOrder| {
        var item := currentOrder[from];
        currentOrder := currentOrder[..from] + currentOrder[from + 1..];
        currentOrder := currentOrder[..to] + [item] + currentOrder[to..];
      }
    }

    /** Whether the learner's arrangement is the correct order, item by item. */
    method IsCorrect() returns (r: bool)
      ensures r <==> currentOrder == correctOrder
    {
      if |currentOrder| != |correctOrder| {
        return false;
      }
      var i := 0;
      while i < |correctOrder|
        invariant 0 <= i <= |correctOrder|
        invariant currentOrder[..i] == correctOrder[..i]
      {
        if correctOrder[i] != currentOrder[i] {
          return false;
        }
        i := i + 1;
      }
      assert currentOrder == currentOrder[..i] && correctOrder == correctOrder[..i];
      return true;
    }
  }
}
