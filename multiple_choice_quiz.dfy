/**
 * The multiple-choice quiz: a question, its options, the indices of the
 * correct options, and the learner's selection. The selection never holds
 * an index twice; in single-answer mode a new choice replaces the old one.
 */
module MultipleChoiceQuiz {
  import opened Wrappers
  import Containers

  /** No index occurs twice. */
  predicate NoDuplicates(s: seq<int>)
  {
    forall k | k in multiset(s) :: multiset(s)[k] <= 1
  }

  /** The indices a list holds. */
  function Elements(s: seq<int>): set<int> { set k | k in s }

  /** The selection after choosing x: single-answer mode clears it first; x is added unless already there. */
  function Added(selection: seq<int>, allowMultiple: bool, x: int): (r: seq<int>)
    ensures NoDuplicates(selection) ==> NoDuplicates(r)
    ensures x in r
    ensures !allowMultiple ==> r == [x]
    ensures allowMultiple ==> Elements(r) == Elements(selection) + {x}
    ensures allowMultiple && x in selection ==> r == selection
  {
    var kept := if allowMultiple then selection else [];
    if x in kept then kept else kept + [x]
  }

  /** List.remove(Integer.valueOf(x)): the first occurrence of x is dropped, if any. */
  function RemovedFirst(s: seq<int>, x: int): (r: seq<int>)
    ensures x !in s ==> r == s
    ensures multiset(r) == multiset(s) - multiset{x}
    decreases |s|
  {
    if |s| == 0 then s
    else
      assert s == [s[0]] + s[1..];
      if s[0] == x then s[1..] else [s[0]] + RemovedFirst(s[1..], x)
  }

  /** Removing x from a list whose first x sits at i keeps what is before and after position i. */
  lemma {:induction false} RemovedFirstAt(s: seq<int>, x: int, i: int)
    requires 0 <= i < |s| && s[i] == x && x !in s[..i]
    ensures RemovedFirst(s, x) == s[..i] + s[i + 1..]
    decreases i
  {
    if i == 0 {
      assert RemovedFirst(s, x) == s[1..];
    } else {
      var t := s[1..];
      assert s[0] != x by { assert s[..i][0] == s[0]; }
      assert x !in t[..i - 1] by { assert t[..i - 1] == s[..i][1..]; }
      RemovedFirstAt(t, x, i - 1);
      assert RemovedFirst(s, x) == [s[0]] + RemovedFirst(t, x);
      assert s[..i] == [s[0]] + t[..i - 1];
      assert s[i + 1..] == t[i..];
    }
  }

  /** Exactly the first occurrence of x goes; the entries before and after it keep their order. */
  lemma {:induction false} RemovedFirstPosition(s: seq<int>, x: int)
    ensures x in s ==> exists i :: 0 <= i < |s| && s[i] == x && x !in s[..i] && RemovedFirst(s, x) == s[..i] + s[i + 1..]
    decreases |s|
  {
    if x in s {
      var i := 0;
      while s[i] != x
        invariant 0 <= i < |s| && x !in s[..i] && x in s[i..]
        decreases |s| - i
      {
        assert s[..i + 1] == s[..i] + [s[i]];
        assert s[i..] == [s[i]] + s[i + 1..];
        i := i + 1;
      }
      RemovedFirstAt(s, x, i);
    }
  }

  /** Dropping an element from a duplicate-free selection leaves it duplicate-free and without x. */
  lemma {:induction false} RemovedFirstNoDuplicates(s: seq<int>, x: int)
    requires NoDuplicates(s)
    ensures NoDuplicates(RemovedFirst(s, x)) && x !in RemovedFirst(s, x)
  {
    var r := RemovedFirst(s, x);
    assert forall k :: multiset(r)[k] <= multiset(s)[k];
    assert multiset(r)[x] == 0;
  }

  /** In multiple-answer mode, choosing a new option and then removing it again restores the selection. */
  lemma {:induction false} AddThenRemove(selection: seq<int>, x: int)
    requires x !in selection
    ensures RemovedFirst(Added(selection, true, x), x) == selection
  {
    assert Added(selection, true, x) == selection + [x];
    RemovedFirstAppended(selection, x);
  }

  lemma {:induction false} RemovedFirstAppended(s: seq<int>, x: int)
    requires x !in s
    ensures RemovedFirst(s + [x], x) == s
    decreases |s|
  {
    if |s| > 0 {
      var t := s + [x];
      assert t[0] == s[0] != x && t[1..] == s[1..] + [x];
      RemovedFirstAppended(s[1..], x) by {
        assert x !in s[1..];
      }
      calc {
        RemovedFirst(t, x);
        [t[0]] + RemovedFirst(t[1..], x);
        [s[0]] + s[1..];
        s;
      }
    } else {
      assert s + [x] == [x];
    }
  }

  /**
   * ContainerMultipleChoiceQuiz.isCorrect: as many selected as correct
   * indices, and every selected index among the correct ones.
   */
  predicate Graded(selection: seq<int>, correct: seq<int>)
  {
    |selection| == |correct| && forall i :: 0 <= i < |selection| ==> selection[i] in correct
  }

  lemma {:induction false} ElementsCount(s: seq<int>)
    requires NoDuplicates(s)
    ensures |Elements(s)| == |s|
    decreases |s|
  {
    if |s| > 0 {
      NoDuplicatesTail(s);
      ElementsCount(s[1..]);
      assert Elements(s) == {s[0]} + Elements(s[1..]);
    }
  }

  lemma {:induction false} NoDuplicatesTail(s: seq<int>)
    requires NoDuplicates(s) && |s| > 0
    ensures NoDuplicates(s[1..]) && s[0] !in Elements(s[1..])
  {
    var x := s[0];
    assert x in multiset(s);
    assert multiset(s)[x] <= 1;
    assert s == [x] + s[1..];
    var m := multiset(s[1..]);
    assert multiset(s) == multiset{x} + m;
    assert m[x] == 0;
    assert forall k | k in m :: m[k] <= multiset(s)[k];
  }

  lemma {:induction false} ElementsCountAtMost(s: seq<int>)
    ensures |Elements(s)| <= |s|
    decreases |s|
  {
    if |s| > 0 {
      ElementsCountAtMost(s[1..]);
      assert Elements(s) == {s[0]} + Elements(s[1..]);
    }
  }

  /**
   * With a duplicate-free selection, the answer is graded correct exactly
   * when the correct indices are duplicate-free and the selection holds
   * the same indices as they do.
   */
  lemma {:induction false} GradedIffSameIndices(selection: seq<int>, correct: seq<int>)
    requires NoDuplicates(selection)
    ensures Graded(selection, correct) <==>
      NoDuplicates(correct) && Elements(selection) == Elements(correct)
  {
    ElementsCount(selection);
    ElementsCountAtMost(correct);
    if Graded(selection, correct) {
      assert Elements(selection) <= Elements(correct);
      assert |Elements(correct)| <= |correct| == |selection|;
      assert Elements(selection) == Elements(correct) by {
        SubsetSameSize(Elements(selection), Elements(correct));
      }
      if !NoDuplicates(correct) {
        var k :| k in multiset(correct) && multiset(correct)[k] > 1;
        FewerElements(correct, k);
        assert false;
      }
    }
    if NoDuplicates(correct) && Elements(selection) == Elements(correct) {
      ElementsCount(correct);
      assert forall i :: 0 <= i < |selection| ==> selection[i] in Elements(correct);
    }
  }

  lemma {:induction false} SubsetSameSize(a: set<int>, b: set<int>)
    requires a <= b && |b| <= |a|
    ensures a == b
  {
    assert b == a + (b - a);
    assert a * (b - a) == {};
    assert |b - a| == 0;
  }

  /** A sequence with a repeated element has fewer distinct elements than positions. */
  lemma {:induction false} FewerElements(s: seq<int>, k: int)
    requires multiset(s)[k] > 1
    ensures |Elements(s)| < |s|
    decreases |s|
  {
    assert s == [s[0]] + s[1..];
    assert multiset(s) == multiset{s[0]} + multiset(s[1..]);
    assert Elements(s) == {s[0]} + Elements(s[1..]);
    if s[0] == k {
      assert k in multiset(s[1..]);
      assert Elements(s) == Elements(s[1..]);
      ElementsCountAtMost(s[1..]);
    } else {
      FewerElements(s[1..], k);
    }
  }

  class MultipleChoiceQuiz {
    const id: int
    var question: string
    var options: seq<string>
    var correctAnswerIndices: seq<int>
    var allowMultipleAnswers: bool
    var explanationText: Option<string>
    var userSelectedIndices: seq<int>

    /** The selection holds every index at most once. */
    ghost predicate Valid()
      reads this
    {
      NoDuplicates(userSelectedIndices)
    }

    /** This quiz's fields as a value. */
    function Value(): Containers.ChoiceQuiz
      reads this
    {
      Containers.ChoiceQuiz(question, options, correctAnswerIndices, allowMultipleAnswers,
        explanationText, userSelectedIndices)
    }

    /** A new quiz has empty lists in single-answer mode; "" stands for the question the source leaves null until set. */
    constructor (id: int)
      ensures Valid() && this.id == id
      ensures Value() == Containers.ChoiceQuiz("", [], [], false, None, [])
    {
      this.id := id;
      question := "";
      options := [];
      correctAnswerIndices := [];
      allowMultipleAnswers := false;
      explanationText := None;
      userSelectedIndices := [];
    }

    method SetQuestion(q: string)
      requires Valid()
      modifies this
      ensures Valid() && Value() == old(Value()).(question := q)
    {
      question := q;
    }

    method SetOptions(os: seq<string>)
      requires Valid()
      modifies this
      ensures Valid() && Value() == old(Value()).(options := os)
    {
      options := os;
    }

    method SetCorrectAnswerIndices(indices: seq<int>)
      requires Valid()
      modifies this
      ensures Valid() && Value() == old(Value()).(correctAnswerIndices := indices)
    {
      correctAnswerIndices := indices;
    }

    method SetAllowMultipleAnswers(allow: bool)
      requires Valid()
      modifies this
      ensures Valid() && Value() == old(Value()).(allowMultipleAnswers := allow)
    {
      allowMultipleAnswers := allow;
    }

    method SetExplanationText(text: Option<string>)
      requires Valid()
      modifies this
      ensures Valid() && Value() == old(Value()).(explanationText := text)
    {
      explanationText := text;
    }

    /** Selects option `index`; in single-answer mode it replaces the previous choice. */
    method AddUserSelectedIndex(index: int)
      requires Valid()
      modifies this
      ensures Valid()
      ensures Value() == old(Value()).(userSelectedIndices := Added(old(userSelectedIndices), allowMultipleAnswers, index))
    {
      if !allowMultipleAnswers {
        userSelectedIndices := [];
      }
      if index !in userSelectedIndices {
        userSelectedIndices := userSelectedIndices + [index];
      }
    }

    /** Deselects option `index`, if it is selected. */
    method RemoveUserSelectedIndex(index: int)
      requires Valid()
      modifies this
      ensures Valid() && index !in userSelectedIndices
      ensures Value() == old(Value()).(userSelectedIndices := RemovedFirst(old(userSelectedIndices), index))
    {
      RemovedFirstNoDuplicates(userSelectedIndices, index);
      userSelectedIndices := RemovedFirst(userSelectedIndices, index);
    }

    method IsCorrect() returns (r: bool)
      ensures r == Graded(userSelectedIndices, correctAnswerIndices)
    {
      r := |userSelectedIndices| == |correctAnswerIndices| &&
        forall i :: 0 <= i < |userSelectedIndices| ==> userSelectedIndices[i] in correctAnswerIndices;
    }
  }
}
