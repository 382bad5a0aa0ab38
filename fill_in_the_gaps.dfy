/**
 * The fill-in-the-gaps exercise: a text template with gap markers, the
 * correct word for each gap, the word chips offered, and the learner's
 * progress (filled words, the order chips were clicked, a fill cursor).
 */
module FillInTheGaps {
  import opened Wrappers
  import opened Text
  import Containers

  // ---------------------------------------------------------------- judging the answer

  /** Every gap holds its correct word, ignoring case, and there are no extra words. */
  predicate WordsMatch(correctWords: seq<string>, given: seq<string>)
  {
    |given| == |correctWords| &&
    forall i :: 0 <= i < |correctWords| ==> EqualsIgnoreCase(correctWords[i], given[i])
  }

  /** The chips clicked, read through the word options, spell the correct words. */
  predicate ClickOrderMatches(correctWords: seq<string>, wordOptions: seq<string>, clicks: seq<int>)
  {
    |clicks| == |correctWords| &&
    forall i :: 0 <= i < |correctWords| ==>
      0 <= clicks[i] < |wordOptions| && EqualsIgnoreCase(correctWords[i], wordOptions[clicks[i]])
  }

  // ---------------------------------------------------------------- display text

  /** The numbered gap marker "{n}". */
  function Marker(n: int): string { "{" + IntToString(n) + "}" }

  /** A template is numbered when it mentions "{0}" or "{1}"; it then counts from 0 or 1. */
  predicate IsNumbered(template: string) { Contains(template, "{0}") || Contains(template, "{1}") }

  function FirstNumber(template: string): int { if Contains(template, "{0}") then 0 else 1 }

  /** Replaces marker {k + offset} by replacements[k] for k = i, i+1, ..., one after the other. */
  function ReplaceNumbered(text: string, replacements: seq<string>, i: nat, offset: int): string
    decreases |replacements| - i
  {
    if i >= |replacements| then text
    else ReplaceNumbered(ReplaceAll(text, Marker(i + offset), replacements[i]), replacements, i + 1, offset)
  }

  /** Replaces the first "{}" by each word in turn. */
  function FillSimple(text: string, words: seq<string>): string
    decreases |words|
  {
    if |words| == 0 then text else FillSimple(ReplaceFirst(text, "{}", words[0]), words[1..])
  }

  function Bracketed(words: seq<string>): (r: seq<string>)
    ensures |r| == |words| && forall i :: 0 <= i < |words| ==> r[i] == "[" + words[i] + "]"
  {
    seq(|words|, i requires 0 <= i < |words| => "[" + words[i] + "]")
  }

  /** What each gap shows in the placeholder view: "[word]" once filled, the placeholder before. */
  function GapTexts(correctWords: seq<string>, filled: seq<string>, placeholder: string): (r: seq<string>)
    ensures |r| == |correctWords|
    ensures forall i :: 0 <= i < |r| ==> r[i] == (if i < |filled| then "[" + filled[i] + "]" else placeholder)
  {
    seq(|correctWords|, i requires 0 <= i < |correctWords| =>
      if i < |filled| then "[" + filled[i] + "]" else placeholder)
  }

  /** The text shown while the exercise is played, unfilled gaps shown as `placeholder`. */
  function PlaceholderView(template: string, correctWords: seq<string>, filled: seq<string>, placeholder: string): string
  {
    if IsNumbered(template) then
      ReplaceNumbered(template, GapTexts(correctWords, filled, placeholder), 0, FirstNumber(template))
    else
      ReplaceAll(FillSimple(template, Bracketed(filled)), "{}", placeholder)
  }

  /** The text with the filled words in place and every other marker left as written. */
  function FilledView(template: string, filled: seq<string>): string
  {
    if IsNumbered(template) then ReplaceNumbered(template, filled, 0, FirstNumber(template))
    else FillSimple(template, filled)
  }

  // ---------------------------------------------------------------- the exercise

  class GapExercise {
    const id: int
    var textTemplate: string
    var correctWords: seq<string>
    var wordOptions: seq<string>
    var userFilledWords: seq<string>
    /** Indices into wordOptions, one per chip click. */
    var userClickOrder: seq<int>
    var currentGapIndex: int
    var userSelectedWordIndex: int

    /** The cursor is the number of filled words; only chip fills record a click. */
    ghost predicate Valid()
      reads this
    {
      currentGapIndex == |userFilledWords| && |userClickOrder| <= |userFilledWords|
    }

    /** This exercise's fields as a value. */
    function Value(): Containers.Gaps
      reads this
    {
      Containers.Gaps(textTemplate, correctWords, wordOptions,
        userFilledWords, userClickOrder, currentGapIndex, userSelectedWordIndex)
    }

    /** A new exercise has empty lists and its cursor at 0; "" stands for the template the source leaves null until set. */
    constructor (id: int)
      ensures Valid() && this.id == id
      ensures Value() == Containers.Gaps("", [], [], [], [], 0, -1)
    {
      this.id := id;
      textTemplate := "";
      correctWords := [];
      wordOptions := [];
      userFilledWords := [];
      userClickOrder := [];
      currentGapIndex := 0;
      userSelectedWordIndex := -1;
    }

    method SetTextTemplate(t: string)
      requires Valid()
      modifies this
      ensures Valid() && Value() == old(Value()).(textTemplate := t)
    {
      textTemplate := t;
    }

    method SetCorrectWords(words: seq<string>)
      requires Valid()
      modifies this
      ensures Valid() && Value() == old(Value()).(correctWords := words)
    {
      correctWords := words;
    }

    method SetWordOptions(words: seq<string>)
      requires Valid()
      modifies this
      ensures Valid() && Value() == old(Value()).(wordOptions := words)
    {
      wordOptions := words;
    }

    method SetUserSelectedWordIndex(k: int)
      requires Valid()
      modifies this
      ensures Valid() && Value() == old(Value()).(userSelectedWordIndex := k)
    {
      userSelectedWordIndex := k;
    }

    /** Puts `word` into the next gap, if a gap is left; no click is recorded. */
    method FillGap(word: string)
      requires Valid()
      modifies this
      ensures Valid()
      ensures old(currentGapIndex) < |correctWords| ==>
        Value() == old(Value()).(userFilledWords := old(userFilledWords) + [word],
                                     currentGapIndex := old(currentGapIndex) + 1)
      ensures old(currentGapIndex) >= |correctWords| ==> Value() == old(Value())
    {
      if currentGapIndex < |correctWords| {
        userFilledWords := userFilledWords + [word];
        currentGapIndex := currentGapIndex + 1;
      }
    }

    /**
     * Puts the chip wordOptions[k] into the next gap and records the click;
     * succeeds exactly when a gap is left and k names a chip.
     */
    method FillGapWithIndex(k: int) returns (filled: bool)
      requires Valid()
      modifies this
      ensures Valid()
      ensures filled <==> old(currentGapIndex) < |correctWords| && 0 <= k < |wordOptions|
      ensures filled ==>
        Value() == old(Value()).(userFilledWords := old(userFilledWords) + [wordOptions[k]],
                                     userClickOrder := old(userClickOrder) + [k],
                                     currentGapIndex := old(currentGapIndex) + 1)
      ensures !filled ==> Value() == old(Value())
    {
      if currentGapIndex < |correctWords| && 0 <= k < |wordOptions| {
        userFilledWords := userFilledWords + [wordOptions[k]];
        userClickOrder := userClickOrder + [k];
        currentGapIndex := currentGapIndex + 1;
        return true;
      }
      return false;
    }

    /** Undoes the last fill: drops the last word and the last click, if any. */
    method RemoveLastFilledWord()
      requires Valid()
      modifies this
      ensures Valid()
      ensures old(userFilledWords) == [] ==> Value() == old(Value())
      ensures old(userFilledWords) != [] ==>
        Value() == old(Value()).(
          userFilledWords := old(userFilledWords)[..|old(userFilledWords)| - 1],
          userClickOrder := if old(userClickOrder) == [] then [] else old(userClickOrder)[..|old(userClickOrder)| - 1],
          currentGapIndex := old(currentGapIndex) - 1)
    {
      if |userFilledWords| > 0 {
        userFilledWords := userFilledWords[..|userFilledWords| - 1];
        if |userClickOrder| > 0 {
          userClickOrder := userClickOrder[..|userClickOrder| - 1];
        }
        currentGapIndex := currentGapIndex - 1;
      }
    }

    /** Empties gap g and gives its word back as a new chip at the end of the options. */
    method RemoveFilledWord(g: int)
      requires Valid()
      modifies this
      ensures Valid()
      ensures 0 <= g < |old(userFilledWords)| ==>
        Value() == old(Value()).(userFilledWords := old(userFilledWords)[g := ""],
                                     wordOptions := old(wordOptions) + [old(userFilledWords)[g]])
      ensures !(0 <= g < |old(userFilledWords)|) ==> Value() == old(Value())
    {
      if 0 <= g < |userFilledWords| {
        var removed := userFilledWords[g];
        userFilledWords := userFilledWords[g := ""];
        wordOptions := wordOptions + [removed];
      }
    }

    /** Whether the chips were clicked in the order that spells the correct words. */
    method IsClickOrderCorrect() returns (r: bool)
      ensures r == ClickOrderMatches(correctWords, wordOptions, userClickOrder)
    {
      if |userClickOrder| != |correctWords| {
        return false;
      }
      var i := 0;
      while i < |correctWords|
        invariant 0 <= i <= |correctWords|
        invariant forall j :: 0 <= j < i ==>
          0 <= userClickOrder[j] < |wordOptions| && EqualsIgnoreCase(correctWords[j], wordOptions[userClickOrder[j]])
      {
        var clicked := userClickOrder[i];
        if clicked < 0 || clicked >= |wordOptions| {
          return false;
        }
        if !EqualsIgnoreCase(correctWords[i], wordOptions[clicked]) {
          return false;
        }
        i := i + 1;
      }
      return true;
    }

    /** Whether the cursor has passed the last gap. */
    function IsAllGapsFilled(): (r: bool)
      reads this
      ensures Valid() ==> (r <==> |userFilledWords| >= |correctWords|)
    {
      currentGapIndex >= |correctWords|
    }

    /** Whether every gap holds its correct word, ignoring case. */
    method IsCorrect() returns (r: bool)
      ensures r == WordsMatch(correctWords, userFilledWords)
    {
      if |userFilledWords| != |correctWords| {
        return false;
      }
      var i := 0;
      while i < |correctWords|
        invariant 0 <= i <= |correctWords|
        invariant forall j :: 0 <= j < i ==> EqualsIgnoreCase(correctWords[j], userFilledWords[j])
      {
        if !EqualsIgnoreCase(correctWords[i], userFilledWords[i]) {
          return false;
        }
        i := i + 1;
      }
      return true;
    }

    /** The template with filled gaps as "[word]" and the others as `placeholder`. */
    method GetDisplayTextWithPlaceholder(placeholder: string) returns (text: string)
      ensures text == PlaceholderView(textTemplate, correctWords, userFilledWords, placeholder)
    {
      text := textTemplate;
      var hasZeroBased := Contains(textTemplate, "{0}");
      var hasOneBased := Contains(textTemplate, "{1}");
      if hasZeroBased || hasOneBased {
        var offset := if hasZeroBased then 0 else 1;
        ghost var gaps := GapTexts(correctWords, userFilledWords, placeholder);
        var i := 0;
        while i < |correctWords|
          invariant 0 <= i <= |correctWords|
          invariant ReplaceNumbered(text, gaps, i, offset) == PlaceholderView(textTemplate, correctWords, userFilledWords, placeholder)
        {
          var marker := "{" + IntToString(i + offset) + "}";
          if i < |userFilledWords| {
            text := ReplaceAll(text, marker, "[" + userFilledWords[i] + "]");
          } else {
            text := ReplaceAll(text, marker, placeholder);
          }
          i := i + 1;
        }
      } else {
        ghost var words := Bracketed(userFilledWords);
        var i := 0;
        while i < |userFilledWords|
          invariant 0 <= i <= |userFilledWords|
          invariant FillSimple(text, words[i..]) == FillSimple(textTemplate, words)
        {
          text := ReplaceFirst(text, "{}", "[" + userFilledWords[i] + "]");
          assert words[i..][1..] == words[i + 1..];
          i := i + 1;
        }
        text := ReplaceAll(text, "{}", placeholder);
      }
    }

    /** The template with the filled words in place, other markers left as written. */
    method GetDisplayText() returns (text: string)
      ensures text == FilledView(textTemplate, userFilledWords)
    {
      text := textTemplate;
      var hasZeroBased := Contains(textTemplate, "{0}");
      var hasOneBased := Contains(textTemplate, "{1}");
      if hasZeroBased || hasOneBased {
        var offset := if hasZeroBased then 0 else 1;
        var i := 0;
        while i < |userFilledWords|
          invariant 0 <= i <= |userFilledWords|
          invariant ReplaceNumbered(text, userFilledWords, i, offset) == FilledView(textTemplate, userFilledWords)
        {
          var marker := "{" + IntToString(i + offset) + "}";
          text := ReplaceAll(text, marker, userFilledWords[i]);
          i := i + 1;
        }
      } else {
        var i := 0;
        while i < |userFilledWords|
          invariant 0 <= i <= |userFilledWords|
          invariant FillSimple(text, userFilledWords[i..]) == FilledView(textTemplate, userFilledWords)
        {
          text := ReplaceFirst(text, "{}", userFilledWords[i]);
          assert userFilledWords[i..][1..] == userFilledWords[i + 1..];
          i := i + 1;
        }
      }
    }
  }
}
