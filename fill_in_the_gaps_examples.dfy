/**
 * The display texts of the repository's own fill-in-the-gaps test cases,
 * obtained as instances of the general theorems on well-formed templates.
 */
module FillInTheGapsExamples {
  import opened Text
  import opened FillInTheGaps
  import opened GapTemplates

  lemma {:induction false} SmallMarkers()
    ensures Markers(0, 2) == ["{0}", "{1}"]
    ensures Markers(1, 3) == ["{1}", "{2}", "{3}"]
  {
    assert Marker(0) == "{0}" by { assert NatToString(0) == "0"; }
    assert Marker(1) == "{1}" by { assert NatToString(1) == "1"; }
    assert Marker(2) == "{2}" by { assert NatToString(2) == "2"; }
    assert Marker(3) == "{3}" by { assert NatToString(3) == "3"; }
    assert Markers(0, 2) == [Marker(0), Marker(1)];
    assert Markers(1, 3) == [Marker(1), Marker(2), Marker(3)];
  }

  lemma {:induction false} Interleave2(a: string, b: string, c: string, x: string, y: string)
    ensures Interleave([a, b, c], [x, y]) == a + x + b + y + c
  {
    assert Interleave([b, c], [y]) == b + y + c by {
      assert Interleave([c], []) == c;
    }
  }

  lemma {:induction false} Interleave3(a: string, b: string, c: string, d: string, x: string, y: string, z: string)
    ensures Interleave([a, b, c, d], [x, y, z]) == a + x + b + y + c + z + d
  {
    Interleave2(b, c, d, y, z);
    assert [a, b, c, d][1..] == [b, c, d];
  }

  lemma {:induction false} Words()
    ensures AllBraceFree(["Java"]) && AllBraceFree(["The"]) && AllBraceFree(["Paris"]) && BraceFree("___")
  {
    assert BraceFree("Java") && BraceFree("The") && BraceFree("Paris");
  }

  lemma {:induction false} Frame2(mid: string, x: string, y: string)
    requires BraceFree(mid)
    ensures AllBraceFree(["", mid, ""]) && Interleave(["", mid, ""], [x, y]) == x + mid + y
  {
    Interleave2("", mid, "", x, y);
    assert "" + x + mid + y + "" == x + mid + y;
  }

  lemma {:induction false} Frame3(mid: string, mid': string, x: string, y: string, z: string)
    requires BraceFree(mid) && BraceFree(mid')
    ensures AllBraceFree(["", mid, mid', ""]) && Interleave(["", mid, mid', ""], [x, y, z]) == x + mid + y + mid' + z
  {
    Interleave3("", mid, mid', "", x, y, z);
    assert "" + x + mid + y + mid' + z + "" == x + mid + y + mid' + z;
  }

  /** With one of n gaps filled by w: "[w]" and then placeholders. */
  lemma {:induction false} FirstGapFilled(correctWords: seq<string>, w: string, rest: seq<string>)
    requires |correctWords| == |rest| + 1 && forall i :: 0 <= i < |rest| ==> rest[i] == "___"
    ensures GapTexts(correctWords, [w], "___") == ["[" + w + "]"] + rest
  {
  }

  // ---------------------------------------------------------------- "{0} is the {1}"

  /** "{0} is the {1}" with "Java" filled in, as the play view: "[Java] is the ___". */
  lemma {:induction false} ZeroBasedPlaceholder(mid: string)
    requires BraceFree(mid)
    ensures PlaceholderView("{0}" + mid + "{1}", ["Java", "best"], ["Java"], "___") == "[Java]" + mid + "___"
  {
    SmallMarkers();
    Words();
    Frame2(mid, "{0}", "{1}");
    PlaceholderViewShowsGaps("{0}" + mid + "{1}", ["", mid, ""], ZeroBased, ["Java", "best"], ["Java"], "___");
    FirstGapFilled(["Java", "best"], "Java", ["___"]);
    Frame2(mid, "[Java]", "___");
  }

  /** "{0} is the {1}" with "Java" filled in, as the finished view: "Java is the {1}". */
  lemma {:induction false} ZeroBasedFilled(mid: string)
    requires BraceFree(mid)
    ensures FilledView("{0}" + mid + "{1}", ["Java"]) == "Java" + mid + "{1}"
  {
    SmallMarkers();
    Words();
    Frame2(mid, "{0}", "{1}");
    FilledViewShowsWords("{0}" + mid + "{1}", ["", mid, ""], ZeroBased, 2, ["Java"]);
    assert ["Java"] + Markers(0, 2)[1..] == ["Java", "{1}"];
    Frame2(mid, "Java", "{1}");
  }

  // ---------------------------------------------------------------- "{1} is the {2} of the {3}"

  /** "{1} is the {2} of the {3}" with "The" filled in: "[The] is the ___ of the ___". */
  lemma {:induction false} OneBasedPlaceholder(mid: string, mid': string)
    requires BraceFree(mid) && BraceFree(mid')
    ensures PlaceholderView("{1}" + mid + "{2}" + mid' + "{3}", ["The", "king", "castle"], ["The"], "___")
         == "[The]" + mid + "___" + mid' + "___"
  {
    SmallMarkers();
    Words();
    Frame3(mid, mid', "{1}", "{2}", "{3}");
    PlaceholderViewShowsGaps("{1}" + mid + "{2}" + mid' + "{3}", ["", mid, mid', ""], OneBased,
                             ["The", "king", "castle"], ["The"], "___");
    FirstGapFilled(["The", "king", "castle"], "The", ["___", "___"]);
    Frame3(mid, mid', "[The]", "___", "___");
  }

  /** "{1} is the {2} of the {3}" with "The" filled in, finished view: "The is the {2} of the {3}". */
  lemma {:induction false} OneBasedFilled(mid: string, mid': string)
    requires BraceFree(mid) && BraceFree(mid')
    ensures FilledView("{1}" + mid + "{2}" + mid' + "{3}", ["The"]) == "The" + mid + "{2}" + mid' + "{3}"
  {
    SmallMarkers();
    Words();
    Frame3(mid, mid', "{1}", "{2}", "{3}");
    FilledViewShowsWords("{1}" + mid + "{2}" + mid' + "{3}", ["", mid, mid', ""], OneBased, 3, ["The"]);
    assert ["The"] + Markers(1, 3)[1..] == ["The", "{2}", "{3}"];
    Frame3(mid, mid', "The", "{2}", "{3}");
  }

  // ---------------------------------------------------------------- "{} is the {}"

  /** "{} is the {}" with "Paris" filled in: "[Paris] is the ___". */
  lemma {:induction false} UnnumberedPlaceholder(mid: string)
    requires BraceFree(mid)
    ensures PlaceholderView("{}" + mid + "{}", ["Paris", "capital"], ["Paris"], "___") == "[Paris]" + mid + "___"
  {
    Words();
    assert Empties(2) == ["{}", "{}"];
    Frame2(mid, "{}", "{}");
    PlaceholderViewShowsGaps("{}" + mid + "{}", ["", mid, ""], Unnumbered, ["Paris", "capital"], ["Paris"], "___");
    FirstGapFilled(["Paris", "capital"], "Paris", ["___"]);
    Frame2(mid, "[Paris]", "___");
  }

  /** "{} is the {}" with "Paris" filled in, finished view: "Paris is the {}". */
  lemma {:induction false} UnnumberedFilled(mid: string)
    requires BraceFree(mid)
    ensures FilledView("{}" + mid + "{}", ["Paris"]) == "Paris" + mid + "{}"
  {
    Words();
    assert Empties(2) == ["{}", "{}"];
    Frame2(mid, "{}", "{}");
    FilledViewShowsWords("{}" + mid + "{}", ["", mid, ""], Unnumbered, 2, ["Paris"]);
    assert ["Paris"] + Empties(2)[1..] == ["Paris", "{}"];
    Frame2(mid, "Paris", "{}");
  }
}
