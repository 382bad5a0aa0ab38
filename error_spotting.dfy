/**
 * The error-spotting task: the learner is shown a list of items and
 * picks the one that is wrong.
 */
module ErrorSpotting {
  import opened Wrappers
  import Containers

  class ErrorSpotting {
    const id: int
    var instructions: string
    var items: seq<string>
    var errorIndex: int
    var explanationText: Option<string>
    /** The item picked, or -1 before any pick. */
    var userSelectedIndex: int

    /** This task's fields as a value. */
    function Value(): Containers.ErrorSpotting
      reads this
    {
      Containers.ErrorSpotting(instructions, items, errorIndex, explanationText, userSelectedIndex)
    }

    /** The picked item is the wrong one. */
    function IsCorrect(): (r: bool)
      reads this
      ensures r <==> Value().userSelectedIndex == Value().errorIndex
      ensures userSelectedIndex == -1 ==> (r <==> errorIndex == -1)
      ensures r ==> (0 <= userSelectedIndex < |items| <==> 0 <= errorIndex < |items|)
    {
      userSelectedIndex == errorIndex
    }

    /**
     * A new task has nothing picked (-1) against an error index of 0, so it
     * is graded wrong; "" stands for the instructions the source leaves null
     * until set.
     */
    constructor (id: int)
      ensures this.id == id && Value() == Containers.ErrorSpotting("", [], 0, None, -1)
      ensures !IsCorrect()
    {
      this.id := id;
      instructions := "";
      items := [];
      errorIndex := 0;
      explanationText := None;
      userSelectedIndex := -1;
    }

    method SetInstructions(a: string)
      modifies this
      ensures Value() == old(Value()).(instructions := a)
    {
      instructions := a;
    }

    method SetItems(options: seq<string>)
      modifies this
      ensures Value() == old(Value()).(items := options)
    {
      items := options;
    }

    method SetErrorIndex(k: int)
      modifies this
      ensures Value() == old(Value()).(errorIndex := k)
    {
      errorIndex := k;
    }

    method SetExplanationText(text: Option<string>)
      modifies this
      ensures Value() == old(Value()).(explanationText := text)
    {
      explanationText := text;
    }

    /** Picks item k; the exercise is then graded correct exactly when k is the wrong item. */
    method SetUserSelectedIndex(k: int)
      modifies this
      ensures Value() == old(Value()).(userSelectedIndex := k)
      ensures IsCorrect() <==> k == errorIndex
    {
      userSelectedIndex := k;
    }
  }
}
