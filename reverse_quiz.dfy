/**
 * The reverse quiz: the learner is shown an answer and picks, among
 * several questions, the one it answers.
 */
module ReverseQuiz {
  import opened Wrappers
  import Containers

  class ReverseQuiz {
    const id: int
    var answer: string
    var questionOptions: seq<string>
    var correctQuestionIndex: int
    var explanationText: Option<string>
    /** The question picked, or -1 before any pick. */
    var userSelectedIndex: int

    /** This quiz's fields as a value. */
    function Value(): Containers.ReverseQuiz
      reads this
    {
      Containers.ReverseQuiz(answer, questionOptions, correctQuestionIndex, explanationText, userSelectedIndex)
    }

    /** The picked question is the correct one. */
    function IsCorrect(): (r: bool)
      reads this
      ensures r <==> Value().userSelectedIndex == Value().correctQuestionIndex
      ensures userSelectedIndex == -1 ==> (r <==> correctQuestionIndex == -1)
      ensures r ==> (0 <= userSelectedIndex < |questionOptions| <==> 0 <= correctQuestionIndex < |questionOptions|)
    {
      userSelectedIndex == correctQuestionIndex
    }

    /**
     * A new quiz has nothing picked (-1) against a correct index of 0, so it
     * is graded wrong; "" stands for the answer the source leaves null until
     * set.
     */
    constructor (id: int)
      ensures this.id == id && Value() == Containers.ReverseQuiz("", [], 0, None, -1)
      ensures !IsCorrect()
    {
      this.id := id;
      answer := "";
      questionOptions := [];
      correctQuestionIndex := 0;
      explanationText := None;
      userSelectedIndex := -1;
    }

    method SetAnswer(a: string)
      modifies this
      ensures Value() == old(Value()).(answer := a)
    {
      answer := a;
    }

    method SetQuestionOptions(options: seq<string>)
      modifies this
      ensures Value() == old(Value()).(questionOptions := options)
    {
      questionOptions := options;
    }

    method SetCorrectQuestionIndex(k: int)
      modifies this
      ensures Value() == old(Value()).(correctQuestionIndex := k)
    {
      correctQuestionIndex := k;
    }

    method SetExplanationText(text: Option<string>)
      modifies this
      ensures Value() == old(Value()).(explanationText := text)
    {
      explanationText := text;
    }

    /** Picks question k; the quiz is then graded correct exactly when k is the correct index. */
    method SetUserSelectedIndex(k: int)
      modifies this
      ensures Value() == old(Value()).(userSelectedIndex := k)
      ensures IsCorrect() <==> k == correctQuestionIndex
    {
      userSelectedIndex := k;
    }
  }
}
