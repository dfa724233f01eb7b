/**
 * The practice page: a score, a game break after every third correct
 * answer, the session flag, the explanation toggle and the stored attention
 * report. Questions come from a generator outside this model; a freshly
 * generated question is a parameter, identified by its id.
 */
module Practice {
  import opened Wrappers

  /** The fields of the attention report the page reads. */
  datatype AttentionReport = AttentionReport(
    startTime: int, endTime: int, averageAttention: real, attentiveMinutes: real, distractedMinutes: real)

  /** Every third correct answer earns a game break. */
  const BreakEvery: nat := 3

  /** `onToggleExplanation`: close the explanation if it is the open one, else open it. */
  function ToggleExplanation(current: Option<int>, id: int): (r: Option<int>)
    ensures r == Some(id) <==> current != Some(id)
    ensures r == None <==> current == Some(id)
  {
    if current == Some(id) then None else Some(id)
  }

  /** From no explanation or from this one, toggling twice returns to where it started. */
  lemma ToggleExplanationTwice(current: Option<int>, id: int)
    requires current == None || current == Some(id)
    ensures ToggleExplanation(ToggleExplanation(current, id), id) == current
  {
  }

  /** From another question's explanation, toggling twice closes it. */
  lemma ToggleExplanationTwiceOther(current: Option<int>, id: int)
    requires current.Some? && current != Some(id)
    ensures ToggleExplanation(ToggleExplanation(current, id), id) == None
  {
  }

  class PracticeState {
    var selectedAnswer: string
    var showExplanation: Option<int>
    var showGame: bool
    var score: nat
    var currentQuestion: int
    var isSessionActive: bool
    var attentionReport: Option<AttentionReport>

    /** A game break only follows a correct answer that made the score a positive multiple of three, and pauses the session. */
    ghost predicate Valid()
      reads this
    {
      showGame ==> score > 0 && score % BreakEvery == 0 && !isSessionActive
    }

    constructor (firstQuestion: int)
      ensures Valid()
      ensures selectedAnswer == "" && showExplanation == None && !showGame && score == 0
      ensures currentQuestion == firstQuestion && !isSessionActive && attentionReport == None
    {
      selectedAnswer, showExplanation, showGame := "", None, false;
      score, currentQuestion := 0, firstQuestion;
      isSessionActive, attentionReport := false, None;
    }

    /**
     * `handleAnswerSubmit`, reachable only while a question is shown. The
     * choice is recorded. A correct one adds one to the score and closes the
     * explanation; then either a break starts (the new score a multiple of
     * three) or the next question is shown with the choice cleared. A wrong
     * one changes nothing else.
     */
    method HandleAnswerSubmit(selectedOption: string, correctAnswer: string, nextQuestion: int)
      requires Valid() && !showGame
      modifies this`selectedAnswer, this`score, this`showExplanation, this`showGame,
        this`isSessionActive, this`currentQuestion
      ensures Valid()
      ensures if selectedOption == correctAnswer then
          score == old(score) + 1 && showExplanation == None
          && (if score % BreakEvery == 0 then
                showGame && !isSessionActive && selectedAnswer == selectedOption
                && currentQuestion == old(currentQuestion)
              else
                !showGame && isSessionActive == old(isSessionActive) && selectedAnswer == ""
                && currentQuestion == nextQuestion)
        else
          score == old(score) && selectedAnswer == selectedOption && showExplanation == old(showExplanation)
          && !showGame && isSessionActive == old(isSessionActive) && currentQuestion == old(currentQuestion)
    {
      selectedAnswer := selectedOption;
      if selectedOption == correctAnswer {
        score := score + 1;
        showExplanation := None;
        if score % BreakEvery == 0 {
          showGame := true;
          isSessionActive := false;
        } else {
          currentQuestion := nextQuestion;
          selectedAnswer := "";
        }
      }
    }

    /** `handleGameComplete`, reachable only during a break: back to a fresh question in an active session; the score stays. */
    method HandleGameComplete(nextQuestion: int)
      requires Valid() && showGame
      modifies this`showGame, this`currentQuestion, this`selectedAnswer, this`isSessionActive
      ensures Valid()
      ensures !showGame && isSessionActive && selectedAnswer == "" && currentQuestion == nextQuestion
    {
      showGame := false;
      currentQuestion := nextQuestion;
      selectedAnswer := "";
      isSessionActive := true;
    }

    /** `handleSessionStart`, whose button shows only with no session and no break: activate and drop the old report. */
    method HandleSessionStart()
      requires Valid() && !isSessionActive && !showGame
      modifies this`isSessionActive, this`attentionReport
      ensures Valid()
      ensures isSessionActive && attentionReport == None
    {
      isSessionActive := true;
      attentionReport := None;
    }

    /** `handleReportGenerated`: keep the report. */
    method HandleReportGenerated(report: AttentionReport)
      modifies this`attentionReport
      ensures attentionReport == Some(report)
    {
      attentionReport := Some(report);
    }

    method OnToggleExplanation(id: int)
      modifies this`showExplanation
      ensures showExplanation == ToggleExplanation(old(showExplanation), id)
    {
      showExplanation := ToggleExplanation(showExplanation, id);
    }
  }

  /** Three correct answers in a row from a fresh page: two new questions, then a break at score 3. */
  method ThreeCorrectAnswers()
  {
    var p := new PracticeState(0);
    p.HandleSessionStart();
    p.HandleAnswerSubmit("4", "4", 1);
    assert p.score == 1 && !p.showGame && p.currentQuestion == 1;
    p.HandleAnswerSubmit("x", "9", 2);
    assert p.score == 1 && p.selectedAnswer == "x";
    p.HandleAnswerSubmit("9", "9", 2);
    assert p.score == 2 && !p.showGame;
    p.HandleAnswerSubmit("7", "7", 3);
    assert p.score == 3 && p.showGame && !p.isSessionActive && p.currentQuestion == 2;
    p.HandleGameComplete(4);
    assert p.score == 3 && p.isSessionActive && !p.showGame;
  }
}
