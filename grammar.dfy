/**
 * The event handlers of the grammar quiz page: answering the current
 * question, moving to the next one and replacing the question list. Each
 * handler is one atomic transition of the page state; the deferred update of
 * `nextQuestion` is applied at once. Rendering, the animation flag and the
 * loading flag are not modelled.
 */
module Grammar {
  import opened Common
  import Scoring

  datatype AnswerOption = AnswerOption(isCorrect: bool, text: string)

  datatype GrammarQuestion = GrammarQuestion(
    difficulty: string,
    explanation: string,
    grammaticalConcept: string,
    options: seq<AnswerOption>,
    question: string)

  /** `demoQuestions`: three questions, although a generate asks for five. */
  const DemoQuestions: seq<GrammarQuestion> := [
    GrammarQuestion("beginner",
      "In Sanskrit, the verb agrees with the subject in person and number. 'पठति' is the correct form for 'he/she reads'.",
      "Subject-Verb Agreement",
      [AnswerOption(true, "पठति"), AnswerOption(false, "पठामि"), AnswerOption(false, "पठन्ति"), AnswerOption(false, "पठसि")],
      "बालकः पुस्तकं _____। (The boy ___ a book.)"),
    GrammarQuestion("beginner",
      "The instrumental case (तृतीया विभक्ति) is used to show the instrument with which an action is performed.",
      "Case Usage",
      [AnswerOption(false, "लेखनी"), AnswerOption(true, "लेखन्या"), AnswerOption(false, "लेखनीम्"), AnswerOption(false, "लेखन्याः")],
      "छात्रः _____ लिखति। (The student writes with a pen.)"),
    GrammarQuestion("beginner",
      "When two nouns are in apposition, they must agree in case. Here, 'नगरी' (city) and 'अयोध्या' must be in the same case.",
      "Case Agreement",
      [AnswerOption(false, "अयोध्यायाः"), AnswerOption(false, "अयोध्यायाम्"), AnswerOption(true, "अयोध्या"), AnswerOption(false, "अयोध्याम्")],
      "_____ नगरी रामस्य जन्मभूमिः। (Ayodhya city is Ram's birthplace.)")
  ]

  const GenerateError := "Failed to generate grammar exercises. Please try again."

  /** The state cells the handlers read and set; `selectedAnswer` is `None` for `null`. */
  datatype Quiz = Quiz(
    questions: seq<GrammarQuestion>,
    currentQuestion: nat,
    selectedAnswer: Option<string>,
    score: nat,
    showExplanation: bool,
    error: Option<string>,
    totalAttempts: nat)

  /** The page once its mount effect has loaded the demo questions. */
  const Initial := Quiz(DemoQuestions, 0, None, 0, false, None, 0)

  /** JavaScript truthiness of `selectedAnswer`: a non-empty string. */
  predicate Answered(q: Quiz) {
    q.selectedAnswer.Some? && q.selectedAnswer.value != []
  }

  /**
   * What the page relies on and what its counters mean: the current
   * question exists whenever there are questions (the page renders
   * `questions[currentQuestion]`), an explanation shows exactly when an
   * answer is selected, and at most one attempt was counted per question
   * reached since the list was last replaced.
   */
  predicate Valid(q: Quiz) {
    && (q.questions == [] ==> q.currentQuestion == 0)
    && (q.questions != [] ==> q.currentQuestion < |q.questions|)
    && (q.showExplanation <==> q.selectedAnswer.Some?)
    && q.score <= q.totalAttempts <= q.currentQuestion + (if q.selectedAnswer.Some? then 1 else 0)
  }

  /** `options.find((opt) => opt.text === answer)`: the first option with that text. */
  function FindOption(options: seq<AnswerOption>, answer: string): (r: Option<AnswerOption>)
    ensures r.Some? ==> r.value in options && r.value.text == answer
    ensures r.None? <==> forall o :: o in options ==> o.text != answer
    ensures r.Some? ==> exists i :: 0 <= i < |options| && options[i] == r.value
                                   && forall j :: 0 <= j < i ==> options[j].text != answer
  {
    if options == [] then None
    else if options[0].text == answer then
      Some(options[0])
    else
      var r := FindOption(options[1..], answer);
      assert forall o :: o in options ==> o == options[0] || o in options[1..];
      if r.Some? then
        var i :| 0 <= i < |options[1..]| && options[1..][i] == r.value
                  && forall j :: 0 <= j < i ==> options[1..][j].text != answer;
        assert options[i + 1] == r.value;
        assert forall j :: 0 <= j < i + 1 ==> options[j].text != answer by {
          forall j | 0 <= j < i + 1 ensures options[j].text != answer {
            if j > 0 { assert options[j] == options[1..][j - 1]; }
          }
        }
        r
      else r
  }

  /** `handleAnswer(answer)`: ignored while an answer is selected, otherwise records and scores it. */
  function HandleAnswerStep(q: Quiz, answer: string): (r: Quiz)
    requires !Answered(q) ==> q.currentQuestion < |q.questions|
    ensures Answered(q) ==> r == q
    ensures !Answered(q) ==> r.selectedAnswer == Some(answer) && r.showExplanation
                             && r.totalAttempts == q.totalAttempts + 1
    ensures !Answered(q) ==> var found := FindOption(q.questions[q.currentQuestion].options, answer);
      r.score == q.score + (if found.Some? && found.value.isCorrect then 1 else 0)
    ensures r.questions == q.questions && r.currentQuestion == q.currentQuestion
  {
    if Answered(q) then q
    else
      var found := FindOption(q.questions[q.currentQuestion].options, answer);
      var correct := found.Some? && found.value.isCorrect;
      q.(selectedAnswer := Some(answer), showExplanation := true, totalAttempts := q.totalAttempts + 1,
         score := if correct then q.score + 1 else q.score)
  }

  /** `nextQuestion`: advance and clear the answer, unless on the last question. */
  function NextQuestionStep(q: Quiz): (r: Quiz)
    ensures q.currentQuestion + 1 < |q.questions| ==>
      r.currentQuestion == q.currentQuestion + 1 && r.selectedAnswer.None? && !r.showExplanation
    ensures q.currentQuestion + 1 >= |q.questions| ==> r == q
    ensures r.score == q.score && r.totalAttempts == q.totalAttempts && r.questions == q.questions
  {
    if q.currentQuestion < |q.questions| - 1 then
      q.(currentQuestion := q.currentQuestion + 1, selectedAnswer := None, showExplanation := false)
    else q
  }

  /** `handleGenerate` when the request returns `result`. */
  function GenerateSucceeded(q: Quiz, result: seq<GrammarQuestion>): Quiz {
    q.(questions := result, currentQuestion := 0, score := 0, selectedAnswer := None,
       showExplanation := false, totalAttempts := 0, error := None)
  }

  /** `handleGenerate` when the request fails, as written: the demo questions come back, nothing else is reset. */
  function GenerateFailedAsWritten(q: Quiz): Quiz {
    q.(questions := DemoQuestions, error := Some(GenerateError))
  }

  /** `handleGenerate` when the request fails, with the resets of the success branch applied to the demo questions. */
  function GenerateFailed(q: Quiz): Quiz {
    GenerateSucceeded(q, DemoQuestions).(error := Some(GenerateError))
  }

  /** `isQuizComplete`: on the last question with an answer selected. */
  predicate IsQuizComplete(q: Quiz) {
    q.currentQuestion == |q.questions| - 1 && Answered(q)
  }

  /** `accuracy` of the page. */
  function Accuracy(q: Quiz): (pct: int)
    requires Valid(q)
    ensures 0 <= pct <= 100
    ensures q.totalAttempts == 0 ==> pct == 0
  {
    Scoring.Accuracy(q.score, q.totalAttempts)
  }

  lemma InitialValid()
    ensures Valid(Initial)
  {
  }

  /**
   * An answer given while none is selected, or one the guard ignores, keeps
   * every counter meaningful; once a non-empty answer is selected, every
   * further answer to the same question is ignored.
   */
  lemma AnswerKeepsValid(q: Quiz, answer: string)
    requires Valid(q) && q.questions != [] && (q.selectedAnswer.None? || Answered(q))
    ensures Valid(HandleAnswerStep(q, answer))
    ensures HandleAnswerStep(q, answer).selectedAnswer.Some?
    ensures answer != [] ==> Answered(HandleAnswerStep(q, answer))
    ensures answer != [] ==> forall a :: HandleAnswerStep(HandleAnswerStep(q, answer), a) == HandleAnswerStep(q, answer)
  {
  }

  /**
   * The guard tests truthiness, so an option whose text is empty does not
   * block a second answer: two clicks count two attempts on one question.
   * The rendered buttons are disabled once `selectedAnswer` is not `null`,
   * which keeps this from the user.
   */
  lemma EmptyAnswerIsCountedTwice()
    ensures var q := Quiz(DemoQuestions, 0, None, 0, false, None, 0);
      HandleAnswerStep(HandleAnswerStep(q, ""), "").totalAttempts == 2
  {
  }

  lemma NextKeepsValid(q: Quiz)
    requires Valid(q)
    ensures Valid(NextQuestionStep(q))
  {
  }

  /** The quiz is complete exactly when an answer is given on the last question, after which `nextQuestion` changes nothing. */
  lemma CompleteIsFinal(q: Quiz)
    requires Valid(q) && IsQuizComplete(q)
    ensures NextQuestionStep(q) == q
    ensures forall a :: HandleAnswerStep(q, a) == q
  {
  }

  lemma GenerateKeepsValid(q: Quiz, result: seq<GrammarQuestion>)
    ensures Valid(GenerateSucceeded(q, result)) && Valid(GenerateFailed(q))
    ensures GenerateFailed(q).questions == DemoQuestions
  {
  }

  /**
   * As written, a failed generate can leave the index past the end of the
   * three demo questions: on the fourth of five generated questions, the
   * page would render a fourth demo question that does not exist.
   */
  lemma GenerateFailedAsWrittenLosesQuestion()
    ensures var q := Quiz(DemoQuestions + DemoQuestions[..2], 3, None, 0, false, None, 0);
      Valid(q) && !Valid(GenerateFailedAsWritten(q))
  {
  }

  /** The page component, its state cells as fields and its handlers as methods. */
  class GrammarPage {
    var questions: seq<GrammarQuestion>
    var currentQuestion: nat
    var selectedAnswer: Option<string>
    var score: nat
    var showExplanation: bool
    var error: Option<string>
    var totalAttempts: nat

    function State(): Quiz
      reads this
    {
      Quiz(questions, currentQuestion, selectedAnswer, score, showExplanation, error, totalAttempts)
    }

    /** The mounted page: `useState` initial values, then the effect `setQuestions(demoQuestions)`. */
    constructor ()
      ensures State() == Initial && Valid(State())
    {
      questions := DemoQuestions;
      currentQuestion := 0;
      selectedAnswer := None;
      score := 0;
      showExplanation := false;
      error := None;
      totalAttempts := 0;
    }

    /**
     * `handleAnswer`, for the text of an option of the rendered question.
     * The option buttons are disabled once `selectedAnswer` is not `null`,
     * so a click arrives only while no answer is selected; a call the guard
     * ignores is admitted too.
     */
    method HandleAnswer(answer: string)
      requires Valid(State()) && questions != [] && (selectedAnswer.None? || Answered(State()))
      modifies this
      ensures State() == HandleAnswerStep(old(State()), answer) && Valid(State())
    {
      if selectedAnswer.Some? && selectedAnswer.value != [] {
        return;
      }
      selectedAnswer := Some(answer);
      showExplanation := true;
      totalAttempts := totalAttempts + 1;
      var found := FindOption(questions[currentQuestion].options, answer);
      if found.Some? && found.value.isCorrect {
        score := score + 1;
      }
      AnswerKeepsValid(old(State()), answer);
    }

    method NextQuestion()
      requires Valid(State())
      modifies this
      ensures State() == NextQuestionStep(old(State())) && Valid(State())
    {
      if currentQuestion < |questions| - 1 {
        currentQuestion := currentQuestion + 1;
        selectedAnswer := None;
        showExplanation := false;
      }
    }

    /** `handleGenerate`; `result` is the question list the request returned, `None` when it failed. */
    method HandleGenerate(result: Option<seq<GrammarQuestion>>)
      modifies this
      ensures result.Some? ==> State() == GenerateSucceeded(old(State()), result.value)
      ensures result.None? ==> State() == GenerateFailed(old(State()))
      ensures Valid(State())
    {
      error := None;
      questions := if result.Some? then result.value else DemoQuestions;
      currentQuestion := 0;
      score := 0;
      selectedAnswer := None;
      showExplanation := false;
      totalAttempts := 0;
      if result.None? {
        error := Some(GenerateError);
      }
    }
  }
}
