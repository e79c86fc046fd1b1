/**
 * The results view: which flashcards are flipped, the recorded quiz
 * answers with the first answer final, the submitted quizzes, when the
 * submit button is enabled, the score, the question count on the quiz tab,
 * the ordering of a quiz's questions and the request "generate more" sends.
 */
module QuizView {
  import opened Wrappers
  import opened ProcessingHook

  /** A question as the view receives it. */
  datatype Question = Question(id: string, question: string, options: seq<string>, correctAnswer: string,
                               orderIndex: int)

  /** A quiz with its questions. */
  datatype Quiz = Quiz(id: string, questions: seq<Question>)

  /** The set after a card is clicked: its membership flips, no other card changes. */
  function Toggle(flipped: set<string>, cardId: string): (r: set<string>)
    ensures cardId in r <==> cardId !in flipped
    ensures forall c :: c != cardId ==> (c in r <==> c in flipped)
  {
    if cardId in flipped then flipped - {cardId} else flipped + {cardId}
  }

  /** Clicking a card twice shows it as before. */
  lemma ToggleTwice(flipped: set<string>, cardId: string)
    ensures Toggle(Toggle(flipped, cardId), cardId) == flipped
  {
  }

  /** `!!quizAnswers[id]`: an answer is recorded and is not empty. */
  predicate Answered(answers: map<string, string>, id: string) {
    id in answers && answers[id] != ""
  }

  /** A click on an option: recorded only while the question has no answer. */
  function Click(answers: map<string, string>, id: string, option: string): (r: map<string, string>)
    ensures Answered(answers, id) ==> r == answers
    ensures !Answered(answers, id) ==> id in r && r[id] == option
    ensures forall q :: q != id ==> (q in r <==> q in answers) && (q in answers ==> r[q] == answers[q])
  {
    if Answered(answers, id) then answers else answers[id := option]
  }

  /** The first non-empty answer is final: later clicks on the same question change nothing. */
  lemma FirstAnswerFinal(answers: map<string, string>, id: string, first: string, later: seq<string>)
    requires first != ""
    ensures var a := Click(answers, id, first);
            Answered(a, id) && ClickAll(a, id, later) == a
  {
    var a := Click(answers, id, first);
    ClicksAfterAnswer(a, id, later);
  }

  /** Clicks on one question, in order. */
  function ClickAll(answers: map<string, string>, id: string, options: seq<string>): map<string, string>
    decreases |options|
  {
    if options == [] then answers else ClickAll(Click(answers, id, options[0]), id, options[1..])
  }

  lemma {:induction false} ClicksAfterAnswer(answers: map<string, string>, id: string, options: seq<string>)
    requires Answered(answers, id)
    ensures ClickAll(answers, id, options) == answers
    decreases |options|
  {
    if options != [] {
      ClicksAfterAnswer(Click(answers, id, options[0]), id, options[1..]);
    }
  }

  /** `quiz.quiz_questions.some(q => !quizAnswers[q.id])`: the submit button is disabled. */
  function SomeUnanswered(answers: map<string, string>, qs: seq<Question>): (r: bool)
    ensures r <==> exists i :: 0 <= i < |qs| && !Answered(answers, qs[i].id)
    decreases |qs|
  {
    if qs == [] then false
    else
      var rest := SomeUnanswered(answers, qs[1..]);
      assert forall i :: 1 <= i < |qs| ==> qs[i] == qs[1..][i - 1];
      !Answered(answers, qs[0].id) || rest
  }

  /** Submit is enabled exactly when every question of the quiz has an answer. */
  lemma SubmitEnabledIff(answers: map<string, string>, quiz: Quiz)
    ensures !SomeUnanswered(answers, quiz.questions) <==> forall q :: q in quiz.questions ==> Answered(answers, q.id)
  {
    if !SomeUnanswered(answers, quiz.questions) {
      forall q | q in quiz.questions ensures Answered(answers, q.id) {
        var i :| 0 <= i < |quiz.questions| && quiz.questions[i] == q;
      }
    }
  }

  /** `quizAnswers[q.id] === q.correct_answer`. */
  predicate Correct(answers: map<string, string>, q: Question) {
    q.id in answers && answers[q.id] == q.correctAnswer
  }

  /** The score: the number of questions answered correctly. */
  function Score(answers: map<string, string>, qs: seq<Question>): (n: nat)
    ensures n <= |qs|
    ensures n == |qs| <==> forall i :: 0 <= i < |qs| ==> Correct(answers, qs[i])
    ensures n == 0 <==> forall i :: 0 <= i < |qs| ==> !Correct(answers, qs[i])
    decreases |qs|
  {
    if qs == [] then 0
    else
      var init := qs[..|qs| - 1];
      var rest := Score(answers, init);
      assert forall i :: 0 <= i < |init| ==> init[i] == qs[i];
      rest + if Correct(answers, qs[|qs| - 1]) then 1 else 0
  }

  /** The number of answered questions. */
  function AnsweredCount(answers: map<string, string>, qs: seq<Question>): (n: nat)
    ensures n <= |qs|
    decreases |qs|
  {
    if qs == [] then 0
    else AnsweredCount(answers, qs[..|qs| - 1]) + if Answered(answers, qs[|qs| - 1].id) then 1 else 0
  }

  /** The score only counts answered questions, since every correct answer is a non-empty string. */
  lemma {:induction false} ScoreAtMostAnswered(answers: map<string, string>, qs: seq<Question>)
    requires forall q :: q in qs ==> q.correctAnswer != ""
    ensures Score(answers, qs) <= AnsweredCount(answers, qs)
    decreases |qs|
  {
    if qs != [] {
      var init := qs[..|qs| - 1];
      assert forall q :: q in init ==> q in qs;
      ScoreAtMostAnswered(answers, init);
      assert qs[|qs| - 1] in qs;
    }
  }

  /** `quizzes.reduce((acc, quiz) => acc + quiz.quiz_questions.length, 0)`. */
  function QuestionTotal(quizzes: seq<Quiz>): (n: nat)
    ensures quizzes == [] ==> n == 0
    decreases |quizzes|
  {
    if quizzes == [] then 0 else QuestionTotal(quizzes[..|quizzes| - 1]) + |quizzes[|quizzes| - 1].questions|
  }

  /** The tab count adds up over any split of the quiz list. */
  lemma {:induction false} QuestionTotalAppend(a: seq<Quiz>, b: seq<Quiz>)
    ensures QuestionTotal(a + b) == QuestionTotal(a) + QuestionTotal(b)
    decreases |b|
  {
    if b == [] {
      assert a + b == a;
    } else {
      var b' := b[..|b| - 1];
      QuestionTotalAppend(a, b');
      assert (a + b)[..|a + b| - 1] == a + b';
    }
  }

  /** Ascending `order_index`. */
  predicate SortedByIndex(s: seq<Question>) {
    forall i, j :: 0 <= i < j < |s| ==> s[i].orderIndex <= s[j].orderIndex
  }

  /** `quiz_questions.sort((a, b) => a.order_index - b.order_index)`, in place, by insertion. */
  method SortByOrderIndex(a: array<Question>)
    modifies a
    ensures SortedByIndex(a[..])
    ensures multiset(a[..]) == multiset(old(a[..]))
  {
    var i := 0;
    while i < a.Length
      invariant 0 <= i <= a.Length
      invariant SortedByIndex(a[..i])
      invariant multiset(a[..]) == multiset(old(a[..]))
    {
      Insert(a, i);
      i := i + 1;
    }
    assert a[..a.Length] == a[..];
  }

  /** Exchanges `a[j - 1]` and `a[j]`. */
  method SwapDown(a: array<Question>, j: nat)
    requires 0 < j < a.Length
    modifies a
    ensures a[j - 1] == old(a[j]) && a[j] == old(a[j - 1])
    ensures forall k :: 0 <= k < a.Length && k != j - 1 && k != j ==> a[k] == old(a[k])
    ensures multiset(a[..]) == multiset(old(a[..]))
  {
    a[j - 1], a[j] := a[j], a[j - 1];
  }

  /** Moves `a[i]` left past the larger entries, so that `a[..i + 1]` is sorted. */
  method Insert(a: array<Question>, i: nat)
    requires i < a.Length && SortedByIndex(a[..i])
    modifies a
    ensures SortedByIndex(a[..i + 1])
    ensures multiset(a[..]) == multiset(old(a[..]))
  {
    var j := i;
    while j > 0 && a[j - 1].orderIndex > a[j].orderIndex
      invariant 0 <= j <= i
      invariant forall k, l :: 0 <= k < l <= i && k != j && l != j ==> a[k].orderIndex <= a[l].orderIndex
      invariant forall l :: j < l <= i ==> a[j].orderIndex <= a[l].orderIndex
      invariant multiset(a[..]) == multiset(old(a[..]))
    {
      SwapDown(a, j);
      j := j - 1;
    }
  }

  /** Which "generate more" button was pressed. */
  datatype ContentKind = MoreFlashcards | MoreQuestions

  /** The options `generateMoreContent` passes: `count` of the chosen kind, 0 of the other, medium difficulty. */
  function MoreContentOptions(kind: ContentKind, count: int): (o: Options)
    ensures kind == MoreFlashcards ==> o.flashcardCount == Some(count) && o.quizQuestionCount == Some(0)
    ensures kind == MoreQuestions ==> o.quizQuestionCount == Some(count) && o.flashcardCount == Some(0)
    ensures o.difficulty == Some("medium")
  {
    Options(Some(if kind == MoreFlashcards then count else 0), Some(if kind == MoreQuestions then count else 0),
            Some("medium"))
  }

  /**
   * Through the body as written, "Generate 10 More" also asks for 10 quiz
   * questions and "Generate 10 More Questions" for 15 flashcards; with the
   * counts kept, the other kind is 0.
   */
  lemma MoreContentRequests(url: string)
    ensures BodyAsWritten(url, Some(MoreContentOptions(MoreFlashcards, 10))) == Body(url, 10, 10, "medium")
    ensures BodyAsWritten(url, Some(MoreContentOptions(MoreQuestions, 10))) == Body(url, 15, 10, "medium")
    ensures BodyOf(url, Some(MoreContentOptions(MoreFlashcards, 10))) == Body(url, 10, 0, "medium")
    ensures BodyOf(url, Some(MoreContentOptions(MoreQuestions, 10))) == Body(url, 0, 10, "medium")
  {
  }

  /** The view's state and the hook instance it uses. */
  class Results {
    var flipped: set<string>
    var answers: map<string, string>
    var submitted: map<string, bool>
    const hook: Processor

    constructor ()
      ensures flipped == {} && answers == map[] && submitted == map[]
      ensures fresh(hook) && !hook.isProcessing
    {
      flipped, answers, submitted := {}, map[], map[];
      hook := new Processor();
    }

    /** `toggleCard`: a copy of the set with the card added or deleted. */
    method ToggleCard(cardId: string)
      modifies this
      ensures flipped == Toggle(old(flipped), cardId)
      ensures answers == old(answers) && submitted == old(submitted)
    {
      var next := flipped;
      if cardId in next {
        next := next - {cardId};
      } else {
        next := next + {cardId};
      }
      flipped := next;
    }

    /** `handleQuizAnswer`: the entry for the question is set, every other entry kept. */
    method HandleQuizAnswer(questionId: string, answer: string)
      modifies this
      ensures answers == old(answers)[questionId := answer]
      ensures flipped == old(flipped) && submitted == old(submitted)
    {
      answers := answers[questionId := answer];
    }

    /** The click handler on an option: it records the option only while the question is unanswered. */
    method ChooseOption(questionId: string, option: string)
      modifies this
      ensures answers == Click(old(answers), questionId, option)
      ensures flipped == old(flipped) && submitted == old(submitted)
    {
      if !Answered(answers, questionId) {
        HandleQuizAnswer(questionId, option);
      }
    }

    /** `submitQuiz`: the quiz is marked submitted, every other entry kept; submitting again changes nothing. */
    method SubmitQuiz(quizId: string)
      modifies this
      ensures submitted == old(submitted)[quizId := true]
      ensures quizId in old(submitted) && old(submitted)[quizId] ==> submitted == old(submitted)
      ensures flipped == old(flipped) && answers == old(answers)
    {
      submitted := submitted[quizId := true];
    }

    /** The submit button's enabled state. */
    predicate SubmitEnabled(quiz: Quiz)
      reads this
    {
      !SomeUnanswered(answers, quiz.questions)
    }

    /** The score line shown once the quiz is submitted. */
    function ScoreOf(quiz: Quiz): (n: nat)
      reads this
      ensures n == Score(answers, quiz.questions) && n <= |quiz.questions|
    {
      Score(answers, quiz.questions)
    }

    /**
     * `generateMoreContent`: `processVideo` on the video's URL with the
     * options for the pressed button; the body it sends.
     */
    method GenerateMoreContent(url: string, kind: ContentKind, count: int, outcome: Invoked) returns (body: Body)
      modifies hook
      ensures body == BodyAsWritten(url, Some(MoreContentOptions(kind, count)))
      ensures !hook.isProcessing
      ensures hook.processedVideo == if outcome.Invoked? then Some(outcome.data) else None
    {
      var r;
      body, r := hook.ProcessVideo(url, Some(MoreContentOptions(kind, count)), outcome);
    }
  }
}
