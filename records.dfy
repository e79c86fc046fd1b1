/**
 * What happens to the parsed model reply: the validity filters for
 * flashcards and quiz questions, and the rows `saveFlashcards` and
 * `saveQuiz` build from the records that pass.
 */
module Records {
  import opened Wrappers
  import opened Text

  /**
   * One element of the parsed flashcard array.  A field is `None` when it is
   * missing, null or not a string.
   */
  datatype RawCard = NotObject | CardObject(question: Option<string>, answer: Option<string>)

  /** One element of the parsed quiz array; `options` is `None` unless it is an array of strings. */
  datatype RawQuestion =
    | NotQuestion
    | QuestionObject(question: Option<string>, options: Option<seq<string>>,
                     correctAnswer: Option<string>, explanation: Option<string>)

  /** A JavaScript string value is truthy when it is present and not empty. */
  predicate Truthy(o: Option<string>) {
    o.Some? && o.value != []
  }

  /** `value || fallback` for a string field. */
  function OrElse(o: Option<string>, fallback: string): (r: string)
    ensures Truthy(o) ==> r == o.value
    ensures !Truthy(o) ==> r == fallback
  {
    if Truthy(o) then o.value else fallback
  }

  /** The flashcard filter: an object with a question over 10 and an answer over 20 characters. */
  predicate ValidCard(c: RawCard) {
    c.CardObject? && Truthy(c.question) && Truthy(c.answer)
    && |c.question.value| > 10 && |c.answer.value| > 20
  }

  /** `flashcardsData.filter(...)`: the valid cards, in their order. */
  function FilterFlashcards(cards: seq<RawCard>): (r: seq<RawCard>)
    ensures forall c :: c in r <==> c in cards && ValidCard(c)
    ensures forall c :: multiset(r)[c] == if ValidCard(c) then multiset(cards)[c] else 0
    ensures Subsequence(r, cards)
    ensures r == [] <==> forall c :: c in cards ==> !ValidCard(c)
  {
    Filter(cards, ValidCard)
  }

  /** The quiz filter as written: question over 10 characters, exactly four options, truthy answer and explanation. */
  predicate ValidQuestionAsWritten(q: RawQuestion) {
    q.QuestionObject? && Truthy(q.question) && q.options.Some?
    && Truthy(q.correctAnswer) && Truthy(q.explanation)
    && |q.options.value| == 4 && |q.question.value| > 10
  }

  /** The quiz filter as intended: also, the correct answer is one of the options. */
  predicate ValidQuestion(q: RawQuestion) {
    q.QuestionObject? && ValidQuestionAsWritten(q) && q.correctAnswer.value in q.options.value
  }

  /** `quizData.filter(...)` as written. */
  function FilterQuestionsAsWritten(qs: seq<RawQuestion>): (r: seq<RawQuestion>)
    ensures forall q :: q in r <==> q in qs && ValidQuestionAsWritten(q)
    ensures forall q :: multiset(r)[q] == if ValidQuestionAsWritten(q) then multiset(qs)[q] else 0
    ensures Subsequence(r, qs)
    ensures r == [] <==> forall q :: q in qs ==> !ValidQuestionAsWritten(q)
  {
    Filter(qs, ValidQuestionAsWritten)
  }

  /** The quiz filter with the membership check. */
  function FilterQuestions(qs: seq<RawQuestion>): (r: seq<RawQuestion>)
    ensures forall q :: q in r <==> q in qs && ValidQuestion(q)
    ensures forall q :: multiset(r)[q] == if ValidQuestion(q) then multiset(qs)[q] else 0
    ensures Subsequence(r, qs)
    ensures r == [] <==> forall q :: q in qs ==> !ValidQuestion(q)
  {
    Filter(qs, ValidQuestion)
  }

  /** A question whose answer is not among its options passes the filter as written. */
  lemma AnswerOutsideOptionsAccepted()
    ensures var q := QuestionObject(Some("What does the DOM stand for?"), Some(["A", "B", "C", "D"]),
                                    Some("E"), Some("Because."));
            ValidQuestionAsWritten(q) && !ValidQuestion(q) && FilterQuestionsAsWritten([q]) == [q]
  {
    var q := QuestionObject(Some("What does the DOM stand for?"), Some(["A", "B", "C", "D"]),
                            Some("E"), Some("Because."));
    assert "E" !in ["A", "B", "C", "D"];
    assert FilterQuestionsAsWritten([q]) == [q] + Filter([], ValidQuestionAsWritten);
  }

  /** One inserted flashcard. */
  datatype FlashcardRow = FlashcardRow(videoId: nat, question: string, answer: string, difficulty: string)

  /** One inserted quiz question. */
  datatype QuestionRow = QuestionRow(quizId: nat, question: string, options: seq<string>,
                                     correctAnswer: string, explanation: string, orderIndex: nat)

  /** The inserted quiz. */
  datatype QuizRow = QuizRow(videoId: nat, title: string, description: string)

  /** The row for one card. */
  function CardRow(c: RawCard, difficulty: string, videoId: nat): (row: FlashcardRow)
    requires c.CardObject?
    ensures row.question != [] && row.answer != []
    ensures row.difficulty == difficulty && row.videoId == videoId
    ensures ValidCard(c) ==> row.question == c.question.value && row.answer == c.answer.value
  {
    FlashcardRow(videoId, OrElse(c.question, "Question not available"), OrElse(c.answer, "Answer not available"), difficulty)
  }

  /**
   * `flashcardsData.slice(0, count).map(...)`: one row per card kept by the
   * slice, in order, each tagged with the requested difficulty.
   */
  function FlashcardRows(cards: seq<RawCard>, count: int, difficulty: string, videoId: nat): (rows: seq<FlashcardRow>)
    requires forall c :: c in cards ==> c.CardObject?
    ensures |rows| == SliceEnd(|cards|, count)
    ensures 0 <= count ==> |rows| == if count < |cards| then count else |cards|
    ensures forall k :: 0 <= k < |rows| ==> rows[k].difficulty == difficulty && rows[k].videoId == videoId
    ensures forall k :: 0 <= k < |rows| && ValidCard(cards[k]) ==>
              rows[k].question == cards[k].question.value && rows[k].answer == cards[k].answer.value
    ensures forall k :: 0 <= k < |rows| && Truthy(cards[k].question) ==> rows[k].question == cards[k].question.value
    ensures forall k :: 0 <= k < |rows| && Truthy(cards[k].answer) ==> rows[k].answer == cards[k].answer.value
  {
    var kept := Slice0(cards, count);
    seq(|kept|, k requires 0 <= k < |kept| => CardRow(kept[k], difficulty, videoId))
  }

  const DefaultOptions: seq<string> := ["Option A", "Option B", "Option C", "Option D"]

  /** `q.correct_answer || q.options?.[0] || 'Option A'`. */
  function CorrectAnswerOf(q: RawQuestion): (r: string)
    requires q.QuestionObject?
    ensures r != []
    ensures Truthy(q.correctAnswer) ==> r == q.correctAnswer.value
  {
    if Truthy(q.correctAnswer) then q.correctAnswer.value
    else if q.options.Some? && |q.options.value| > 0 && q.options.value[0] != [] then q.options.value[0]
    else "Option A"
  }

  /** The row for the question at position `index`. */
  function QuestionRowOf(q: RawQuestion, index: nat, quizId: nat): (row: QuestionRow)
    requires q.QuestionObject?
    ensures row.orderIndex == index && row.quizId == quizId
    ensures |row.options| <= 4 && row.correctAnswer != []
    ensures q.options.None? ==> row.options == DefaultOptions
    ensures q.options.Some? ==> row.options == Slice0(q.options.value, 4)
    ensures !Truthy(q.question) ==> row.question == "Question " + IntToString(index + 1)
    ensures Truthy(q.correctAnswer) ==> row.correctAnswer == q.correctAnswer.value
    ensures ValidQuestionAsWritten(q) ==>
              && row.question == q.question.value && row.options == q.options.value
              && row.correctAnswer == q.correctAnswer.value && row.explanation == q.explanation.value
  {
    QuestionRow(quizId,
                OrElse(q.question, "Question " + IntToString(index + 1)),
                if q.options.Some? then Slice0(q.options.value, 4) else DefaultOptions,
                CorrectAnswerOf(q),
                OrElse(q.explanation, "Explanation not available"),
                index)
  }

  /**
   * `quizData.slice(0, questionCount).map((q, index) => ...)`: the kept
   * questions in order, with `order_index` 0, 1, 2, ….
   */
  function QuestionRows(qs: seq<RawQuestion>, questionCount: int, quizId: nat): (rows: seq<QuestionRow>)
    requires forall q :: q in qs ==> q.QuestionObject?
    ensures |rows| == SliceEnd(|qs|, questionCount)
    ensures forall k :: 0 <= k < |rows| ==> rows[k].orderIndex == k && rows[k].quizId == quizId
    ensures forall k :: 0 <= k < |rows| ==> |rows[k].options| <= 4 && rows[k].correctAnswer != []
    ensures forall k :: 0 <= k < |rows| && ValidQuestionAsWritten(qs[k]) ==>
              rows[k].options == qs[k].options.value && rows[k].correctAnswer == qs[k].correctAnswer.value
    ensures forall k :: 0 <= k < |rows| && ValidQuestion(qs[k]) ==> rows[k].correctAnswer in rows[k].options
  {
    var kept := Slice0(qs, questionCount);
    seq(|kept|, k requires 0 <= k < |kept| => QuestionRowOf(kept[k], k, quizId))
  }

  /** Every row built from the questions that pass the intended filter has four options, one of them its answer. */
  lemma RowsAnswerable(raw: seq<RawQuestion>, questionCount: int, quizId: nat)
    ensures forall q :: q in FilterQuestions(raw) ==> q.QuestionObject?
    ensures forall row :: row in QuestionRows(FilterQuestions(raw), questionCount, quizId) ==>
              |row.options| == 4 && row.correctAnswer in row.options
  {
    var qs := FilterQuestions(raw);
    var rows := QuestionRows(qs, questionCount, quizId);
    forall row | row in rows ensures |row.options| == 4 && row.correctAnswer in row.options {
      var k :| 0 <= k < |rows| && rows[k] == row;
      assert qs[k] in qs;
    }
  }

  /**
   * Every row built from the questions that pass the filter as written has
   * four options and the reply's own answer, which need not be one of them.
   */
  lemma RowsAsWritten(raw: seq<RawQuestion>, questionCount: int, quizId: nat)
    ensures forall q :: q in FilterQuestionsAsWritten(raw) ==> q.QuestionObject?
    ensures forall row :: row in QuestionRows(FilterQuestionsAsWritten(raw), questionCount, quizId) ==>
              |row.options| == 4 && row.correctAnswer != []
  {
    var qs := FilterQuestionsAsWritten(raw);
    var rows := QuestionRows(qs, questionCount, quizId);
    forall row | row in rows ensures |row.options| == 4 && row.correctAnswer != [] {
      var k :| 0 <= k < |rows| && rows[k] == row;
      assert qs[k] in qs;
    }
  }

  /** The question of `AnswerOutsideOptionsAccepted` is saved as a row whose answer is none of its options. */
  lemma UnanswerableRowSaved()
    ensures var q := QuestionObject(Some("What does the DOM stand for?"), Some(["A", "B", "C", "D"]),
                                    Some("E"), Some("Because."));
            var rows := QuestionRows(FilterQuestionsAsWritten([q]), 10, 0);
            |rows| == 1 && rows[0].correctAnswer !in rows[0].options
  {
    AnswerOutsideOptionsAccepted();
    var q := QuestionObject(Some("What does the DOM stand for?"), Some(["A", "B", "C", "D"]),
                            Some("E"), Some("Because."));
    assert ValidQuestionAsWritten([q][0]);
  }

  /** The quiz record `saveQuiz` inserts. */
  function QuizRowOf(videoId: nat, title: string, questionCount: int, difficulty: string): (q: QuizRow)
    ensures q.videoId == videoId
    ensures StartsWith(q.title, "Quiz: ") && ContainsAt(q.title, title, 6)
    ensures EndsWith(q.title, " (" + difficulty + ")")
  {
    var t := "Quiz: " + title + " (" + difficulty + ")";
    assert t[6..6 + |title|] == title;
    assert t[|t| - |" (" + difficulty + ")"|..] == " (" + difficulty + ")";
    QuizRow(videoId, t,
            "Quiz based on \"" + title + "\" with " + IntToString(questionCount) + " " + difficulty + "-level questions")
  }
}
