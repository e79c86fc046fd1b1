/**
 * The database the edge function writes to, as four append-only tables.
 * Row identifiers are positions in their table; an insert into a table the
 * database refuses returns the error the calling code throws and changes
 * nothing.
 */
module Store {
  import opened Wrappers
  import opened Text
  import opened Records

  /** The tables the function inserts into. */
  datatype Table = Videos | Flashcards | Quizzes | QuizQuestions

  /** The inserted video record. */
  datatype VideoRow = VideoRow(videoId: string, title: string, description: string, youtubeUrl: string,
                               transcript: string, summary: string)

  /** What `saveQuiz` returns: the quiz id and the question rows it inserted. */
  datatype SavedQuiz = SavedQuiz(id: nat, quizQuestions: seq<QuestionRow>)

  const VideoSaveError: string := "Failed to save video"
  const FlashcardSaveError: string := "Failed to save flashcards"
  const QuizSaveError: string := "Failed to save quiz"
  const QuestionSaveError: string := "Failed to save quiz questions"

  class Database {
    var videos: seq<VideoRow>
    var flashcards: seq<FlashcardRow>
    var quizzes: seq<QuizRow>
    var questions: seq<QuestionRow>
    /** The tables whose inserts come back with an error. */
    const down: set<Table>

    /** Every flashcard and quiz belongs to a stored video and every question to a stored quiz. */
    ghost predicate Valid()
      reads this
    {
      && (forall c :: c in flashcards ==> c.videoId < |videos|)
      && (forall q :: q in quizzes ==> q.videoId < |videos|)
      && (forall r :: r in questions ==> r.quizId < |quizzes|)
    }

    constructor (down: set<Table>)
      ensures Valid() && this.down == down
      ensures videos == [] && flashcards == [] && quizzes == [] && questions == []
    {
      videos, flashcards, quizzes, questions := [], [], [], [];
      this.down := down;
    }

    /** The `videos` insert of the handler; the id of the new row on success. */
    method InsertVideo(row: VideoRow) returns (r: Result<nat>)
      modifies this
      ensures Videos in down ==> r == Failure(VideoSaveError) && unchanged(this)
      ensures Videos !in down ==> r == Success(old(|videos|)) && videos == old(videos) + [row]
      ensures flashcards == old(flashcards) && quizzes == old(quizzes) && questions == old(questions)
      ensures old(Valid()) ==> Valid()
    {
      if Videos in down {
        return Failure(VideoSaveError);
      }
      r := Success(|videos|);
      videos := videos + [row];
    }

    /**
     * `saveFlashcards`: inserts the rows for the first `count` cards, each
     * tagged with the difficulty and the video id, and returns them.
     */
    method SaveFlashcards(cards: seq<RawCard>, count: int, difficulty: string, videoId: nat)
      returns (r: Result<seq<FlashcardRow>>)
      requires forall c :: c in cards ==> c.CardObject?
      modifies this
      ensures Flashcards in down ==> r == Failure(FlashcardSaveError) && unchanged(this)
      ensures Flashcards !in down ==>
                && r == Success(FlashcardRows(cards, count, difficulty, videoId))
                && flashcards == old(flashcards) + r.value
      ensures videos == old(videos) && quizzes == old(quizzes) && questions == old(questions)
      ensures old(Valid()) && videoId < |videos| ==> Valid()
    {
      var rows := FlashcardRows(cards, count, difficulty, videoId);
      if Flashcards in down {
        return Failure(FlashcardSaveError);
      }
      flashcards := flashcards + rows;
      r := Success(rows);
    }

    /**
     * `saveQuiz`: inserts the quiz record, then one row per kept question
     * under the new quiz id.  When the question insert fails the quiz
     * record stays behind.
     */
    method SaveQuiz(qs: seq<RawQuestion>, questionCount: int, difficulty: string, videoId: nat, title: string)
      returns (r: Result<SavedQuiz>)
      requires forall q :: q in qs ==> q.QuestionObject?
      modifies this
      ensures Quizzes in down ==> r == Failure(QuizSaveError) && unchanged(this)
      ensures Quizzes !in down ==> quizzes == old(quizzes) + [QuizRowOf(videoId, title, questionCount, difficulty)]
      ensures Quizzes !in down && QuizQuestions in down ==> r == Failure(QuestionSaveError) && questions == old(questions)
      ensures Quizzes !in down && QuizQuestions !in down ==>
                && r == Success(SavedQuiz(old(|quizzes|), QuestionRows(qs, questionCount, old(|quizzes|))))
                && questions == old(questions) + r.value.quizQuestions
      ensures videos == old(videos) && flashcards == old(flashcards)
      ensures r.Failure? ==> questions == old(questions)
      ensures old(Valid()) && videoId < |videos| ==> Valid()
    {
      if Quizzes in down {
        return Failure(QuizSaveError);
      }
      var id := |quizzes|;
      quizzes := quizzes + [QuizRowOf(videoId, title, questionCount, difficulty)];
      var rows := QuestionRows(qs, questionCount, id);
      if QuizQuestions in down {
        return Failure(QuestionSaveError);
      }
      questions := questions + rows;
      r := Success(SavedQuiz(id, rows));
    }
  }
}
