/**
 * The edge function's request handler: the video-id check, the transcript
 * step, the video insert, and the flashcard and quiz generators with their
 * model-first, templates-second fallback.  Metadata, the summary, the
 * transcript strategies and the model's replies are inputs; `JSON.parse`
 * is an abstract partial function.
 */
module Pipeline {
  import opened Wrappers
  import opened Text
  import opened VideoId
  import opened Transcript
  import opened JsonRepair
  import opened Records
  import opened Store
  import opened Concepts
  import opened QuizTemplates

  const InvalidUrlError: string := "Invalid YouTube URL"
  const NoQuestionsError: string := "No valid quiz questions found"

  /** The JSON body; a field is `None` when the body leaves it out. */
  datatype Request = Request(youtubeUrl: string, flashcardCount: Option<int>, quizQuestionCount: Option<int>,
                             difficulty: Option<string>)

  /** The generation settings after the destructuring defaults. */
  datatype Settings = Settings(flashcardCount: int, quizQuestionCount: int, difficulty: string)

  /** A destructuring default replaces a missing field only: an explicit 0 stays 0. */
  function SettingsOf(req: Request): (s: Settings)
    ensures req.flashcardCount.Some? ==> s.flashcardCount == req.flashcardCount.value
    ensures req.quizQuestionCount.Some? ==> s.quizQuestionCount == req.quizQuestionCount.value
    ensures req.difficulty.Some? ==> s.difficulty == req.difficulty.value
    ensures req == Request(req.youtubeUrl, None, None, None) ==> s == Settings(15, 10, "medium")
  {
    Settings(if req.flashcardCount.Some? then req.flashcardCount.value else 15,
             if req.quizQuestionCount.Some? then req.quizQuestionCount.value else 10,
             if req.difficulty.Some? then req.difficulty.value else "medium")
  }

  /** What `extractVideoData` settled on. */
  datatype VideoData = VideoData(title: string, description: string)

  /**
   * The model's reply: `hasKey` is whether the API key is set, a reply is
   * `None` when the request threw or was not ok.
   */
  datatype Gemini = Gemini(hasKey: bool, flashcardReply: Option<string>, quizReply: Option<string>)

  /** The handler's answer: the saved video, the flashcard count and the saved quiz, or the error message. */
  datatype Response = Processed(video: VideoRow, id: nat, flashcards: nat, quiz: SavedQuiz) | Error(message: string)

  /**
   * The records a parsed reply yields: the ones the filter keeps, in order,
   * or none when the reply did not parse to an array or the filter keeps
   * nothing (the generators then throw and fall back).
   */
  function Usable<T(==,!new)>(parsed: Option<seq<T>>, keep: T -> bool): (r: Option<seq<T>>)
    ensures r.Some? <==> parsed.Some? && exists x :: x in parsed.value && keep(x)
    ensures r.Some? ==> r.value != [] && Subsequence(r.value, parsed.value)
    ensures r.Some? ==> forall x :: x in r.value <==> x in parsed.value && keep(x)
    ensures r.Some? ==> forall x :: multiset(r.value)[x] == if keep(x) then multiset(parsed.value)[x] else 0
  {
    if parsed.Some? && Filter(parsed.value, keep) != [] then Some(Filter(parsed.value, keep)) else None
  }

  /**
   * The flashcards taken from the model: when the key is set and the reply
   * is not empty, the cards the filter keeps from the cleaned, parsed reply.
   */
  function ModelCards(hasKey: bool, reply: Option<string>, parse: string -> Option<seq<RawCard>>)
    : (r: Option<seq<RawCard>>)
    ensures r.Some? ==> hasKey && reply.Some? && reply.value != []
    ensures r.Some? ==> r.value != [] && forall c :: c in r.value ==> ValidCard(c)
  {
    if hasKey && reply.Some? && reply.value != [] then Usable(parse(CleanFlashcardJson(reply.value)), ValidCard)
    else None
  }

  /** The quiz questions taken from the model, under the quiz filter as written. */
  function ModelQuestions(hasKey: bool, reply: Option<string>, parse: string -> Option<seq<RawQuestion>>)
    : (r: Option<seq<RawQuestion>>)
    ensures r.Some? ==> hasKey && reply.Some? && reply.value != []
    ensures r.Some? ==> r.value != [] && forall q :: q in r.value ==> ValidQuestionAsWritten(q)
  {
    if hasKey && reply.Some? && reply.value != [] then Usable(parse(CleanQuizJson(reply.value)), ValidQuestionAsWritten)
    else None
  }

  /** The flashcards the intended clean-up chain would take from the model. */
  function IntendedModelCards(hasKey: bool, reply: Option<string>, parse: string -> Option<seq<RawCard>>)
    : (r: Option<seq<RawCard>>)
    ensures r.Some? ==> hasKey && reply.Some? && reply.value != []
    ensures r.Some? ==> r.value != [] && forall c :: c in r.value ==> ValidCard(c)
  {
    if hasKey && reply.Some? && reply.value != [] then Usable(parse(IntendedCleanFlashcardJson(reply.value)), ValidCard)
    else None
  }

  /** The quiz questions the intended clean-up chain and the filter with the membership check would take. */
  function IntendedModelQuestions(hasKey: bool, reply: Option<string>, parse: string -> Option<seq<RawQuestion>>)
    : (r: Option<seq<RawQuestion>>)
    ensures r.Some? ==> hasKey && reply.Some? && reply.value != []
    ensures r.Some? ==> r.value != [] && forall q :: q in r.value ==> ValidQuestion(q)
  {
    if hasKey && reply.Some? && reply.value != [] then Usable(parse(IntendedCleanQuizJson(reply.value)), ValidQuestion)
    else None
  }

  /** Under the intended steps every saved model question has four options, one of them its answer. */
  lemma IntendedQuestionsAnswerable(reply: Option<string>, parse: string -> Option<seq<RawQuestion>>,
                                    questionCount: int, quizId: nat)
    requires IntendedModelQuestions(true, reply, parse).Some?
    ensures forall q :: q in IntendedModelQuestions(true, reply, parse).value ==> q.QuestionObject?
    ensures forall row :: row in QuestionRows(IntendedModelQuestions(true, reply, parse).value, questionCount, quizId) ==>
              |row.options| == 4 && row.correctAnswer in row.options
  {
    var parsed := parse(IntendedCleanQuizJson(reply.value));
    assert IntendedModelQuestions(true, reply, parse).value == FilterQuestions(parsed.value);
    RowsAnswerable(parsed.value, questionCount, quizId);
  }

  /**
   * `generateAdvancedFlashcards`: the model's cards when there are any and
   * they save; otherwise the template cards.
   */
  method GenerateAdvancedFlashcards(db: Database, transcript: string, title: string, count: int, difficulty: string,
                                    videoId: nat, hasKey: bool, reply: Option<string>,
                                    parse: string -> Option<seq<RawCard>>)
    returns (r: Result<seq<FlashcardRow>>)
    modifies db
    ensures Flashcards in db.down ==> r == Failure(FlashcardSaveError) && unchanged(db)
    ensures Flashcards !in db.down ==> r.Success? && db.flashcards == old(db.flashcards) + r.value
    ensures r.Success? ==>
              r.value == match ModelCards(hasKey, reply, parse)
                         case Some(cards) => FlashcardRows(cards, count, difficulty, videoId)
                         case None => TemplateRows(Rendered(KeyConcepts(transcript, title)), count, difficulty, videoId)
    ensures r.Success? ==> forall row :: row in r.value ==> row.videoId == videoId && row.difficulty == difficulty
    ensures db.videos == old(db.videos) && db.quizzes == old(db.quizzes) && db.questions == old(db.questions)
    ensures old(db.Valid()) && videoId < |db.videos| ==> db.Valid()
  {
    if hasKey && reply.Some? && reply.value != [] {
      var parsed := parse(CleanFlashcardJson(reply.value));
      if parsed.Some? {
        var valid := FilterFlashcards(parsed.value);
        if valid != [] {
          r := db.SaveFlashcards(valid, count, difficulty, videoId);
          if r.Success? {
            return;
          }
        }
      }
    }
    r := GenerateContentAwareFlashcards(db, transcript, title, count, difficulty, videoId);
  }

  /**
   * The model path of `generateAdvancedQuiz`: the questions the filter keeps
   * from the cleaned, parsed reply, saved by `saveQuiz`.  It fails without a
   * write when there are none.
   */
  method ModelQuiz(db: Database, questionCount: int, difficulty: string, videoId: nat, title: string,
                   reply: Option<string>, parse: string -> Option<seq<RawQuestion>>)
    returns (r: Result<SavedQuiz>)
    modifies db
    ensures ModelQuestions(true, reply, parse).None? ==> r.Failure? && unchanged(db)
    ensures ModelQuestions(true, reply, parse).Some? ==>
              var id := old(|db.quizzes|);
              && (Quizzes in db.down ==> r == Failure(QuizSaveError) && unchanged(db))
              && (Quizzes !in db.down ==> db.quizzes == old(db.quizzes) + [QuizRowOf(videoId, title, questionCount, difficulty)])
              && (Quizzes !in db.down && QuizQuestions in db.down ==> r == Failure(QuestionSaveError))
              && (Quizzes !in db.down && QuizQuestions !in db.down ==>
                    r == Success(SavedQuiz(id, QuestionRows(ModelQuestions(true, reply, parse).value, questionCount, id))))
    ensures r.Failure? ==> db.questions == old(db.questions)
    ensures r.Success? ==>
              && db.questions == old(db.questions) + r.value.quizQuestions
              && forall row :: row in r.value.quizQuestions ==> |row.options| == 4 && row.correctAnswer != []
    ensures r.Success? <==> ModelQuestions(true, reply, parse).Some? && Quizzes !in db.down && QuizQuestions !in db.down
    ensures db.quizzes == old(db.quizzes) + if ModelQuestions(true, reply, parse).Some? && Quizzes !in db.down
                                            then [QuizRowOf(videoId, title, questionCount, difficulty)] else []
    ensures db.videos == old(db.videos) && db.flashcards == old(db.flashcards)
    ensures old(db.Valid()) && videoId < |db.videos| ==> db.Valid()
  {
    if reply.Some? && reply.value != [] {
      var parsed := parse(CleanQuizJson(reply.value));
      if parsed.Some? {
        var valid := FilterQuestionsAsWritten(parsed.value);
        if valid != [] {
          RowsAsWritten(parsed.value, questionCount, |db.quizzes|);
          r := db.SaveQuiz(valid, questionCount, difficulty, videoId, title);
          return;
        }
      }
    }
    r := Failure(NoQuestionsError);
  }

  lemma AppendAppend<T>(a: seq<T>, b: seq<T>, c: seq<T>)
    ensures a + b + c == a + (b + c)
  {
  }

  /**
   * The quiz records `generateAdvancedQuiz` leaves in the table: one for
   * each `saveQuiz` call that gets past the quiz insert.  The model path
   * calls it when there are model questions; the template path runs when
   * the model path did not succeed, and calls it when the difficulty is
   * known.
   */
  function QuizRecordsLeft(modelQuestions: bool, down: set<Table>, levelKnown: bool, q: QuizRow): (rs: seq<QuizRow>)
    ensures forall x :: x in rs ==> x == q
    ensures Quizzes in down ==> rs == []
    ensures |rs| == 2 <==> modelQuestions && Quizzes !in down && QuizQuestions in down && levelKnown
    ensures rs == [] <==> Quizzes in down || (!modelQuestions && !levelKnown)
  {
    if Quizzes in down then []
    else
      var fromModel := if modelQuestions then [q] else [];
      var templateRuns := !(modelQuestions && QuizQuestions !in down);
      fromModel + if templateRuns && levelKnown then [q] else []
  }

  /**
   * `generateAdvancedQuiz`: the model's questions when there are any and
   * they save; otherwise the template quiz.  A failed save of the model's
   * questions can leave its quiz record behind.
   */
  method GenerateAdvancedQuiz(db: Database, transcript: string, title: string, questionCount: int, difficulty: string,
                              videoId: nat, hasKey: bool, reply: Option<string>,
                              parse: string -> Option<seq<RawQuestion>>)
    returns (r: Result<SavedQuiz>)
    modifies db
    ensures Quizzes in db.down ==> r.Failure? && unchanged(db)
    ensures r.Failure? ==> r.error in {ModifierError, QuizSaveError, QuestionSaveError} && db.questions == old(db.questions)
    ensures ModelQuestions(hasKey, reply, parse).Some? && Quizzes !in db.down && QuizQuestions !in db.down ==>
              var id := old(|db.quizzes|);
              r == Success(SavedQuiz(id, QuestionRows(ModelQuestions(hasKey, reply, parse).value, questionCount, id)))
    ensures ModelQuestions(hasKey, reply, parse).None? && r.Success? ==>
              && LevelOf(difficulty).Some?
              && var id := old(|db.quizzes|);
                 r.value == SavedQuiz(id, QuestionRows(AsRaw(ContentAwareQuiz(questionCount, LevelOf(difficulty).value,
                                                                               title, transcript)), questionCount, id))
    ensures r.Success? ==>
              && db.questions == old(db.questions) + r.value.quizQuestions
              && r.value.id < |db.quizzes| && db.quizzes[r.value.id] == QuizRowOf(videoId, title, questionCount, difficulty)
              && forall row :: row in r.value.quizQuestions ==>
                   row.quizId == r.value.id && |row.options| == 4 && row.correctAnswer != []
    ensures ModelQuestions(hasKey, reply, parse).None? && r.Success? ==>
              forall row :: row in r.value.quizQuestions ==> row.correctAnswer in row.options
    ensures r.Success? <==>
              Quizzes !in db.down && QuizQuestions !in db.down
              && (ModelQuestions(hasKey, reply, parse).Some? || LevelOf(difficulty).Some?)
    ensures db.quizzes == old(db.quizzes) + QuizRecordsLeft(ModelQuestions(hasKey, reply, parse).Some?, db.down,
                                                            LevelOf(difficulty).Some?,
                                                            QuizRowOf(videoId, title, questionCount, difficulty))
    ensures db.videos == old(db.videos) && db.flashcards == old(db.flashcards)
    ensures old(db.Valid()) && videoId < |db.videos| ==> db.Valid()
  {
    ghost var row := QuizRowOf(videoId, title, questionCount, difficulty);
    ghost var fromModel: seq<QuizRow> := [];
    if hasKey {
      r := ModelQuiz(db, questionCount, difficulty, videoId, title, reply, parse);
      if r.Success? {
        assert QuizRecordsLeft(true, db.down, LevelOf(difficulty).Some?, row) == [row];
        return;
      }
      fromModel := db.quizzes[|old(db.quizzes)|..];
    }
    ghost var mid := db.quizzes;
    r := GenerateContentAwareQuiz(db, questionCount, difficulty, videoId, title, transcript);
    ghost var fromTemplate := db.quizzes[|mid|..];
    assert QuizRecordsLeft(ModelQuestions(hasKey, reply, parse).Some?, db.down, LevelOf(difficulty).Some?, row)
           == fromModel + fromTemplate;
    AppendAppend(old(db.quizzes), fromModel, fromTemplate);
  }

  /**
   * The `Promise.all` over both generators: each runs to completion, the
   * flashcards first, against the same new video.
   */
  method GenerateBoth(db: Database, transcript: string, title: string, settings: Settings, videoId: nat, gemini: Gemini,
                      parseCards: string -> Option<seq<RawCard>>, parseQuestions: string -> Option<seq<RawQuestion>>)
    returns (flashcards: Result<seq<FlashcardRow>>, quiz: Result<SavedQuiz>)
    modifies db
    ensures Flashcards in db.down <==> flashcards.Failure?
    ensures Flashcards in db.down ==> flashcards == Failure(FlashcardSaveError)
    ensures flashcards.Success? ==>
              && |db.flashcards| == old(|db.flashcards|) + |flashcards.value|
              && forall k :: old(|db.flashcards|) <= k < |db.flashcards| ==>
                   db.flashcards[k].videoId == videoId && db.flashcards[k].difficulty == settings.difficulty
    ensures flashcards.Failure? ==> db.flashcards == old(db.flashcards)
    ensures quiz.Success? ==>
              && db.questions == old(db.questions) + quiz.value.quizQuestions
              && forall row :: row in quiz.value.quizQuestions ==> |row.options| == 4 && row.correctAnswer != []
    ensures ModelQuestions(gemini.hasKey, gemini.quizReply, parseQuestions).None? && quiz.Success? ==>
              forall row :: row in quiz.value.quizQuestions ==> row.correctAnswer in row.options
    ensures quiz.Failure? ==> quiz.error in {ModifierError, QuizSaveError, QuestionSaveError} && db.questions == old(db.questions)
    ensures quiz.Success? <==>
              Quizzes !in db.down && QuizQuestions !in db.down
              && (ModelQuestions(gemini.hasKey, gemini.quizReply, parseQuestions).Some? || LevelOf(settings.difficulty).Some?)
    ensures db.quizzes == old(db.quizzes) + QuizRecordsLeft(ModelQuestions(gemini.hasKey, gemini.quizReply, parseQuestions).Some?,
                                                            db.down, LevelOf(settings.difficulty).Some?,
                                                            QuizRowOf(videoId, title, settings.quizQuestionCount,
                                                                      settings.difficulty))
    ensures db.videos == old(db.videos)
    ensures old(db.Valid()) && videoId < |db.videos| ==> db.Valid()
  {
    flashcards := GenerateAdvancedFlashcards(db, transcript, title, settings.flashcardCount, settings.difficulty, videoId,
                                             gemini.hasKey, gemini.flashcardReply, parseCards);
    quiz := GenerateAdvancedQuiz(db, transcript, title, settings.quizQuestionCount, settings.difficulty, videoId,
                                 gemini.hasKey, gemini.quizReply, parseQuestions);
  }

  /**
   * The handler once the video is saved: both generators run, and the first
   * error among their results, flashcards before quiz, becomes the response.
   */
  method Respond(db: Database, row: VideoRow, videoId: nat, settings: Settings, gemini: Gemini,
                 parseCards: string -> Option<seq<RawCard>>, parseQuestions: string -> Option<seq<RawQuestion>>)
    returns (resp: Response)
    modifies db
    ensures db.videos == old(db.videos)
    ensures db.quizzes == old(db.quizzes) + QuizRecordsLeft(ModelQuestions(gemini.hasKey, gemini.quizReply, parseQuestions).Some?,
                                                            db.down, LevelOf(settings.difficulty).Some?,
                                                            QuizRowOf(videoId, row.title, settings.quizQuestionCount,
                                                                      settings.difficulty))
    ensures resp.Processed? <==>
              && Flashcards !in db.down && Quizzes !in db.down && QuizQuestions !in db.down
              && (ModelQuestions(gemini.hasKey, gemini.quizReply, parseQuestions).Some? || LevelOf(settings.difficulty).Some?)
    ensures Flashcards in db.down ==> resp == Error(FlashcardSaveError)
    ensures Flashcards !in db.down && resp.Error? ==> resp.message in {ModifierError, QuizSaveError, QuestionSaveError}
    ensures resp.Processed? ==>
              && resp.video == row && resp.id == videoId
              && |db.flashcards| == old(|db.flashcards|) + resp.flashcards
              && db.questions == old(db.questions) + resp.quiz.quizQuestions
              && (forall q :: q in resp.quiz.quizQuestions ==> |q.options| == 4 && q.correctAnswer != [])
    ensures resp.Processed? && ModelQuestions(gemini.hasKey, gemini.quizReply, parseQuestions).None? ==>
              forall q :: q in resp.quiz.quizQuestions ==> q.correctAnswer in q.options
    ensures forall k :: old(|db.flashcards|) <= k < |db.flashcards| ==>
              db.flashcards[k].videoId == videoId && db.flashcards[k].difficulty == settings.difficulty
    ensures old(db.Valid()) && videoId < |db.videos| ==> db.Valid()
  {
    var flashcards, quiz := GenerateBoth(db, row.transcript, row.title, settings, videoId, gemini, parseCards,
                                         parseQuestions);
    if flashcards.Failure? {
      return Error(flashcards.error);
    }
    if quiz.Failure? {
      return Error(quiz.error);
    }
    return Processed(row, videoId, |flashcards.value|, quiz.value);
  }

  /** The video record the handler inserts. */
  function VideoRowFor(url: string, id: string, metadata: VideoData, attempts: seq<Attempt>, summary: string)
    : (row: VideoRow)
    ensures row.videoId == id && row.youtubeUrl == url
    ensures |row.transcript| >= 50
    ensures FirstAccepted(attempts).Some? ==> row.transcript == FirstAccepted(attempts).value
    ensures FirstAccepted(attempts).None? ==> row.transcript == FallbackContent(metadata.title, metadata.description)
  {
    EnhancedFallbackUnreachable(attempts, FirstAccepted(attempts), metadata.title, metadata.description);
    VideoRow(id, metadata.title, metadata.description, url,
             TranscriptFor(FirstAccepted(attempts), metadata.title, metadata.description), summary)
  }

  /**
   * The handler's transcript step: the extraction chain, then the filler
   * when the chain finds nothing, then the enhanced filler when the text is
   * still under 50 characters.
   */
  method ResolveTranscript(metadata: VideoData, attempts: seq<Attempt>) returns (transcript: string)
    ensures |transcript| >= 50
    ensures FirstAccepted(attempts).Some? ==> transcript == FirstAccepted(attempts).value
    ensures FirstAccepted(attempts).None? ==> transcript == FallbackContent(metadata.title, metadata.description)
  {
    var chain, _ := ExtractTranscriptRobust(attempts);
    transcript := if chain.Some? then chain.value else FallbackContent(metadata.title, metadata.description);
    if transcript == [] || |transcript| < 50 {
      transcript := EnhancedFallbackContent(metadata.title, metadata.description);
    }
  }

  /**
   * The handler: an unusable URL is refused before anything runs; then the
   * transcript, the video insert, and both generators, whose errors become
   * the response's message.
   */
  method ProcessVideo(db: Database, req: Request, metadata: VideoData, attempts: seq<Attempt>, summary: string,
                      gemini: Gemini, parseCards: string -> Option<seq<RawCard>>,
                      parseQuestions: string -> Option<seq<RawQuestion>>)
    returns (resp: Response)
    modifies db
    ensures VideoIdOf(req.youtubeUrl).None? ==> resp == Error(InvalidUrlError) && unchanged(db)
    ensures VideoIdOf(req.youtubeUrl).Some? && Videos in db.down ==> resp == Error(VideoSaveError) && unchanged(db)
    ensures resp.Processed? ==>
              && VideoIdOf(req.youtubeUrl).Some?
              && resp.video == VideoRowFor(req.youtubeUrl, VideoIdOf(req.youtubeUrl).value, metadata, attempts, summary)
              && resp.id == old(|db.videos|) && db.videos == old(db.videos) + [resp.video]
              && |db.flashcards| == old(|db.flashcards|) + resp.flashcards
              && db.questions == old(db.questions) + resp.quiz.quizQuestions
    ensures resp.Processed? ==>
              forall row :: row in resp.quiz.quizQuestions ==> |row.options| == 4 && row.correctAnswer != []
    ensures resp.Processed? && ModelQuestions(gemini.hasKey, gemini.quizReply, parseQuestions).None? ==>
              forall row :: row in resp.quiz.quizQuestions ==> row.correctAnswer in row.options
    ensures VideoIdOf(req.youtubeUrl).Some? && Videos !in db.down ==>
              var settings := SettingsOf(req);
              var modelQuestions := ModelQuestions(gemini.hasKey, gemini.quizReply, parseQuestions).Some?;
              && db.videos == old(db.videos)
                              + [VideoRowFor(req.youtubeUrl, VideoIdOf(req.youtubeUrl).value, metadata, attempts, summary)]
              && db.quizzes == old(db.quizzes)
                               + QuizRecordsLeft(modelQuestions, db.down, LevelOf(settings.difficulty).Some?,
                                                 QuizRowOf(old(|db.videos|), metadata.title, settings.quizQuestionCount,
                                                           settings.difficulty))
              && (resp.Processed? <==>
                    && Flashcards !in db.down && Quizzes !in db.down && QuizQuestions !in db.down
                    && (modelQuestions || LevelOf(settings.difficulty).Some?))
              && (Flashcards in db.down ==> resp == Error(FlashcardSaveError))
              && (Flashcards !in db.down && resp.Error? ==>
                    resp.message in {ModifierError, QuizSaveError, QuestionSaveError})
    ensures forall k :: old(|db.flashcards|) <= k < |db.flashcards| ==>
              db.flashcards[k].videoId == old(|db.videos|) && db.flashcards[k].difficulty == SettingsOf(req).difficulty
    ensures old(db.Valid()) ==> db.Valid()
  {
    var settings := SettingsOf(req);
    var videoId := ExtractVideoId(req.youtubeUrl);
    if videoId.None? {
      return Error(InvalidUrlError);
    }
    var transcript := ResolveTranscript(metadata, attempts);
    var row := VideoRow(videoId.value, metadata.title, metadata.description, req.youtubeUrl, transcript, summary);
    assert row == VideoRowFor(req.youtubeUrl, videoId.value, metadata, attempts, summary);
    var saved := db.InsertVideo(row);
    if saved.Failure? {
      return Error(saved.error);
    }
    resp := Respond(db, row, saved.value, settings, gemini, parseCards, parseQuestions);
  }
}
