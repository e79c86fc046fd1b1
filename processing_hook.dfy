/**
 * The `useVideoProcessing` hook: the request body built from the caller's
 * options, and the `isProcessing` / `processedVideo` state around the call
 * to the edge function.  The call itself is an input: what it returned, or
 * the error it threw.
 */
module ProcessingHook {
  import opened Wrappers
  import opened Text

  /** The options a caller passes; a field is `None` when it is left out. */
  datatype Options = Options(flashcardCount: Option<int>, quizQuestionCount: Option<int>, difficulty: Option<string>)

  /** The body sent to the edge function. */
  datatype Body = Body(youtubeUrl: string, flashcardCount: int, quizQuestionCount: int, difficulty: string)

  /** What the page reads from a successful response: the video id, the flashcard count and the saved question count. */
  datatype ResponseData = ResponseData(videoId: nat, flashcards: nat, quizQuestions: nat)

  /** The edge function call: the response data, or the error thrown with its message. */
  datatype Invoked = Invoked(data: ResponseData) | InvokeFailed(message: string)

  datatype Toast = Toast(title: string, description: string, destructive: bool)

  /** `x || d` on a number option: a missing option or 0 gives the default. */
  function CountOr(o: Option<int>, d: int): (r: int)
    ensures o.Some? && o.value != 0 ==> r == o.value
    ensures o.None? || o.value == 0 ==> r == d
  {
    if o.Some? && o.value != 0 then o.value else d
  }

  /** `x ?? d` on a number option: only a missing option gives the default. */
  function CountOrMissing(o: Option<int>, d: int): (r: int)
    ensures o.Some? ==> r == o.value
    ensures o.None? ==> r == d
  {
    if o.Some? then o.value else d
  }

  /** `x || d` on a string option: a missing or empty option gives the default. */
  function TextOr(o: Option<string>, d: string): (r: string)
    ensures o.Some? && o.value != [] ==> r == o.value
    ensures o.None? || o.value == [] ==> r == d
  {
    if o.Some? && o.value != [] then o.value else d
  }

  /** The body as written: `options?.x || default` on every field. */
  function BodyAsWritten(url: string, options: Option<Options>): (b: Body)
    ensures b.youtubeUrl == url
    ensures options.None? ==> b == Body(url, 15, 10, "medium")
    ensures options.Some? ==>
              && b.flashcardCount == CountOr(options.value.flashcardCount, 15)
              && b.quizQuestionCount == CountOr(options.value.quizQuestionCount, 10)
              && b.difficulty == TextOr(options.value.difficulty, "medium")
  {
    if options.None? then Body(url, 15, 10, "medium")
    else Body(url, CountOr(options.value.flashcardCount, 15), CountOr(options.value.quizQuestionCount, 10),
              TextOr(options.value.difficulty, "medium"))
  }

  /** The body with the counts defaulted only when missing, so that an explicit 0 is sent as 0. */
  function BodyOf(url: string, options: Option<Options>): (b: Body)
    ensures b.youtubeUrl == url
    ensures options.None? ==> b == Body(url, 15, 10, "medium")
    ensures options.Some? && options.value.flashcardCount.Some? ==> b.flashcardCount == options.value.flashcardCount.value
    ensures options.Some? && options.value.quizQuestionCount.Some? ==>
              b.quizQuestionCount == options.value.quizQuestionCount.value
    ensures options.Some? ==> b.difficulty == TextOr(options.value.difficulty, "medium")
  {
    if options.None? then Body(url, 15, 10, "medium")
    else Body(url, CountOrMissing(options.value.flashcardCount, 15), CountOrMissing(options.value.quizQuestionCount, 10),
              TextOr(options.value.difficulty, "medium"))
  }

  /**
   * The two bodies differ exactly where a count is given as 0: the body as
   * written then asks for 15 flashcards or 10 questions.
   */
  lemma ExplicitZeroReplaced(url: string, options: Options)
    ensures BodyAsWritten(url, Some(options)).difficulty == BodyOf(url, Some(options)).difficulty
    ensures options.flashcardCount == Some(0) ==>
              BodyAsWritten(url, Some(options)).flashcardCount == 15 && BodyOf(url, Some(options)).flashcardCount == 0
    ensures options.quizQuestionCount == Some(0) ==>
              BodyAsWritten(url, Some(options)).quizQuestionCount == 10 && BodyOf(url, Some(options)).quizQuestionCount == 0
    ensures options.flashcardCount != Some(0) && options.quizQuestionCount != Some(0) ==>
              BodyAsWritten(url, Some(options)) == BodyOf(url, Some(options))
  {
  }

  const SuccessTitle: string := "Video processed successfully!"
  const FailureTitle: string := "Processing failed"
  const FailureFallback: string := "Failed to process video"

  /** The success description as written: it reads `quiz.questions`, which the response does not have, so 0. */
  function SuccessDescriptionAsWritten(data: ResponseData): (d: string)
    ensures d == SuccessDescription(data.(quizQuestions := 0))
  {
    "Generated " + IntToString(data.flashcards) + " flashcards and " + IntToString(0) + " quiz questions"
  }

  /** The success description reporting the number of saved questions. */
  function SuccessDescription(data: ResponseData): (d: string)
    ensures StartsWith(d, "Generated " + IntToString(data.flashcards) + " flashcards and ")
    ensures ContainsAt(d, IntToString(data.quizQuestions), |"Generated " + IntToString(data.flashcards) + " flashcards and "|)
    ensures EndsWith(d, " quiz questions")
  {
    var lead := "Generated " + IntToString(data.flashcards) + " flashcards and ";
    ConcatThree(lead, IntToString(data.quizQuestions), " quiz questions");
    lead + IntToString(data.quizQuestions) + " quiz questions"
  }

  /** With ten saved questions the description as written still reports none. */
  lemma TenQuestionsReportedAsZero(videoId: nat, flashcards: nat)
    ensures var data := ResponseData(videoId, flashcards, 10);
            SuccessDescriptionAsWritten(data) != SuccessDescription(data)
  {
    var data := ResponseData(videoId, flashcards, 10);
    assert IntToString(10) == NatToString(1) + [DigitChar(0)];
    assert |IntToString(10)| == 2;
    assert |IntToString(0)| == 1;
    assert |SuccessDescription(data)| == |SuccessDescription(data.(quizQuestions := 0))| + 1;
  }

  /** The error toast's description: the message, or the fallback text when it is empty. */
  function FailureToast(message: string): (t: Toast)
    ensures t.destructive && t.title == FailureTitle
    ensures message != [] ==> t.description == message
    ensures message == [] ==> t.description == FailureFallback
  {
    Toast(FailureTitle, if message != [] then message else FailureFallback, true)
  }

  /** The hook's state. */
  class Processor {
    var isProcessing: bool
    var processedVideo: Option<ResponseData>
    var toasts: seq<Toast>

    constructor ()
      ensures !isProcessing && processedVideo.None? && toasts == []
    {
      isProcessing, processedVideo, toasts := false, None, [];
    }

    /** The part of `processVideo` before the call: the flags, then the body. */
    method Start(url: string, options: Option<Options>) returns (body: Body)
      modifies this
      ensures isProcessing && processedVideo.None? && toasts == old(toasts)
      ensures body == BodyAsWritten(url, options)
    {
      isProcessing := true;
      processedVideo := None;
      body := BodyAsWritten(url, options);
    }

    /**
     * The part after the call: on success the response is stored and
     * returned; on error the error toast is shown and the error rethrown.
     * Either way `isProcessing` ends false.
     */
    method Finish(outcome: Invoked) returns (r: Result<ResponseData>)
      modifies this
      ensures !isProcessing
      ensures outcome.Invoked? ==>
                && r == Success(outcome.data) && processedVideo == Some(outcome.data)
                && toasts == old(toasts) + [Toast(SuccessTitle, SuccessDescriptionAsWritten(outcome.data), false)]
      ensures outcome.InvokeFailed? ==>
                && r == Failure(outcome.message) && processedVideo == old(processedVideo)
                && toasts == old(toasts) + [FailureToast(outcome.message)]
    {
      if outcome.InvokeFailed? {
        toasts := toasts + [FailureToast(outcome.message)];
        r := Failure(outcome.message);
      } else {
        processedVideo := Some(outcome.data);
        toasts := toasts + [Toast(SuccessTitle, SuccessDescriptionAsWritten(outcome.data), false)];
        r := Success(outcome.data);
      }
      isProcessing := false;
    }

    /**
     * `processVideo` run to completion: the body it sent, what it returned
     * or rethrew, `processedVideo` holding the response only on success.
     */
    method ProcessVideo(url: string, options: Option<Options>, outcome: Invoked) returns (body: Body, r: Result<ResponseData>)
      modifies this
      ensures body == BodyAsWritten(url, options)
      ensures !isProcessing
      ensures outcome.Invoked? ==> r == Success(outcome.data)
      ensures outcome.InvokeFailed? ==> r == Failure(outcome.message)
      ensures processedVideo == if outcome.Invoked? then Some(outcome.data) else None
      ensures toasts == old(toasts) + [if outcome.Invoked? then Toast(SuccessTitle, SuccessDescriptionAsWritten(outcome.data), false)
                                       else FailureToast(outcome.message)]
    {
      body := Start(url, options);
      r := Finish(outcome);
    }
  }
}
