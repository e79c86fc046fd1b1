/**
 * The index page's submit handler: the empty-input guard, the URL
 * validator, the call through the processing hook, the follow-up fetch of
 * the saved video, and the state it updates.  What the edge function and
 * the fetch return are inputs.
 */
module IndexPage {
  import opened Wrappers
  import opened Text
  import opened UrlValidation
  import opened ProcessingHook

  /** What `fetchVideoData` returns for a saved video. */
  datatype VideoBundle = VideoBundle(videoId: nat, flashcards: nat, quizzes: nat)

  const EmptyUrlToast: Toast := Toast("Error", "Please enter a YouTube URL", true)
  const InvalidUrlToast: Toast := Toast("Invalid URL", "Please enter a valid YouTube URL (youtube.com or youtu.be)", true)

  /** How far `handleSubmit` got. */
  datatype Stage = RejectedEmpty | RejectedInvalid | Sent(body: Body)

  /** The toast the hook shows for the outcome of its call. */
  function HookToast(outcome: Invoked): (t: Toast)
    ensures t.destructive <==> outcome.InvokeFailed?
    ensures outcome.Invoked? ==> t == Toast(SuccessTitle, SuccessDescriptionAsWritten(outcome.data), false)
    ensures outcome.InvokeFailed? ==> t == FailureToast(outcome.message)
  {
    if outcome.Invoked? then Toast(SuccessTitle, SuccessDescriptionAsWritten(outcome.data), false)
    else FailureToast(outcome.message)
  }

  /** The page's state and its hook instance. */
  class Page {
    var youtubeUrl: string
    var videoData: Option<VideoBundle>
    var flashcardCount: int
    var quizQuestionCount: int
    var difficulty: string
    var toasts: seq<Toast>
    const hook: Processor

    constructor ()
      ensures youtubeUrl == "" && videoData.None? && toasts == []
      ensures flashcardCount == 15 && quizQuestionCount == 10 && difficulty == "medium"
      ensures fresh(hook) && !hook.isProcessing
    {
      youtubeUrl, videoData, toasts := "", None, [];
      flashcardCount, quizQuestionCount, difficulty := 15, 10, "medium";
      hook := new Processor();
    }

    /** The settings the page passes to `processVideo`. */
    function CurrentOptions(): (o: Options)
      reads this
      ensures o.flashcardCount == Some(flashcardCount) && o.quizQuestionCount == Some(quizQuestionCount)
      ensures o.difficulty == Some(difficulty)
    {
      Options(Some(flashcardCount), Some(quizQuestionCount), Some(difficulty))
    }

    /**
     * The part of `handleSubmit` after the guards: the hook sends the body,
     * and only when both the call and the fetch of the returned video
     * succeed is the data shown and the input cleared.
     */
    method Send(outcome: Invoked, fetch: nat -> Result<VideoBundle>) returns (body: Body)
      modifies this, hook
      ensures body == BodyAsWritten(old(youtubeUrl), Some(old(CurrentOptions())))
      ensures !hook.isProcessing && toasts == old(toasts)
      ensures hook.processedVideo == if outcome.Invoked? then Some(outcome.data) else None
      ensures hook.toasts == old(hook.toasts) + [HookToast(outcome)]
      ensures outcome.Invoked? && fetch(outcome.data.videoId).Success? ==>
                videoData == Some(fetch(outcome.data.videoId).value) && youtubeUrl == ""
      ensures !(outcome.Invoked? && fetch(outcome.data.videoId).Success?) ==>
                videoData == old(videoData) && youtubeUrl == old(youtubeUrl)
      ensures flashcardCount == old(flashcardCount) && quizQuestionCount == old(quizQuestionCount)
      ensures difficulty == old(difficulty)
    {
      var result;
      body, result := hook.ProcessVideo(youtubeUrl, Some(CurrentOptions()), outcome);
      if result.Failure? {
        return;
      }
      assert result.value == outcome.data;
      var data := fetch(result.value.videoId);
      if data.Failure? {
        return;
      }
      videoData := Some(data.value);
      youtubeUrl := "";
    }

    /**
     * `handleSubmit`: input that is blank after trimming is refused first,
     * then a URL the validator rejects, each with its toast and without a
     * call; otherwise the body is sent as `Send` describes.
     */
    method HandleSubmit(outcome: Invoked, fetch: nat -> Result<VideoBundle>) returns (stage: Stage)
      modifies this, hook
      ensures Trim(old(youtubeUrl)) == [] ==> stage == RejectedEmpty && toasts == old(toasts) + [EmptyUrlToast]
      ensures Trim(old(youtubeUrl)) != [] && !ValidateYouTubeUrl(old(youtubeUrl)) ==>
                stage == RejectedInvalid && toasts == old(toasts) + [InvalidUrlToast]
      ensures !stage.Sent? ==> unchanged(hook) && youtubeUrl == old(youtubeUrl) && videoData == old(videoData)
      ensures Trim(old(youtubeUrl)) != [] && ValidateYouTubeUrl(old(youtubeUrl)) ==>
                && stage == Sent(BodyAsWritten(old(youtubeUrl), Some(old(CurrentOptions()))))
                && !hook.isProcessing && toasts == old(toasts)
                && hook.processedVideo == (if outcome.Invoked? then Some(outcome.data) else None)
                && hook.toasts == old(hook.toasts) + [HookToast(outcome)]
      ensures stage.Sent? && outcome.Invoked? && fetch(outcome.data.videoId).Success? ==>
                videoData == Some(fetch(outcome.data.videoId).value) && youtubeUrl == ""
      ensures !(stage.Sent? && outcome.Invoked? && fetch(outcome.data.videoId).Success?) ==>
                videoData == old(videoData) && youtubeUrl == old(youtubeUrl)
      ensures flashcardCount == old(flashcardCount) && quizQuestionCount == old(quizQuestionCount)
      ensures difficulty == old(difficulty)
    {
      if Trim(youtubeUrl) == [] {
        toasts := toasts + [EmptyUrlToast];
        return RejectedEmpty;
      }
      if !ValidateYouTubeUrl(youtubeUrl) {
        toasts := toasts + [InvalidUrlToast];
        return RejectedInvalid;
      }
      var body := Send(outcome, fetch);
      stage := Sent(body);
    }
  }

  /** A URL with a leading space passes the blank check but not the anchored validator. */
  lemma LeadingSpaceRejected(url: string)
    ensures !ValidateYouTubeUrl(" " + url)
  {
    ValidateIff(" " + url);
    forall s, h, p | s in Schemes && h in Hosts && p in Shapes ensures !LeadThenId(" " + url, s + h + p) {
      assert s[0] == 'h';
      assert (s + h + p)[0] == 'h';
    }
  }
}
