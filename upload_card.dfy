/**
 * The upload card of frontend/components/UploadCard.jsx: it validates the
 * picked file, and on "Run Detection" calls the page's `onUploadStart`,
 * posts the file and hands the outcome to `onUploadComplete`.
 *
 * The request itself is not modelled: its outcome is a parameter. The
 * card's two state hooks are the fields of an `UploadCard` object; its
 * optional callbacks are the page they belong to, null when none is given.
 */
module UploadCard {
  import opened Common
  import opened Page

  const INVALID_FILE_ERROR: string := "Please select a valid video file (MP4, MOV, AVI, etc.)."
  const NO_FILE_ERROR: string := "Please choose a video file first."
  const PROCESSING_FAILED_ERROR: string := "Failed to process video."
  const UNEXPECTED_ERROR: string := "Unexpected error while uploading."

  /** The card accepts a file whose MIME type starts with "video/". */
  predicate IsVideoFile(f: VideoFile) {
    StartsWith(f.mimeType, "video/")
  }

  /** How the request to `/upload-video` ended. */
  datatype FetchOutcome =
      /** An ok response; its JSON body, None when that body is null. */
    | Completed(data: Option<UploadResult>)
      /** A response that is not ok; the `error` field of its body, None when missing or unreadable. */
    | Rejected(error: Option<string>)
      /** The request or the reading of its body threw, with this message. */
    | Threw(message: string)

  /** The message the card shows once the request has ended. */
  function UploadError(outcome: FetchOutcome): (r: string)
    ensures r == "" <==> outcome.Completed?
    ensures outcome.Rejected? && outcome.error.Some? && outcome.error.value != "" ==> r == outcome.error.value
    ensures outcome.Rejected? && (outcome.error.None? || outcome.error == Some("")) ==> r == PROCESSING_FAILED_ERROR
    ensures outcome.Threw? && outcome.message != "" ==> r == outcome.message
    ensures outcome.Threw? && outcome.message == "" ==> r == UNEXPECTED_ERROR
  {
    match outcome
    case Completed(_) => ""
    case Rejected(error) =>
      // the message of the Error thrown on a non-ok response is never empty
      if error.Some? && error.value != "" then error.value else PROCESSING_FAILED_ERROR
    case Threw(message) => if message != "" then message else UNEXPECTED_ERROR
  }

  /** The object the card hands to the page after a failure. */
  const FAILED_RESULT := NO_FIELDS.(accident := Some(false), confidence := Some(0.0), boxes := Some([]))

  /** The result `onUploadComplete` receives for an outcome. */
  function DeliveredResult(outcome: FetchOutcome): (r: Option<UploadResult>)
    ensures outcome.Completed? ==> r == outcome.data
    ensures !outcome.Completed? ==> r == Some(FAILED_RESULT)
  {
    if outcome.Completed? then outcome.data else Some(FAILED_RESULT)
  }

  /**
   * A failed upload leaves the page with its new video, an empty result and
   * no accident, and not loading, whatever it showed before.
   */
  lemma FailedUploadLeavesPageEmpty(s: PageState, videoUrl: string, outcome: FetchOutcome)
    requires !outcome.Completed?
    ensures var p := UploadCompleted(UploadStarted(s), Some(videoUrl), DeliveredResult(outcome));
      NoResult(p) && !p.loading && p.videoUrl == Some(videoUrl)
  {
  }

  class UploadCard {
    var file: Option<VideoFile>
    var error: string
    const page: Home?

    /** The card only ever holds a video file. */
    predicate Valid()
      reads this
    {
      file.Some? ==> IsVideoFile(file.value)
    }

    constructor (page: Home?)
      ensures Valid() && this.page == page
      ensures file.None? && error == ""
    {
      this.page := page;
      file, error := None, "";
    }

    /** `handleFileChange`, with `selected` the first picked file, None when none is. */
    method HandleFileChange(selected: Option<VideoFile>)
      modifies this
      ensures Valid()
      ensures selected.None? ==> file.None? && error == old(error)
      ensures selected.Some? && !IsVideoFile(selected.value) ==> file.None? && error == INVALID_FILE_ERROR
      ensures selected.Some? && IsVideoFile(selected.value) ==> file == selected && error == ""
    {
      if selected.None? {
        file := None;
        return;
      }
      if !IsVideoFile(selected.value) {
        error := INVALID_FILE_ERROR;
        file := None;
        return;
      }
      error := "";
      file := selected;
    }

    /**
     * `handleUpload` up to its first `await`. Without a file it only reports
     * that one is needed. With one it clears the error and starts the page's
     * upload. It returns the file the handler captured, None when there is none.
     */
    method StartUpload() returns (captured: Option<VideoFile>)
      requires Valid()
      modifies this, page
      ensures Valid() && file == old(file) && captured == old(file)
      ensures captured.None? ==> error == NO_FILE_ERROR
      ensures captured.None? && page != null ==> page.State() == old(page.State())
      ensures captured.Some? ==> error == ""
      ensures captured.Some? && page != null ==> page.State() == UploadStarted(old(page.State()))
    {
      captured := file;
      if file.None? {
        error := NO_FILE_ERROR;
        return;
      }
      error := "";
      if page != null {
        page.HandleUploadStart();
      }
    }

    /**
     * `handleUpload` once the request has ended with `outcome`. `captured` is
     * the file the handler captured when it started; `handleFileChange` may
     * have run meanwhile, so the card's current file plays no part and is
     * left as it is. A failure shows its error; a success leaves the error
     * alone. The page's upload completes with the captured file (`objectUrl`
     * is the object URL made for it) and the delivered result.
     */
    method FinishUpload(captured: VideoFile, outcome: FetchOutcome, objectUrl: string)
      requires Valid()
      modifies this, page
      ensures Valid() && file == old(file)
      ensures error == if outcome.Completed? then old(error) else UploadError(outcome)
      ensures page != null ==>
        page.State() == UploadCompleted(old(page.State()), Some(objectUrl), DeliveredResult(outcome))
    {
      if outcome.Completed? {
        if page != null {
          page.HandleUploadComplete(Some(captured), outcome.data, objectUrl);
        }
      } else {
        error := UploadError(outcome);
        if page != null {
          page.HandleUploadComplete(Some(captured), Some(FAILED_RESULT), objectUrl);
        }
      }
    }

    /**
     * `handleUpload` run through with no other handler of the card running
     * while the request is pending.
     */
    method HandleUpload(outcome: FetchOutcome, objectUrl: string)
      requires Valid()
      modifies this, page
      ensures Valid() && file == old(file)
      ensures old(file).None? ==> error == NO_FILE_ERROR
      ensures old(file).None? && page != null ==> page.State() == old(page.State())
      ensures old(file).Some? ==> error == UploadError(outcome)
      ensures old(file).Some? && page != null ==>
        page.State() == UploadCompleted(UploadStarted(old(page.State())), Some(objectUrl), DeliveredResult(outcome))
    {
      var captured := StartUpload();
      if captured.Some? {
        FinishUpload(captured.value, outcome, objectUrl);
      }
    }

    /**
     * `handleUpload` with the user picking `selected` while the request is
     * pending (only the button is disabled meanwhile, not the file input).
     * The page still completes with the file captured at the click, and a
     * successful request leaves the error that the pick set.
     */
    method HandleUploadWithFileChange(selected: Option<VideoFile>, outcome: FetchOutcome, objectUrl: string)
      requires Valid()
      modifies this, page
      ensures Valid()
      ensures old(file).Some? && selected.Some? && IsVideoFile(selected.value) ==> file == selected
      ensures old(file).Some? && (selected.None? || !IsVideoFile(selected.value)) ==> file.None?
      ensures old(file).Some? && page != null ==>
        page.State() == UploadCompleted(UploadStarted(old(page.State())), Some(objectUrl), DeliveredResult(outcome))
      ensures old(file).Some? && outcome.Completed? && selected.Some? && !IsVideoFile(selected.value) ==>
        error == INVALID_FILE_ERROR
      ensures old(file).Some? && !outcome.Completed? ==> error == UploadError(outcome)
      ensures old(file).Some? && outcome.Completed? && (selected.None? || IsVideoFile(selected.value)) ==> error == ""
      ensures old(file).None? ==> file.None? && error == NO_FILE_ERROR
      ensures old(file).None? && page != null ==> page.State() == old(page.State())
    {
      var captured := StartUpload();
      if captured.Some? {
        HandleFileChange(selected);
        FinishUpload(captured.value, outcome, objectUrl);
      }
    }
  }
}
