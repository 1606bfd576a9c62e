/**
 * The dashboard page of frontend/pages/index.jsx: its result state, the two
 * upload callbacks that reset and fill it, the alert's dismiss action and
 * the downloadable report.
 *
 * The page's `useState` hooks are the fields of a `Home` object; each setter
 * call is an assignment to one field. `State()` gives the fields as one
 * `PageState` value, and each handler is proved to move that value by a pure
 * transition function.
 */
module Page {
  import opened Common
  import opened Order
  import opened DetectionPlayer
  import Aggregation

  /** A file the user picked: its name and its MIME type. */
  datatype VideoFile = VideoFile(name: string, mimeType: string)

  /**
   * The JSON object `handleUploadComplete` receives. A field is None when
   * it is missing or null.
   */
  datatype UploadResult = UploadResult(
    boxes: Option<seq<Detection>>,
    accident: Option<bool>,
    confidence: Option<real>,
    accidentTime: Option<real>,
    accidentType: Option<string>,
    objectsInvolved: Option<seq<string>>,
    severity: Option<string>,
    videoDuration: Option<real>,
    timelineMarkers: Option<seq<real>>)

  /** A result object with no fields at all. */
  const NO_FIELDS := UploadResult(None, None, None, None, None, None, None, None, None)

  /** The page's state hooks, read together. */
  datatype PageState = PageState(
    videoUrl: Option<string>,
    detections: seq<Detection>,
    accident: bool,
    confidence: real,
    loading: bool,
    accidentTime: Option<real>,
    accidentType: string,
    objectsInvolved: seq<string>,
    severity: string,
    videoDuration: real,
    timelineMarkers: seq<real>)

  /** Every result field holds its empty default. */
  predicate NoResult(s: PageState) {
    && s.detections == []
    && !s.accident
    && s.confidence == 0.0
    && s.accidentTime.None?
    && s.accidentType == ""
    && s.objectsInvolved == []
    && s.severity == ""
    && s.videoDuration == 0.0
    && s.timelineMarkers == []
  }

  /** The state hooks' initial values. */
  const INITIAL_STATE := PageState(None, [], false, 0.0, false, None, "", [], "", 0.0, [])

  /** `handleUploadStart`: loading, with every result field reset and the video kept. */
  function UploadStarted(s: PageState): (r: PageState)
    ensures r.loading && NoResult(r)
    ensures r.videoUrl == s.videoUrl
  {
    s.(loading := true, accident := false, confidence := 0.0, detections := [], accidentTime := None,
       accidentType := "", objectsInvolved := [], severity := "", videoDuration := 0.0, timelineMarkers := [])
  }

  /**
   * `handleUploadComplete`: the video URL is replaced only when a file came
   * with the result (`newVideoUrl` is the object URL made for it); every
   * result field is taken from the result, or falls back to its default
   * when the field (or the whole result) is missing; loading ends.
   */
  function UploadCompleted(s: PageState, newVideoUrl: Option<string>, result: Option<UploadResult>): (r: PageState)
    ensures !r.loading
    ensures r.videoUrl == if newVideoUrl.Some? then newVideoUrl else s.videoUrl
    ensures result.None? ==> NoResult(r)
    ensures var f := result.GetOr(NO_FIELDS);
      && (f.boxes.None? ==> r.detections == []) && (f.boxes.Some? ==> r.detections == f.boxes.value)
      && (f.accident.None? ==> !r.accident) && (f.accident.Some? ==> r.accident == f.accident.value)
      && (f.confidence.None? ==> r.confidence == 0.0) && (f.confidence.Some? ==> r.confidence == f.confidence.value)
      && r.accidentTime == f.accidentTime
      && (f.accidentType.None? ==> r.accidentType == "") && (f.accidentType.Some? ==> r.accidentType == f.accidentType.value)
      && (f.objectsInvolved.None? ==> r.objectsInvolved == [])
      && (f.objectsInvolved.Some? ==> r.objectsInvolved == f.objectsInvolved.value)
      && (f.severity.None? ==> r.severity == "") && (f.severity.Some? ==> r.severity == f.severity.value)
      && (f.videoDuration.None? ==> r.videoDuration == 0.0)
      && (f.videoDuration.Some? ==> r.videoDuration == f.videoDuration.value)
      && (f.timelineMarkers.None? ==> r.timelineMarkers == [])
      && (f.timelineMarkers.Some? ==> r.timelineMarkers == f.timelineMarkers.value)
  {
    var fields := result.GetOr(NO_FIELDS);
    PageState(
      videoUrl := if newVideoUrl.Some? then newVideoUrl else s.videoUrl,
      detections := fields.boxes.GetOr([]),
      accident := fields.accident.GetOr(false),
      confidence := fields.confidence.GetOr(0.0),
      loading := false,
      accidentTime := fields.accidentTime,
      accidentType := fields.accidentType.GetOr(""),
      objectsInvolved := fields.objectsInvolved.GetOr([]),
      severity := fields.severity.GetOr(""),
      videoDuration := fields.videoDuration.GetOr(0.0),
      timelineMarkers := fields.timelineMarkers.GetOr([]))
  }

  /**
   * A completed upload shows nothing of the state before it but the video:
   * whatever `handleUploadStart` reset is overwritten field by field.
   */
  lemma CompletionOverwritesResult(s: PageState, s': PageState, newVideoUrl: Option<string>, result: Option<UploadResult>)
    requires s.videoUrl == s'.videoUrl
    ensures UploadCompleted(UploadStarted(s), newVideoUrl, result) == UploadCompleted(s', newVideoUrl, result)
  {
  }

  /** An accident time of 0 is kept: only a missing one becomes null. */
  lemma ZeroAccidentTimeKept(s: PageState, newVideoUrl: Option<string>, result: UploadResult)
    requires result.accidentTime == Some(0.0)
    ensures UploadCompleted(s, newVideoUrl, Some(result)).accidentTime == Some(0.0)
  {
  }

  /** The report the Download button saves. */
  datatype DownloadedReport = DownloadedReport(
    accident: bool,
    confidence: real,
    accidentTime: Option<real>,
    accidentType: string,
    objectsInvolved: seq<string>,
    severity: string,
    videoDuration: real,
    timelineMarkers: seq<real>)

  /**
   * The downloadable report, None when the button is not shown (no
   * detections). It always claims an accident, whatever the backend said;
   * its other fields are the page's.
   */
  function DownloadReport(s: PageState): (r: Option<DownloadedReport>)
    ensures r.Some? <==> s.detections != []
    ensures r.Some? ==> r.value.accident
    ensures r.Some? ==>
      && r.value.confidence == s.confidence
      && r.value.accidentTime == s.accidentTime
      && r.value.accidentType == s.accidentType
      && r.value.objectsInvolved == s.objectsInvolved
      && r.value.severity == s.severity
      && r.value.videoDuration == s.videoDuration
      && r.value.timelineMarkers == s.timelineMarkers
  {
    if s.detections == [] then None
    else Some(DownloadedReport(
      accident := true,  // the page's display flag, fixed to true
      confidence := s.confidence,
      accidentTime := s.accidentTime,
      accidentType := s.accidentType,
      objectsInvolved := s.objectsInvolved,
      severity := s.severity,
      videoDuration := s.videoDuration,
      timelineMarkers := s.timelineMarkers))
  }

  /** The component `Home`, with one field per state hook. */
  class Home {
    var videoUrl: Option<string>
    var detections: seq<Detection>
    var accident: bool
    var confidence: real
    var loading: bool
    var accidentTime: Option<real>
    var accidentType: string
    var objectsInvolved: seq<string>
    var severity: string
    var videoDuration: real
    var timelineMarkers: seq<real>

    function State(): PageState
      reads this
    {
      PageState(videoUrl, detections, accident, confidence, loading, accidentTime,
                accidentType, objectsInvolved, severity, videoDuration, timelineMarkers)
    }

    constructor ()
      ensures State() == INITIAL_STATE
    {
      videoUrl, detections, accident, confidence, loading := None, [], false, 0.0, false;
      accidentTime, accidentType, objectsInvolved, severity := None, "", [], "";
      videoDuration, timelineMarkers := 0.0, [];
    }

    method HandleUploadStart()
      modifies this
      ensures State() == UploadStarted(old(State()))
    {
      loading := true;
      accident := false;
      confidence := 0.0;
      detections := [];
      accidentTime := None;
      accidentType := "";
      objectsInvolved := [];
      severity := "";
      videoDuration := 0.0;
      timelineMarkers := [];
    }

    /**
     * `objectUrl` stands for what `URL.createObjectURL` returns for the
     * file; it is used only when a file is given.
     */
    method HandleUploadComplete(file: Option<VideoFile>, result: Option<UploadResult>, objectUrl: string)
      modifies this
      ensures State() == UploadCompleted(old(State()), if file.Some? then Some(objectUrl) else None, result)
    {
      if file.Some? {
        videoUrl := Some(objectUrl);
      }
      var fields := if result.Some? then result.value else NO_FIELDS;
      detections := fields.boxes.GetOr([]);
      accident := fields.accident.GetOr(false);
      confidence := fields.confidence.GetOr(0.0);
      accidentTime := fields.accidentTime;
      accidentType := fields.accidentType.GetOr("");
      objectsInvolved := fields.objectsInvolved.GetOr([]);
      severity := fields.severity.GetOr("");
      videoDuration := fields.videoDuration.GetOr(0.0);
      timelineMarkers := fields.timelineMarkers.GetOr([]);
      loading := false;
    }

    /** The alert modal's `onClose`: the accident flag drops, nothing else moves. */
    method CloseAlert()
      modifies this
      ensures State() == old(State()).(accident := false)
    {
      accident := false;
    }
  }

  // ---------------------------------------------------------------------------
  // The page showing a reply of `/upload-video`

  /** The JSON body of a backend reply, as the page reads it. */
  function ResultOf(report: Aggregation.Report): (r: UploadResult)
    ensures r.boxes.Some? && |r.boxes.value| == |report.boxes|
    ensures forall i :: 0 <= i < |report.boxes| ==>
      r.boxes.value[i].confidence == report.boxes[i].confidence &&
      r.boxes.value[i].timestamp == Some(report.boxes[i].timestamp)
  {
    UploadResult(
      boxes := Some(seq(|report.boxes|, i requires 0 <= i < |report.boxes| =>
        var b := report.boxes[i];
        Detection(b.x1, b.y1, b.x2, b.y2, b.confidence, Some(b.timestamp)))),
      accident := Some(report.accident),
      confidence := Some(report.confidence),
      accidentTime := report.accidentTime,
      accidentType := Some(report.accidentType),
      objectsInvolved := Some(report.objectsInvolved),
      severity := Some(report.severity),
      videoDuration := Some(report.videoDuration),
      timelineMarkers := Some(report.timelineMarkers))
  }

  /**
   * After a backend reply for frames `frames` the page is consistent: it
   * shows an accident iff it shows an accident time iff the severity is
   * not "None"; its markers are strictly increasing, so the strip draws them
   * left to right; and the accident time is the earliest marker.
   */
  lemma {:induction false} PageShowsBackendReply(
    s: PageState, newVideoUrl: Option<string>,
    frames: seq<seq<Aggregation.RawBox>>, fps: real, n: nat, duration: real)
    requires fps > 0.0 && n <= |frames|
    ensures var p := UploadCompleted(s, newVideoUrl, Some(ResultOf(Aggregation.ReportOf(frames, fps, n, duration))));
      && (p.accident <==> Aggregation.AccidentSeen(frames, n))
      && (p.accident <==> p.accidentTime.Some?)
      && (p.accident <==> p.severity != "None")
      && StrictlyIncreasing(p.timelineMarkers)
      && (p.accidentTime.Some? ==> p.timelineMarkers != [] && p.accidentTime.value == p.timelineMarkers[0])
      && (p.accidentTime.Some? ==> forall m :: m in p.timelineMarkers ==> p.accidentTime.value <= m)
  {
    Aggregation.ReportAccident(frames, fps, n, duration);
    Aggregation.ReportMarkers(frames, fps, n, duration);
    Aggregation.ReportAccidentTime(frames, fps, n, duration);
  }
}
