/**
 * The two request handlers of backend/app.py as they run: the checks on the
 * request, then loops that append to the accumulators. Each is proved to
 * return the reply that `Aggregation` specifies.
 */
module App {
  import opened Common
  import opened Rounding
  import opened Aggregation

  const NO_VIDEO_ERROR: string := "No video file provided under form field 'video'."
  const EMPTY_FILENAME_ERROR: string := "Empty filename."
  const CANNOT_OPEN_ERROR: string := "Could not open uploaded video."
  const NO_FRAME_ERROR: string := "No frame data provided."
  const UNDECODABLE_FRAME_ERROR: string := "Unable to decode frame image."

  /**
   * What OpenCV makes of the saved upload: whether it opened, its reported
   * frame rate and frame count (0 when missing), and the detector's boxes for
   * each frame `cap.read()` delivers, in order, up to the first failed read.
   */
  datatype Capture = Capture(
    isOpened: bool,
    fpsProperty: real,
    frameCountProperty: real,
    detections: seq<seq<RawBox>>)

  /**
   * POST /upload-video. `videoFilename` is the filename of the `video` form
   * field, None when the field is absent.
   */
  method UploadVideo(videoFilename: Option<string>, capture: Capture) returns (reply: Reply<Report>)
    ensures videoFilename.None? ==> reply == BadRequest(NO_VIDEO_ERROR)
    ensures videoFilename == Some("") ==> reply == BadRequest(EMPTY_FILENAME_ERROR)
    ensures videoFilename.Some? && videoFilename.value != "" && !capture.isOpened ==>
      reply == BadRequest(CANNOT_OPEN_ERROR)
    ensures videoFilename.Some? && videoFilename.value != "" && capture.isOpened ==>
      reply == Ok(ReportOf(
        capture.detections,
        EffectiveFps(capture.fpsProperty),
        FramesRead(capture.detections),
        VideoDuration(TruncateToInt(capture.frameCountProperty), EffectiveFps(capture.fpsProperty))))
  {
    if videoFilename.None? {
      return BadRequest(NO_VIDEO_ERROR);
    }
    if videoFilename.value == "" {
      return BadRequest(EMPTY_FILENAME_ERROR);
    }
    if !capture.isOpened {
      return BadRequest(CANNOT_OPEN_ERROR);
    }
    var fps := EffectiveFps(capture.fpsProperty);
    var videoDuration := VideoDuration(TruncateToInt(capture.frameCountProperty), fps);

    var allBoxes: seq<StampedBox> := [];
    var accidentConfidences: seq<real> := [];
    var accidentTimestamps: seq<real> := [];
    var objectsInvolved: set<string> := {};

    var frameIdx: nat := 0;
    while frameIdx < MAX_FRAMES
      invariant frameIdx <= MAX_FRAMES && frameIdx <= |capture.detections|
      invariant Tally(allBoxes, accidentConfidences, accidentTimestamps, objectsInvolved)
        == Scan(capture.detections, fps, frameIdx)
    {
      if frameIdx == |capture.detections| {
        break;  // cap.read() delivered no frame
      }
      var results := capture.detections[frameIdx];
      ghost var before := Tally(allBoxes, accidentConfidences, accidentTimestamps, objectsInvolved);
      for k := 0 to |results|
        invariant Tally(allBoxes, accidentConfidences, accidentTimestamps, objectsInvolved)
          == AddFrame(before, results[..k], frameIdx, fps)
      {
        var box := results[k];
        var timestamp := frameIdx as real / fps;
        allBoxes := allBoxes + [StampedBox(
          frameIdx, box.x1, box.y1, box.x2, box.y2, box.conf, box.cls, RoundTo(timestamp, MILLIS))];
        if IsAccidentClass(box.cls) {
          accidentConfidences := accidentConfidences + [box.conf];
          accidentTimestamps := accidentTimestamps + [timestamp];
        }
        if box.cls in CLASS_NAMES {
          objectsInvolved := objectsInvolved + {CLASS_NAMES[box.cls]};
        }
        assert results[..k + 1][..k] == results[..k];
      }
      assert results[..|results|] == results;
      frameIdx := frameIdx + 1;
    }
    reply := Ok(Summarize(Tally(allBoxes, accidentConfidences, accidentTimestamps, objectsInvolved), videoDuration));
  }

  /** Bytes of a request body or of an uploaded file. */
  newtype byte = x: int | 0 <= x < 256

  /**
   * POST /stream-detect. `frameFile` is the content of the `frame` form field
   * (None when absent), `body` the raw request body, and `decoded` the
   * detector's boxes for the decoded image, None when OpenCV cannot decode it.
   */
  method StreamDetect(frameFile: Option<seq<byte>>, body: seq<byte>, decoded: Option<seq<RawBox>>)
    returns (reply: Reply<StreamReport>)
    ensures var data := if frameFile.Some? then frameFile.value else body;
      && (data == [] ==> reply == BadRequest(NO_FRAME_ERROR))
      && (data != [] && decoded.None? ==> reply == BadRequest(UNDECODABLE_FRAME_ERROR))
      && (data != [] && decoded.Some? ==> reply == Ok(StreamSummary(decoded.value)))
  {
    var data: seq<byte> := [];
    if frameFile.Some? {
      data := frameFile.value;
    } else if body != [] {
      data := body;
    }
    if data == [] {
      return BadRequest(NO_FRAME_ERROR);
    }
    if decoded.None? {
      return BadRequest(UNDECODABLE_FRAME_ERROR);
    }
    var results := decoded.value;
    var boxes: seq<RawBox> := [];
    var accidentConfidences: seq<real> := [];
    for k := 0 to |results|
      invariant boxes == results[..k]
      invariant accidentConfidences == AccidentConfidences(results[..k])
    {
      var box := results[k];
      boxes := boxes + [box];
      if IsAccidentClass(box.cls) {
        accidentConfidences := accidentConfidences + [box.conf];
      }
      assert results[..k + 1][..k] == results[..k];
    }
    assert results[..|results|] == results;
    var accident := accidentConfidences != [];
    var confidence := if accident then Order.Max(accidentConfidences) else 0.0;
    reply := Ok(StreamReport(accident, RoundTo(confidence, TEN_THOUSANDTHS), boxes));
  }
}
