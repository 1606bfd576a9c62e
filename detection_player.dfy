/**
 * The overlay rules of frontend/components/DetectionPlayer.jsx: which boxes
 * are drawn at a playback time, where their labels go, how big the canvas
 * is, which listeners the effect installs and removes, and where the
 * timeline markers sit.
 *
 * The canvas is an `Overlay` object whose `painted` field is its display
 * list: the drawing commands issued since the bitmap was last cleared.
 */
module DetectionPlayer {
  import opened Common
  import opened Order

  /** A box is shown while the playback time is strictly within this distance of its timestamp. */
  const VISIBILITY_WINDOW: real := 0.25
  /** Height of the label chip drawn above a box. */
  const LABEL_HEIGHT: real := 18.0
  /** Horizontal inset of the label text inside its chip. */
  const TEXT_INSET: real := 5.0
  /** The label text's baseline sits this far above the box's top edge... */
  const TEXT_RAISE: real := 6.0
  /** ...but never above this baseline. */
  const TEXT_MIN_BASELINE: real := 10.0
  const FALLBACK_CANVAS_WIDTH: nat := 640
  const FALLBACK_CANVAS_HEIGHT: nat := 360

  /**
   * A box as the page hands it to the player. `timestamp` is None when the
   * box's `timestamp` is missing or not a number.
   */
  datatype Detection = Detection(
    x1: real, y1: real, x2: real, y2: real,
    confidence: real,
    timestamp: Option<real>)

  // ---------------------------------------------------------------------------
  // Visibility

  /** The `detections.filter` predicate of `drawBoxes`. */
  predicate IsVisible(box: Detection, currentTime: real) {
    box.timestamp.None? || Abs(box.timestamp.value - currentTime) < VISIBILITY_WINDOW
  }

  /** An untimed box is always shown; a timed one only strictly inside the window. */
  lemma VisibilityWindow(box: Detection, currentTime: real)
    ensures box.timestamp.None? ==> IsVisible(box, currentTime)
    ensures box.timestamp.Some? ==>
      (IsVisible(box, currentTime) <==>
        currentTime - VISIBILITY_WINDOW < box.timestamp.value < currentTime + VISIBILITY_WINDOW)
    ensures box.timestamp == Some(currentTime + VISIBILITY_WINDOW) ==> !IsVisible(box, currentTime)
    ensures box.timestamp == Some(currentTime - VISIBILITY_WINDOW) ==> !IsVisible(box, currentTime)
  {
  }

  /** `a` is `b` with some elements left out, the rest kept in order. */
  predicate IsSubsequence<T(==)>(a: seq<T>, b: seq<T>)
    decreases |b|
  {
    a == [] || (b != [] && if a[0] == b[0] then IsSubsequence(a[1..], b[1..]) else IsSubsequence(a, b[1..]))
  }

  /**
   * The boxes drawn at `currentTime`: exactly the visible ones, each as often
   * as it occurs in `detections`, in their input order.
   */
  function VisibleBoxes(detections: seq<Detection>, currentTime: real): (r: seq<Detection>)
    ensures IsSubsequence(r, detections)
    ensures forall b :: multiset(r)[b] == if IsVisible(b, currentTime) then multiset(detections)[b] else 0
  {
    if detections == [] then []
    else
      var rest := VisibleBoxes(detections[1..], currentTime);
      assert detections == [detections[0]] + detections[1..];
      if IsVisible(detections[0], currentTime) then
        assert ([detections[0]] + rest)[1..] == rest;
        [detections[0]] + rest
      else
        assert rest != [] ==> rest[0] in multiset(rest);
        rest
  }

  /** Every untimed box in the list is drawn, at any playback time. */
  lemma UntimedBoxesAlwaysDrawn(detections: seq<Detection>, currentTime: real, i: nat)
    requires i < |detections| && detections[i].timestamp.None?
    ensures detections[i] in VisibleBoxes(detections, currentTime)
  {
    assert detections[i] in multiset(detections);
  }

  // ---------------------------------------------------------------------------
  // Drawing

  /**
   * One canvas drawing command. The chip's width comes from the font's
   * metrics and the label's text from number formatting; neither is modelled,
   * so the chip carries no width and the text carries the confidence it shows.
   */
  datatype Paint =
    | StrokeBox(x: real, y: real, width: real, height: real)
    | LabelChip(x: real, top: real, height: real)
    | LabelText(confidence: real, x: real, baseline: real)

  /** The chip's top edge: right above the box, pushed down to the canvas's top edge. */
  function ChipTop(y1: real): (top: real)
    ensures top >= 0.0 && top >= y1 - LABEL_HEIGHT
    ensures top == 0.0 || top == y1 - LABEL_HEIGHT
  {
    if y1 - LABEL_HEIGHT > 0.0 then y1 - LABEL_HEIGHT else 0.0
  }

  /** The label text's baseline: just above the box, but never higher than the minimum baseline. */
  function TextBaseline(y1: real): (y: real)
    ensures y >= TEXT_MIN_BASELINE && y >= y1 - TEXT_RAISE
    ensures y == TEXT_MIN_BASELINE || y == y1 - TEXT_RAISE
  {
    if y1 - TEXT_RAISE > TEXT_MIN_BASELINE then y1 - TEXT_RAISE else TEXT_MIN_BASELINE
  }

  /** The three commands the `forEach` body issues for one box. */
  function BoxPaints(box: Detection): seq<Paint> {
    [ StrokeBox(box.x1, box.y1, box.x2 - box.x1, box.y2 - box.y1),
      LabelChip(box.x1, ChipTop(box.y1), LABEL_HEIGHT),
      LabelText(box.confidence, box.x1 + TEXT_INSET, TextBaseline(box.y1)) ]
  }

  /** The commands for a list of boxes, box after box. */
  function Paints(boxes: seq<Detection>): (r: seq<Paint>)
    ensures |r| == 3 * |boxes|
  {
    if boxes == [] then [] else Paints(boxes[..|boxes| - 1]) + BoxPaints(boxes[|boxes| - 1])
  }

  /** Box k's commands are the k-th group of three, in the list's order. */
  lemma {:induction false} PaintsAt(boxes: seq<Detection>, k: nat)
    requires k < |boxes|
    ensures |Paints(boxes)| == 3 * |boxes|
    ensures Paints(boxes)[3 * k .. 3 * k + 3] == BoxPaints(boxes[k])
  {
    var init := boxes[..|boxes| - 1];
    if k < |init| {
      PaintsAt(init, k);
      assert init[k] == boxes[k];
    } else if init != [] {
      PaintsAt(init, 0);
    }
  }

  /** No chip is drawn above the canvas, and no label baseline above the minimum. */
  lemma {:induction false} LabelsStayOnCanvas(boxes: seq<Detection>, p: Paint)
    requires p in Paints(boxes)
    ensures p.LabelChip? ==> p.top >= 0.0 && p.height == LABEL_HEIGHT
    ensures p.LabelText? ==> p.baseline >= TEXT_MIN_BASELINE
  {
    if boxes != [] {
      var init := boxes[..|boxes| - 1];
      if p in Paints(init) {
        LabelsStayOnCanvas(init, p);
      }
    }
  }

  /**
   * Canvas size fallback: the element's displayed size when nonzero, else
   * the video's intrinsic size when nonzero, else the fallback.
   */
  function CanvasDimension(displayed: nat, intrinsic: nat, fallback: nat): (r: nat)
    ensures displayed != 0 ==> r == displayed
    ensures displayed == 0 && intrinsic != 0 ==> r == intrinsic
    ensures displayed == 0 && intrinsic == 0 ==> r == fallback
  {
    if displayed != 0 then displayed else if intrinsic != 0 then intrinsic else fallback
  }

  /** The fallback chain never yields an empty canvas. */
  lemma CanvasNeverEmpty(video: VideoElement)
    ensures CanvasDimension(video.clientWidth, video.videoWidth, FALLBACK_CANVAS_WIDTH) > 0
    ensures CanvasDimension(video.clientHeight, video.videoHeight, FALLBACK_CANVAS_HEIGHT) > 0
  {
  }

  /** What the player reads from the `<video>` element. */
  datatype VideoElement = VideoElement(
    clientWidth: nat, clientHeight: nat,
    videoWidth: nat, videoHeight: nat,
    currentTime: real)

  /** The `<canvas>` over the video, with its 2D context when the browser gives one. */
  class Overlay {
    var width: nat
    var height: nat
    /** The drawing commands issued since the bitmap was last cleared, in order. */
    var painted: seq<Paint>
    const hasContext: bool

    /** A new canvas element, at the browser's default size of 300 by 150 and blank. */
    constructor (hasContext: bool)
      ensures this.hasContext == hasContext
      ensures width == 300 && height == 150 && painted == []
    {
      this.hasContext := hasContext;
      width, height := 300, 150;
      painted := [];
    }

    /** `drawBoxes`: clear the canvas, then draw every visible box. */
    method DrawBoxes(detections: seq<Detection>, currentTime: real)
      modifies this`painted
      ensures painted == if hasContext then Paints(VisibleBoxes(detections, currentTime)) else old(painted)
    {
      if !hasContext {
        return;
      }
      painted := [];  // clearRect over the whole canvas
      var visible := VisibleBoxes(detections, currentTime);
      for i := 0 to |visible|
        invariant painted == Paints(visible[..i])
      {
        assert visible[..i + 1][..i] == visible[..i];
        painted := painted + BoxPaints(visible[i]);
      }
      assert visible[..|visible|] == visible;
    }

    /** `resizeCanvas`: size the canvas after the video, then redraw at the current time. */
    method ResizeCanvas(video: VideoElement, detections: seq<Detection>)
      modifies this
      ensures width == CanvasDimension(video.clientWidth, video.videoWidth, FALLBACK_CANVAS_WIDTH)
      ensures height == CanvasDimension(video.clientHeight, video.videoHeight, FALLBACK_CANVAS_HEIGHT)
      ensures painted == if hasContext then Paints(VisibleBoxes(detections, video.currentTime)) else []
    {
      width := CanvasDimension(video.clientWidth, video.videoWidth, FALLBACK_CANVAS_WIDTH);
      height := CanvasDimension(video.clientHeight, video.videoHeight, FALLBACK_CANVAS_HEIGHT);
      painted := [];  // assigning a canvas dimension clears its bitmap
      DrawBoxes(detections, video.currentTime);
    }
  }

  /** An empty detection list leaves the canvas cleared with nothing drawn. */
  lemma NothingToDraw(currentTime: real)
    ensures Paints(VisibleBoxes([], currentTime)) == []
  {
  }

  // ---------------------------------------------------------------------------
  // Listeners installed by the effect

  datatype EventTarget = Window | Video

  /**
   * The handler closures one run of the effect creates: `resizeCanvas` and
   * `handleTimeUpdate`. Each run creates new closures, so they are told apart
   * by the run that made them.
   */
  datatype Handler = ResizeCanvasOf(run: nat) | TimeUpdateOf(run: nat)

  datatype Listener = Listener(target: EventTarget, event: string, handler: Handler)

  /** The three listeners run `run` of the effect adds, and its cleanup removes. */
  function EffectListeners(run: nat): (r: set<Listener>)
    ensures |r| == 3
    ensures forall l :: l in r ==> l.handler.run == run
  {
    var resize := Listener(Window, "resize", ResizeCanvasOf(run));
    var metadata := Listener(Video, "loadedmetadata", ResizeCanvasOf(run));
    var time := Listener(Video, "timeupdate", TimeUpdateOf(run));
    assert {resize, metadata} == {resize} + {metadata};
    assert |{resize, metadata}| == 2;
    {resize, metadata, time}
  }

  /**
   * The listeners installed on the window and the video element. Adding a
   * listener that is already there changes nothing, so they form a set.
   */
  class EventListeners {
    var installed: set<Listener>

    /** The window and video element before the player adds anything: no listener of the player's. */
    constructor ()
      ensures installed == {}
    {
      installed := {};
    }

    method Add(l: Listener)
      modifies this
      ensures installed == old(installed) + {l}
    {
      installed := installed + {l};
    }

    method Remove(l: Listener)
      modifies this
      ensures installed == old(installed) - {l}
    {
      installed := installed - {l};
    }

    /**
     * Run `run` of the effect. Without a video or a canvas it does nothing and
     * returns no cleanup; otherwise it sizes and draws the canvas, then adds
     * its three listeners.
     */
    method MountEffect(video: Option<VideoElement>, canvas: Overlay?, detections: seq<Detection>, run: nat)
      returns (mounted: bool)
      modifies this, canvas
      ensures mounted == (video.Some? && canvas != null)
      ensures installed == if mounted then old(installed) + EffectListeners(run) else old(installed)
      ensures mounted ==>
        && canvas.width == CanvasDimension(video.value.clientWidth, video.value.videoWidth, FALLBACK_CANVAS_WIDTH)
        && canvas.height == CanvasDimension(video.value.clientHeight, video.value.videoHeight, FALLBACK_CANVAS_HEIGHT)
        && canvas.painted == if canvas.hasContext then Paints(VisibleBoxes(detections, video.value.currentTime)) else []
      ensures !mounted && canvas != null ==>
        canvas.width == old(canvas.width) && canvas.height == old(canvas.height) && canvas.painted == old(canvas.painted)
    {
      if video.None? || canvas == null {
        return false;
      }
      canvas.ResizeCanvas(video.value, detections);
      Add(Listener(Window, "resize", ResizeCanvasOf(run)));
      Add(Listener(Video, "loadedmetadata", ResizeCanvasOf(run)));
      Add(Listener(Video, "timeupdate", TimeUpdateOf(run)));
      mounted := true;
    }

    /** The cleanup run `run` of the effect returns. */
    method CleanupEffect(run: nat)
      modifies this
      ensures installed == old(installed) - EffectListeners(run)
    {
      Remove(Listener(Window, "resize", ResizeCanvasOf(run)));
      Remove(Listener(Video, "loadedmetadata", ResizeCanvasOf(run)));
      Remove(Listener(Video, "timeupdate", TimeUpdateOf(run)));
    }
  }

  /** Each run's listeners are its own: cleaning up one run leaves every other run's listeners. */
  lemma RunsAreDisjoint(run: nat, other: nat)
    requires run != other
    ensures EffectListeners(run) !! EffectListeners(other)
  {
  }

  /**
   * Cleanup undoes mounting: when no listener of this run was installed
   * before (its closures are new), the listeners after cleanup are the ones
   * before mounting, and none of this run's remains.
   */
  lemma CleanupUndoesMount(before: set<Listener>, run: nat)
    requires forall l :: l in before ==> l.handler.run != run
    ensures (before + EffectListeners(run)) - EffectListeners(run) == before
    ensures (before + EffectListeners(run)) - EffectListeners(run) !! EffectListeners(run)
  {
  }

  // ---------------------------------------------------------------------------
  // Timeline markers

  /** A marker's left offset, in percent of the strip: its time clamped to [0, duration], over the duration. */
  function MarkerLeft(t: real, duration: real): (left: real)
    requires duration > 0.0
    ensures 0.0 <= left <= 100.0
    ensures t <= 0.0 ==> left == 0.0
    ensures t >= duration ==> left == 100.0
    ensures 0.0 <= t <= duration ==> left * duration == t * 100.0
  {
    var clamped := if t < 0.0 then 0.0 else if t > duration then duration else t;
    assert clamped / duration <= 1.0;
    clamped / duration * 100.0
  }

  /** Later markers never sit left of earlier ones. */
  lemma MarkerLeftMonotone(a: real, b: real, duration: real)
    requires duration > 0.0 && a <= b
    ensures MarkerLeft(a, duration) <= MarkerLeft(b, duration)
  {
    var ca := if a < 0.0 then 0.0 else if a > duration then duration else a;
    var cb := if b < 0.0 then 0.0 else if b > duration then duration else b;
    assert ca <= cb;
    assert ca / duration <= cb / duration;
  }

  /**
   * The marker strip: the left offsets of the markers, in their order, or
   * None when the strip is not rendered.
   */
  function MarkerStrip(markers: seq<real>, videoDuration: real): (r: Option<seq<real>>)
    ensures r.Some? <==> videoDuration > 0.0 && markers != []
    ensures r.Some? ==> |r.value| == |markers|
    ensures r.Some? ==> forall i :: 0 <= i < |markers| ==> r.value[i] == MarkerLeft(markers[i], videoDuration)
  {
    if videoDuration > 0.0 && |markers| > 0 then
      Some(seq(|markers|, i requires 0 <= i < |markers| => MarkerLeft(markers[i], videoDuration)))
    else None
  }

  /** Markers in increasing time, as the backend lists them, are drawn left to right. */
  lemma MarkerStripOrdered(markers: seq<real>, videoDuration: real)
    requires StrictlyIncreasing(markers)
    requires MarkerStrip(markers, videoDuration).Some?
    ensures forall i, j :: 0 <= i <= j < |markers| ==>
      MarkerStrip(markers, videoDuration).value[i] <= MarkerStrip(markers, videoDuration).value[j]
  {
    forall i, j | 0 <= i <= j < |markers|
      ensures MarkerStrip(markers, videoDuration).value[i] <= MarkerStrip(markers, videoDuration).value[j]
    {
      if i < j {
        MarkerLeftMonotone(markers[i], markers[j], videoDuration);
      }
    }
  }
}
