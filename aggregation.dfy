/**
 * The rules of the backend's `/upload-video` and `/stream-detect` handlers
 * (backend/app.py), with YOLO and OpenCV replaced by their outputs: for each
 * frame the capture delivers, the list of boxes the detector reported.
 *
 * The handler's loop accumulates four things per box (the reply's box list,
 * the confidences and times of "accident related" boxes, and the set of
 * object labels). `Tally` is that accumulator, `AddBox`, `AddFrame` and `Scan`
 * fold it over boxes and frames, and `Summarize` turns it into the reply.
 * The lemmas at the end state what the reply says about the input frames.
 */
module Aggregation {
  import opened Common
  import opened Rounding
  import opened Order

  /** One detector box: corners, confidence and COCO class id. */
  datatype RawBox = RawBox(x1: real, y1: real, x2: real, y2: real, conf: real, cls: int)

  /** One box of the upload reply: the detector box with its frame index and its time, rounded to 3 places. */
  datatype StampedBox = StampedBox(
    frame: nat, x1: real, y1: real, x2: real, y2: real,
    confidence: real, classId: int, timestamp: real)

  /** Only the first 120 frames are read, to bound latency. */
  const MAX_FRAMES: nat := 120
  /** Used when the container reports a frame rate of at most 1. */
  const FALLBACK_FPS: real := 25.0
  const HIGH_THRESHOLD: real := 0.85
  const MEDIUM_THRESHOLD: real := 0.6

  /** Display names of the COCO classes the dashboard knows. */
  const CLASS_NAMES: map<int, string> :=
    map[0 := "Person", 1 := "Bicycle", 2 := "Car", 3 := "Motorcycle", 5 := "Bus", 7 := "Truck"]

  /** The same names, in the order Python's `sorted` puts them. */
  const LABEL_ORDER: seq<string> := ["Bicycle", "Bus", "Car", "Motorcycle", "Person", "Truck"]

  /** Classes 0-3 (person, bicycle, car, motorcycle) count as "accident related". */
  predicate IsAccidentClass(cls: int) {
    0 <= cls <= 3
  }

  // ---------------------------------------------------------------------------
  // Frame rate and duration

  /** The frame rate the handler uses: the reported one, or 25 when it is missing or at most 1. */
  function EffectiveFps(reported: real): (fps: real)
    ensures fps > 1.0
    ensures reported > 1.0 ==> fps == reported
    ensures reported <= 1.0 ==> fps == FALLBACK_FPS
  {
    if reported <= 1.0 then FALLBACK_FPS else reported
  }

  /** Python's `int(x)` on a float: truncation toward zero. */
  function TruncateToInt(x: real): (n: int)
    ensures x >= 0.0 ==> n as real <= x < n as real + 1.0
    ensures x < 0.0 ==> n as real - 1.0 < x <= n as real
  {
    if x >= 0.0 then x.Floor else -((-x).Floor)
  }

  /** `total_frames / fps`, or 0 when the frame count is not positive. */
  function VideoDuration(totalFrames: int, fps: real): (d: real)
    requires fps > 0.0
    ensures d >= 0.0
    ensures d == 0.0 <==> totalFrames <= 0
    ensures totalFrames > 0 ==> d * fps == totalFrames as real
  {
    if totalFrames > 0 then totalFrames as real / fps else 0.0
  }

  /** The number of frames the loop processes: all the capture delivers, at most 120. */
  function FramesRead(frames: seq<seq<RawBox>>): (n: nat)
    ensures n <= |frames| && n <= MAX_FRAMES
    ensures n == |frames| || n == MAX_FRAMES
  {
    if |frames| < MAX_FRAMES then |frames| else MAX_FRAMES
  }

  // ---------------------------------------------------------------------------
  // The accumulating loop

  /** The four accumulators of the frame loop. */
  datatype Tally = Tally(
    boxes: seq<StampedBox>,
    confidences: seq<real>,
    timestamps: seq<real>,
    labels: set<string>)

  const EMPTY_TALLY: Tally := Tally([], [], [], {})

  /** Seconds into the video of a frame: `frame_idx / fps`. */
  function Timestamp(frame: nat, fps: real): real
    requires fps > 0.0
  {
    frame as real / fps
  }

  function Stamp(b: RawBox, frame: nat, fps: real): StampedBox
    requires fps > 0.0
  {
    StampedBox(frame, b.x1, b.y1, b.x2, b.y2, b.conf, b.cls, RoundTo(Timestamp(frame, fps), MILLIS))
  }

  /** The body of the inner loop, for one box of frame `frame`. */
  function AddBox(t: Tally, b: RawBox, frame: nat, fps: real): Tally
    requires fps > 0.0
  {
    var accident := IsAccidentClass(b.cls);
    Tally(
      t.boxes + [Stamp(b, frame, fps)],
      if accident then t.confidences + [b.conf] else t.confidences,
      if accident then t.timestamps + [Timestamp(frame, fps)] else t.timestamps,
      if b.cls in CLASS_NAMES then t.labels + {CLASS_NAMES[b.cls]} else t.labels)
  }

  /** The inner loop over the boxes of one frame. */
  function AddFrame(t: Tally, boxes: seq<RawBox>, frame: nat, fps: real): Tally
    requires fps > 0.0
  {
    if boxes == [] then t
    else AddBox(AddFrame(t, boxes[..|boxes| - 1], frame, fps), boxes[|boxes| - 1], frame, fps)
  }

  /** The outer loop over the first n frames. */
  function Scan(frames: seq<seq<RawBox>>, fps: real, n: nat): Tally
    requires fps > 0.0 && n <= |frames|
  {
    if n == 0 then EMPTY_TALLY
    else AddFrame(Scan(frames, fps, n - 1), frames[n - 1], n - 1, fps)
  }

  /** Box j of frame i is among the first n frames and of an accident-related class. */
  predicate IsAccidentBox(frames: seq<seq<RawBox>>, n: nat, i: int, j: int) {
    0 <= i < n && i < |frames| && 0 <= j < |frames[i]| && IsAccidentClass(frames[i][j].cls)
  }

  /** Box j of frame i is among the first n frames and its class has a display name. */
  predicate IsNamedBox(frames: seq<seq<RawBox>>, n: nat, i: int, j: int) {
    0 <= i < n && i < |frames| && 0 <= j < |frames[i]| && frames[i][j].cls in CLASS_NAMES
  }

  // ---------------------------------------------------------------------------
  // The summary

  /** The reply of `/upload-video`. */
  datatype Report = Report(
    accident: bool,
    confidence: real,
    boxes: seq<StampedBox>,
    videoDuration: real,
    accidentTime: Option<real>,
    accidentType: string,
    objectsInvolved: seq<string>,
    severity: string,
    timelineMarkers: seq<real>)

  /** `max(confidences)`, or 0 for no confidences. */
  function PeakConfidence(confidences: seq<real>): (p: real)
    ensures confidences == [] ==> p == 0.0
    ensures confidences != [] ==> p in confidences && forall c :: c in confidences ==> c <= p
  {
    if confidences == [] then 0.0 else Max(confidences)
  }

  /** The severity band of the reply. */
  function Severity(accident: bool, confidence: real): (s: string)
    ensures s == "None" <==> !accident
    ensures accident ==> (s == "High" <==> confidence >= HIGH_THRESHOLD)
    ensures accident ==> (s == "Medium" <==> MEDIUM_THRESHOLD <= confidence < HIGH_THRESHOLD)
    ensures accident ==> (s == "Low" <==> confidence < MEDIUM_THRESHOLD)
  {
    if !accident then "None"
    else if confidence >= HIGH_THRESHOLD then "High"
    else if confidence >= MEDIUM_THRESHOLD then "Medium"
    else "Low"
  }

  function SeverityRank(s: string): nat {
    if s == "High" then 3 else if s == "Medium" then 2 else if s == "Low" then 1 else 0
  }

  /** A higher confidence never gives a lower severity. */
  lemma SeverityMonotone(c1: real, c2: real)
    requires c1 <= c2
    ensures 1 <= SeverityRank(Severity(true, c1)) <= SeverityRank(Severity(true, c2))
  {
  }

  function RoundEach(xs: seq<real>, scale: nat): (r: seq<real>)
    requires scale > 0
    ensures |r| == |xs|
    ensures forall k :: 0 <= k < |xs| ==> r[k] == RoundTo(xs[k], scale)
  {
    seq(|xs|, k requires 0 <= k < |xs| => RoundTo(xs[k], scale))
  }

  /** Python's `<` on str: lexicographic by code point, a proper prefix first. */
  predicate LexLess(a: string, b: string) {
    if a == [] then b != []
    else if b == [] then false
    else a[0] < b[0] || (a[0] == b[0] && LexLess(a[1..], b[1..]))
  }

  lemma {:induction false} LexLessIrreflexive(a: string)
    ensures !LexLess(a, a)
  {
    if a != [] {
      LexLessIrreflexive(a[1..]);
    }
  }

  /** Sorted by Python's string order with no name repeated. */
  predicate LexIncreasing(s: seq<string>) {
    forall i, j :: 0 <= i < j < |s| ==> LexLess(s[i], s[j])
  }

  /** A list strictly increasing in string order repeats no name. */
  lemma LexIncreasingDistinct(s: seq<string>)
    requires LexIncreasing(s)
    ensures forall i, j :: 0 <= i < |s| && 0 <= j < |s| && i != j ==> s[i] != s[j]
  {
    forall i, j | 0 <= i < |s| && 0 <= j < |s| && i != j ensures s[i] != s[j] {
      LexLessIrreflexive(s[i]);
    }
  }

  /** The names of `order` that are in `labels`, in the order of `order`. */
  function KeepListed(order: seq<string>, labels: set<string>): (r: seq<string>)
    requires LexIncreasing(order)
    ensures LexIncreasing(r)
    ensures forall l :: l in r <==> l in order && l in labels
  {
    if order == [] then []
    else
      var rest := KeepListed(order[1..], labels);
      assert forall l :: l in rest ==> LexLess(order[0], l) by {
        forall l | l in rest ensures LexLess(order[0], l) {
          var k :| 0 <= k < |order[1..]| && order[1..][k] == l;
          assert order[k + 1] == l;
        }
      }
      assert forall l :: l in order <==> l == order[0] || l in order[1..] by {
        assert order == [order[0]] + order[1..];
      }
      if order[0] in labels then [order[0]] + rest else rest
  }

  lemma LabelOrderIsClassNames()
    ensures LexIncreasing(LABEL_ORDER)
    ensures forall l :: l in LABEL_ORDER <==> l in CLASS_NAMES.Values
  {
    assert CLASS_NAMES[0] == "Person" && CLASS_NAMES[1] == "Bicycle" && CLASS_NAMES[2] == "Car";
    assert CLASS_NAMES[3] == "Motorcycle" && CLASS_NAMES[5] == "Bus" && CLASS_NAMES[7] == "Truck";
  }

  /** `sorted(objects_involved)`: the labels are display names, whose sorted order is LABEL_ORDER. */
  function SortedLabels(labels: set<string>): (r: seq<string>)
    ensures LexIncreasing(r)
    ensures forall l :: l in r <==> l in labels && l in CLASS_NAMES.Values
  {
    LabelOrderIsClassNames();
    KeepListed(LABEL_ORDER, labels)
  }

  /** The reply built from the loop's accumulators (before `jsonify`). */
  function Summarize(t: Tally, videoDuration: real): (r: Report)
    ensures r.accident <==> t.confidences != []
    ensures r.accident <==> r.severity != "None"
    ensures r.accidentTime.None? <==> t.timestamps == []
  {
    var accident := t.confidences != [];
    var confidence := PeakConfidence(t.confidences);
    Report(
      accident := accident,
      confidence := RoundTo(confidence, TEN_THOUSANDTHS),
      boxes := t.boxes,
      videoDuration := RoundTo(videoDuration, MILLIS),
      accidentTime := if t.timestamps != [] then Some(RoundTo(Min(t.timestamps), MILLIS)) else None,
      accidentType := if accident then "Vehicle Collision" else "None",
      objectsInvolved := SortedLabels(t.labels),
      severity := Severity(accident, confidence),
      timelineMarkers := SortedDistinct(RoundEach(t.timestamps, MILLIS)))
  }

  // ---------------------------------------------------------------------------
  // What one frame adds to the accumulators

  lemma {:induction false} AddFrameBoxes(t: Tally, boxes: seq<RawBox>, frame: nat, fps: real)
    requires fps > 0.0
    ensures var r := AddFrame(t, boxes, frame, fps);
      |r.boxes| == |t.boxes| + |boxes| && r.boxes[..|t.boxes|] == t.boxes &&
      forall j :: 0 <= j < |boxes| ==> r.boxes[|t.boxes| + j] == Stamp(boxes[j], frame, fps)
  {
    if boxes != [] {
      var init := boxes[..|boxes| - 1];
      AddFrameBoxes(t, init, frame, fps);
      var mid := AddFrame(t, init, frame, fps);
      assert AddFrame(t, boxes, frame, fps).boxes == mid.boxes + [Stamp(boxes[|boxes| - 1], frame, fps)];
      forall j | 0 <= j < |init| ensures boxes[j] == init[j] { }
    }
  }

  lemma {:induction false} AddFrameAccidents(t: Tally, boxes: seq<RawBox>, frame: nat, fps: real)
    requires fps > 0.0
    ensures var r := AddFrame(t, boxes, frame, fps);
      && |r.confidences| - |t.confidences| == |r.timestamps| - |t.timestamps|
      && (forall c :: c in r.confidences <==>
            c in t.confidences ||
            exists j :: 0 <= j < |boxes| && IsAccidentClass(boxes[j].cls) && boxes[j].conf == c)
      && (forall s :: s in r.timestamps <==>
            s in t.timestamps ||
            (s == Timestamp(frame, fps) && exists j :: 0 <= j < |boxes| && IsAccidentClass(boxes[j].cls)))
  {
    if boxes != [] {
      var init, last := boxes[..|boxes| - 1], boxes[|boxes| - 1];
      AddFrameAccidents(t, init, frame, fps);
      forall j | 0 <= j < |init| ensures boxes[j] == init[j] { }
    }
  }

  lemma {:induction false} AddFrameLabels(t: Tally, boxes: seq<RawBox>, frame: nat, fps: real)
    requires fps > 0.0
    ensures var r := AddFrame(t, boxes, frame, fps);
      forall l :: l in r.labels <==>
        l in t.labels ||
        exists j :: 0 <= j < |boxes| && boxes[j].cls in CLASS_NAMES && CLASS_NAMES[boxes[j].cls] == l
  {
    if boxes != [] {
      var init := boxes[..|boxes| - 1];
      AddFrameLabels(t, init, frame, fps);
      forall j | 0 <= j < |init| ensures boxes[j] == init[j] { }
    }
  }

  // ---------------------------------------------------------------------------
  // What the first n frames leave in the accumulators

  /** Box k of the reply is box j of frame `frame`, stamped with that frame's time. */
  ghost predicate StampedFrom(frames: seq<seq<RawBox>>, fps: real, b: StampedBox)
    requires fps > 0.0
  {
    b.frame < |frames| && exists j :: 0 <= j < |frames[b.frame]| && b == Stamp(frames[b.frame][j], b.frame, fps)
  }

  /** Each reply box is a box of a frame read, stamped with that frame's time. */
  lemma {:induction false} ScanBoxesOrigin(frames: seq<seq<RawBox>>, fps: real, n: nat)
    requires fps > 0.0 && n <= |frames|
    ensures forall b :: b in Scan(frames, fps, n).boxes ==> b.frame < n && StampedFrom(frames, fps, b)
  {
    if n > 0 {
      var p := n - 1;
      var prev := Scan(frames, fps, p);
      var r := Scan(frames, fps, n);
      ScanBoxesOrigin(frames, fps, p);
      AddFrameBoxes(prev, frames[p], p, fps);
      var m := |prev.boxes|;
      forall b | b in r.boxes ensures b.frame < n && StampedFrom(frames, fps, b) {
        var k :| 0 <= k < |r.boxes| && r.boxes[k] == b;
        if k < m {
          assert r.boxes[..m][k] == prev.boxes[k];
        } else {
          assert r.boxes[m + (k - m)] == Stamp(frames[p][k - m], p, fps);
        }
      }
    }
  }

  /** The reply lists boxes frame by frame, in the order the frames were read. */
  lemma {:induction false} ScanBoxesOrdered(frames: seq<seq<RawBox>>, fps: real, n: nat)
    requires fps > 0.0 && n <= |frames|
    ensures forall k :: 0 <= k < |Scan(frames, fps, n).boxes| ==> Scan(frames, fps, n).boxes[k].frame < n
    ensures forall k, l :: 0 <= k < l < |Scan(frames, fps, n).boxes| ==>
      Scan(frames, fps, n).boxes[k].frame <= Scan(frames, fps, n).boxes[l].frame
  {
    if n > 0 {
      var p := n - 1;
      var prev := Scan(frames, fps, p);
      var r := Scan(frames, fps, n);
      ScanBoxesOrdered(frames, fps, p);
      AddFrameBoxes(prev, frames[p], p, fps);
      var m := |prev.boxes|;
      forall k | 0 <= k < |r.boxes|
        ensures k < m ==> r.boxes[k] == prev.boxes[k] && r.boxes[k].frame < p
        ensures k >= m ==> r.boxes[k].frame == p
      {
        if k < m {
          assert r.boxes[..m][k] == prev.boxes[k];
        } else {
          assert r.boxes[m + (k - m)] == Stamp(frames[p][k - m], p, fps);
        }
      }
      forall k, l | 0 <= k < l < |r.boxes| ensures r.boxes[k].frame <= r.boxes[l].frame {
        if l < m {
          assert prev.boxes[k].frame <= prev.boxes[l].frame;
        }
      }
    }
  }

  /** Every box of every frame read is in the reply. */
  lemma {:induction false} ScanBoxesComplete(frames: seq<seq<RawBox>>, fps: real, n: nat)
    requires fps > 0.0 && n <= |frames|
    ensures forall i, j :: 0 <= i < n && 0 <= j < |frames[i]| ==> Stamp(frames[i][j], i, fps) in Scan(frames, fps, n).boxes
  {
    if n > 0 {
      var p := n - 1;
      var prev := Scan(frames, fps, p);
      var r := Scan(frames, fps, n);
      ScanBoxesComplete(frames, fps, p);
      AddFrameBoxes(prev, frames[p], p, fps);
      var m := |prev.boxes|;
      forall i, j | 0 <= i < n && 0 <= j < |frames[i]| ensures Stamp(frames[i][j], i, fps) in r.boxes {
        if i < p {
          var k :| 0 <= k < m && prev.boxes[k] == Stamp(frames[i][j], i, fps);
          assert r.boxes[..m][k] == prev.boxes[k];
        } else {
          assert r.boxes[m + j] == Stamp(frames[i][j], i, fps);
        }
      }
    }
  }

  /** Some accident-related box among the first n frames has confidence c. */
  ghost predicate ConfidenceSeen(frames: seq<seq<RawBox>>, n: nat, c: real) {
    exists i: nat, j: nat :: IsAccidentBox(frames, n, i, j) && frames[i][j].conf == c
  }

  /** Some accident-related box among the first n frames lies in a frame whose time is s. */
  ghost predicate TimeSeen(frames: seq<seq<RawBox>>, fps: real, n: nat, s: real)
    requires fps > 0.0
  {
    exists i: nat, j: nat :: IsAccidentBox(frames, n, i, j) && s == Timestamp(i, fps)
  }

  /**
   * The accident confidences and times are those of the accident-related boxes
   * of the frames read, one pair per box.
   */
  lemma {:induction false} ScanAccidents(frames: seq<seq<RawBox>>, fps: real, n: nat)
    requires fps > 0.0 && n <= |frames|
    ensures |Scan(frames, fps, n).confidences| == |Scan(frames, fps, n).timestamps|
    ensures forall c :: c in Scan(frames, fps, n).confidences <==> ConfidenceSeen(frames, n, c)
    ensures forall s :: s in Scan(frames, fps, n).timestamps <==> TimeSeen(frames, fps, n, s)
  {
    if n > 0 {
      var p := n - 1;
      var prev := Scan(frames, fps, p);
      var r := Scan(frames, fps, n);
      var f := frames[p];
      ScanAccidents(frames, fps, p);
      AddFrameAccidents(prev, f, p, fps);
      forall c ensures c in r.confidences <==> ConfidenceSeen(frames, n, c) {
        if c in r.confidences {
          if c in prev.confidences {
            var i: nat, j: nat :| IsAccidentBox(frames, p, i, j) && frames[i][j].conf == c;
            assert IsAccidentBox(frames, n, i, j);
          } else {
            var j :| 0 <= j < |f| && IsAccidentClass(f[j].cls) && f[j].conf == c;
            assert IsAccidentBox(frames, n, p, j);
          }
        }
        if ConfidenceSeen(frames, n, c) {
          var i: nat, j: nat :| IsAccidentBox(frames, n, i, j) && frames[i][j].conf == c;
          if i < p {
            assert IsAccidentBox(frames, p, i, j);
          } else {
            assert 0 <= j < |f| && IsAccidentClass(f[j].cls) && f[j].conf == c;
          }
        }
      }
      forall s ensures s in r.timestamps <==> TimeSeen(frames, fps, n, s) {
        if s in r.timestamps {
          if s in prev.timestamps {
            var i: nat, j: nat :| IsAccidentBox(frames, p, i, j) && s == Timestamp(i, fps);
            assert IsAccidentBox(frames, n, i, j);
          } else {
            var j :| 0 <= j < |f| && IsAccidentClass(f[j].cls);
            assert IsAccidentBox(frames, n, p, j);
          }
        }
        if TimeSeen(frames, fps, n, s) {
          var i: nat, j: nat :| IsAccidentBox(frames, n, i, j) && s == Timestamp(i, fps);
          if i < p {
            assert IsAccidentBox(frames, p, i, j);
          } else {
            assert 0 <= j < |f| && IsAccidentClass(f[j].cls);
          }
        }
      }
    }
  }

  /** Some box among the first n frames has a class whose display name is l. */
  ghost predicate LabelSeen(frames: seq<seq<RawBox>>, n: nat, l: string) {
    exists i: nat, j: nat :: IsNamedBox(frames, n, i, j) && CLASS_NAMES[frames[i][j].cls] == l
  }

  /** The labels are the display names of the classes seen in the frames read. */
  lemma {:induction false} ScanLabels(frames: seq<seq<RawBox>>, fps: real, n: nat)
    requires fps > 0.0 && n <= |frames|
    ensures forall l :: l in Scan(frames, fps, n).labels <==> LabelSeen(frames, n, l)
  {
    if n > 0 {
      var p := n - 1;
      var prev := Scan(frames, fps, p);
      var r := Scan(frames, fps, n);
      var f := frames[p];
      ScanLabels(frames, fps, p);
      AddFrameLabels(prev, f, p, fps);
      assert r == AddFrame(prev, f, p, fps);
      forall l | l in r.labels ensures LabelSeen(frames, n, l) {
        if l in prev.labels {
          var i: nat, j: nat :| IsNamedBox(frames, p, i, j) && CLASS_NAMES[frames[i][j].cls] == l;
          assert IsNamedBox(frames, n, i, j);
        } else {
          var j :| 0 <= j < |f| && f[j].cls in CLASS_NAMES && CLASS_NAMES[f[j].cls] == l;
          assert IsNamedBox(frames, n, p, j);
        }
      }
      forall l | LabelSeen(frames, n, l) ensures l in r.labels {
        var i: nat, j: nat :| IsNamedBox(frames, n, i, j) && CLASS_NAMES[frames[i][j].cls] == l;
        if i < p {
          assert IsNamedBox(frames, p, i, j);
          assert LabelSeen(frames, p, l);
        } else {
          assert 0 <= j < |f| && f[j].cls in CLASS_NAMES && CLASS_NAMES[f[j].cls] == l;
        }
      }
    }
  }

  // ---------------------------------------------------------------------------
  // What the reply says about the frames read

  /** Some box among the first n frames is accident related. */
  ghost predicate AccidentSeen(frames: seq<seq<RawBox>>, n: nat) {
    exists i: nat, j: nat :: IsAccidentBox(frames, n, i, j)
  }

  /** Some accident-related box among the first n frames has confidence at least `threshold`. */
  ghost predicate AccidentSeenAtLeast(frames: seq<seq<RawBox>>, n: nat, threshold: real) {
    exists i: nat, j: nat :: IsAccidentBox(frames, n, i, j) && frames[i][j].conf >= threshold
  }

  /** m is the rounded time of a frame, among the first n, that holds an accident-related box. */
  ghost predicate MarkerSeen(frames: seq<seq<RawBox>>, fps: real, n: nat, m: real)
    requires fps > 0.0
  {
    exists i: nat, j: nat :: IsAccidentBox(frames, n, i, j) && m == RoundTo(Timestamp(i, fps), MILLIS)
  }

  /** The reply for the first n frames. */
  function ReportOf(frames: seq<seq<RawBox>>, fps: real, n: nat, duration: real): Report
    requires fps > 0.0 && n <= |frames|
  {
    Summarize(Scan(frames, fps, n), duration)
  }

  /** `accident` holds iff an accident-related box was seen, and `accident_type` and "None" severity follow it. */
  lemma ReportAccident(frames: seq<seq<RawBox>>, fps: real, n: nat, duration: real)
    requires fps > 0.0 && n <= |frames|
    ensures ReportOf(frames, fps, n, duration).accident <==> AccidentSeen(frames, n)
    ensures ReportOf(frames, fps, n, duration).accidentType == "Vehicle Collision" <==> AccidentSeen(frames, n)
    ensures !AccidentSeen(frames, n) ==> ReportOf(frames, fps, n, duration).accidentType == "None"
    ensures ReportOf(frames, fps, n, duration).severity == "None" <==> !AccidentSeen(frames, n)
  {
    var t := Scan(frames, fps, n);
    ScanAccidents(frames, fps, n);
    if t.confidences != [] {
      assert t.confidences[0] in t.confidences;
    }
    if AccidentSeen(frames, n) {
      var i: nat, j: nat :| IsAccidentBox(frames, n, i, j);
      assert ConfidenceSeen(frames, n, frames[i][j].conf);
    }
  }

  /**
   * `confidence` is the largest confidence of an accident-related box (rounded
   * to 4 places), and 0 when there is none.
   */
  lemma ReportConfidence(frames: seq<seq<RawBox>>, fps: real, n: nat, duration: real)
    requires fps > 0.0 && n <= |frames|
    ensures !AccidentSeen(frames, n) ==> ReportOf(frames, fps, n, duration).confidence == 0.0
    ensures AccidentSeen(frames, n) ==>
      (exists i: nat, j: nat :: IsAccidentBox(frames, n, i, j) &&
         ReportOf(frames, fps, n, duration).confidence == RoundTo(frames[i][j].conf, TEN_THOUSANDTHS))
    ensures forall i: nat, j: nat :: IsAccidentBox(frames, n, i, j) ==>
      RoundTo(frames[i][j].conf, TEN_THOUSANDTHS) <= ReportOf(frames, fps, n, duration).confidence
  {
    var t := Scan(frames, fps, n);
    var peak := PeakConfidence(t.confidences);
    ScanAccidents(frames, fps, n);
    ReportAccident(frames, fps, n, duration);
    if t.confidences == [] {
      RoundToZero(TEN_THOUSANDTHS);
    } else {
      assert ConfidenceSeen(frames, n, peak);
    }
    forall i: nat, j: nat | IsAccidentBox(frames, n, i, j)
      ensures RoundTo(frames[i][j].conf, TEN_THOUSANDTHS) <= ReportOf(frames, fps, n, duration).confidence
    {
      assert ConfidenceSeen(frames, n, frames[i][j].conf);
      RoundToMonotone(frames[i][j].conf, peak, TEN_THOUSANDTHS);
    }
  }

  /**
   * The severity band is decided by the most confident accident-related box,
   * before rounding: "High" when one reaches 0.85, "Medium" when one reaches
   * 0.6 but none 0.85, "Low" when all are below 0.6, "None" when there is none.
   */
  lemma ReportSeverity(frames: seq<seq<RawBox>>, fps: real, n: nat, duration: real)
    requires fps > 0.0 && n <= |frames|
    ensures ReportOf(frames, fps, n, duration).severity == "High" <==>
      AccidentSeenAtLeast(frames, n, HIGH_THRESHOLD)
    ensures ReportOf(frames, fps, n, duration).severity == "Medium" <==>
      AccidentSeenAtLeast(frames, n, MEDIUM_THRESHOLD) && !AccidentSeenAtLeast(frames, n, HIGH_THRESHOLD)
    ensures ReportOf(frames, fps, n, duration).severity == "Low" <==>
      AccidentSeen(frames, n) && !AccidentSeenAtLeast(frames, n, MEDIUM_THRESHOLD)
  {
    var t := Scan(frames, fps, n);
    var peak := PeakConfidence(t.confidences);
    ScanAccidents(frames, fps, n);
    ReportAccident(frames, fps, n, duration);
    if t.confidences != [] {
      assert ConfidenceSeen(frames, n, peak);
      var pi: nat, pj: nat :| IsAccidentBox(frames, n, pi, pj) && frames[pi][pj].conf == peak;
      forall th: real ensures AccidentSeenAtLeast(frames, n, th) <==> peak >= th {
        if AccidentSeenAtLeast(frames, n, th) {
          var i: nat, j: nat :| IsAccidentBox(frames, n, i, j) && frames[i][j].conf >= th;
          assert ConfidenceSeen(frames, n, frames[i][j].conf);
        }
        if peak >= th {
          assert IsAccidentBox(frames, n, pi, pj) && frames[pi][pj].conf >= th;
        }
      }
    }
    assert AccidentSeenAtLeast(frames, n, MEDIUM_THRESHOLD) ==> AccidentSeen(frames, n);
    assert AccidentSeenAtLeast(frames, n, HIGH_THRESHOLD) ==> AccidentSeen(frames, n);
  }

  /** The timeline markers are the distinct rounded times of frames holding an accident-related box, ascending. */
  lemma ReportMarkers(frames: seq<seq<RawBox>>, fps: real, n: nat, duration: real)
    requires fps > 0.0 && n <= |frames|
    ensures StrictlyIncreasing(ReportOf(frames, fps, n, duration).timelineMarkers)
    ensures forall m :: m in ReportOf(frames, fps, n, duration).timelineMarkers <==> MarkerSeen(frames, fps, n, m)
  {
    var t := Scan(frames, fps, n);
    var rounded := RoundEach(t.timestamps, MILLIS);
    var markers := SortedDistinct(rounded);
    ScanAccidents(frames, fps, n);
    forall m ensures m in markers <==> MarkerSeen(frames, fps, n, m) {
      if m in markers {
        var k :| 0 <= k < |rounded| && rounded[k] == m;
        assert t.timestamps[k] in t.timestamps;
        var i: nat, j: nat :| IsAccidentBox(frames, n, i, j) && t.timestamps[k] == Timestamp(i, fps);
      }
      if MarkerSeen(frames, fps, n, m) {
        var i: nat, j: nat :| IsAccidentBox(frames, n, i, j) && m == RoundTo(Timestamp(i, fps), MILLIS);
        assert TimeSeen(frames, fps, n, Timestamp(i, fps));
        var k :| 0 <= k < |t.timestamps| && t.timestamps[k] == Timestamp(i, fps);
        assert rounded[k] == m;
      }
    }
  }

  /**
   * `accident_time` is null iff there is no accident, and is otherwise the
   * first timeline marker, no later than any other.
   */
  lemma ReportAccidentTime(frames: seq<seq<RawBox>>, fps: real, n: nat, duration: real)
    requires fps > 0.0 && n <= |frames|
    ensures ReportOf(frames, fps, n, duration).accidentTime.None? <==> !AccidentSeen(frames, n)
    ensures ReportOf(frames, fps, n, duration).accidentTime.Some? ==>
      ReportOf(frames, fps, n, duration).timelineMarkers != [] &&
      ReportOf(frames, fps, n, duration).accidentTime.value == ReportOf(frames, fps, n, duration).timelineMarkers[0]
    ensures ReportOf(frames, fps, n, duration).accidentTime.Some? ==>
      forall m :: m in ReportOf(frames, fps, n, duration).timelineMarkers ==>
        ReportOf(frames, fps, n, duration).accidentTime.value <= m
    ensures ReportOf(frames, fps, n, duration).accidentTime.Some? ==>
      ReportOf(frames, fps, n, duration).accidentTime.value == Min(ReportOf(frames, fps, n, duration).timelineMarkers)
  {
    var t := Scan(frames, fps, n);
    var rounded := RoundEach(t.timestamps, MILLIS);
    var markers := SortedDistinct(rounded);
    ScanAccidents(frames, fps, n);
    ReportAccident(frames, fps, n, duration);
    if t.timestamps != [] {
      var first := Min(t.timestamps);
      var at := RoundTo(first, MILLIS);
      var k :| 0 <= k < |t.timestamps| && t.timestamps[k] == first;
      assert rounded[k] == at;
      assert at in markers;
      forall m | m in markers ensures at <= m {
        var q :| 0 <= q < |rounded| && rounded[q] == m;
        assert t.timestamps[q] in t.timestamps;
        RoundToMonotone(first, t.timestamps[q], MILLIS);
      }
      assert markers[0] in markers;
      HeadIsMin(markers);
    }
  }

  /** `objects_involved` lists, sorted and without repeats, the display names of the classes seen. */
  lemma ReportObjects(frames: seq<seq<RawBox>>, fps: real, n: nat, duration: real)
    requires fps > 0.0 && n <= |frames|
    ensures LexIncreasing(ReportOf(frames, fps, n, duration).objectsInvolved)
    ensures var objects := ReportOf(frames, fps, n, duration).objectsInvolved;
      forall i, j :: 0 <= i < |objects| && 0 <= j < |objects| && i != j ==> objects[i] != objects[j]
    ensures forall l :: l in ReportOf(frames, fps, n, duration).objectsInvolved <==> LabelSeen(frames, n, l)
  {
    LexIncreasingDistinct(ReportOf(frames, fps, n, duration).objectsInvolved);
    ScanLabels(frames, fps, n);
    forall l | LabelSeen(frames, n, l) ensures l in CLASS_NAMES.Values {
      var i: nat, j: nat :| IsNamedBox(frames, n, i, j) && CLASS_NAMES[frames[i][j].cls] == l;
    }
  }

  // ---------------------------------------------------------------------------
  // `/stream-detect`: one frame, no timestamps

  /** The reply of `/stream-detect`: every detector box as it came, and the accident flag and confidence. */
  datatype StreamReport = StreamReport(accident: bool, confidence: real, boxes: seq<RawBox>)

  /** The confidences of the accident-related boxes, in order. */
  function AccidentConfidences(boxes: seq<RawBox>): (r: seq<real>)
    ensures |r| <= |boxes|
    ensures forall c :: c in r <==> exists j :: 0 <= j < |boxes| && IsAccidentClass(boxes[j].cls) && boxes[j].conf == c
  {
    if boxes == [] then []
    else
      var init, last := boxes[..|boxes| - 1], boxes[|boxes| - 1];
      assert forall j :: 0 <= j < |init| ==> boxes[j] == init[j];
      AccidentConfidences(init) + if IsAccidentClass(last.cls) then [last.conf] else []
  }

  /** The stream reply for the detector's boxes of one frame. */
  function StreamSummary(boxes: seq<RawBox>): StreamReport {
    var confidences := AccidentConfidences(boxes);
    StreamReport(confidences != [], RoundTo(PeakConfidence(confidences), TEN_THOUSANDTHS), boxes)
  }

  lemma {:induction false} AddFrameConfidences(t: Tally, boxes: seq<RawBox>, frame: nat, fps: real)
    requires fps > 0.0
    ensures AddFrame(t, boxes, frame, fps).confidences == t.confidences + AccidentConfidences(boxes)
  {
    if boxes != [] {
      AddFrameConfidences(t, boxes[..|boxes| - 1], frame, fps);
    }
  }

  /**
   * `/stream-detect` applies the same rule as `/upload-video`: on one frame it
   * reports the accident flag and confidence the upload reply reports for a
   * video made of that frame alone.
   */
  lemma StreamAgreesWithUpload(boxes: seq<RawBox>, fps: real, duration: real)
    requires fps > 0.0
    ensures StreamSummary(boxes).accident == ReportOf([boxes], fps, 1, duration).accident
    ensures StreamSummary(boxes).confidence == ReportOf([boxes], fps, 1, duration).confidence
  {
    var t := Scan([boxes], fps, 1);
    assert Scan([boxes], fps, 0) == EMPTY_TALLY;
    assert [boxes][0] == boxes;
    assert t == AddFrame(EMPTY_TALLY, boxes, 0, fps);
    AddFrameConfidences(EMPTY_TALLY, boxes, 0, fps);
    assert t.confidences == AccidentConfidences(boxes);
    assert ReportOf([boxes], fps, 1, duration) == Summarize(t, duration);
  }

  /** The stream reply keeps every box, and flags an accident iff one box is accident related. */
  lemma StreamFacts(boxes: seq<RawBox>)
    ensures StreamSummary(boxes).boxes == boxes
    ensures StreamSummary(boxes).accident <==> exists j :: 0 <= j < |boxes| && IsAccidentClass(boxes[j].cls)
    ensures forall j :: 0 <= j < |boxes| && IsAccidentClass(boxes[j].cls) ==>
      RoundTo(boxes[j].conf, TEN_THOUSANDTHS) <= StreamSummary(boxes).confidence
    ensures !StreamSummary(boxes).accident ==> StreamSummary(boxes).confidence == 0.0
    ensures StreamSummary(boxes).accident ==>
      exists j :: 0 <= j < |boxes| && IsAccidentClass(boxes[j].cls) &&
        StreamSummary(boxes).confidence == RoundTo(boxes[j].conf, TEN_THOUSANDTHS)
  {
    RoundToZero(TEN_THOUSANDTHS);
    var confidences := AccidentConfidences(boxes);
    if confidences != [] {
      assert confidences[0] in confidences;
      var peak := PeakConfidence(confidences);
      assert peak in confidences;
      var k :| 0 <= k < |boxes| && IsAccidentClass(boxes[k].cls) && boxes[k].conf == peak;
      assert StreamSummary(boxes).confidence == RoundTo(boxes[k].conf, TEN_THOUSANDTHS);
    }
    if exists j :: 0 <= j < |boxes| && IsAccidentClass(boxes[j].cls) {
      var j :| 0 <= j < |boxes| && IsAccidentClass(boxes[j].cls);
      assert boxes[j].conf in confidences;
    }
    forall j | 0 <= j < |boxes| && IsAccidentClass(boxes[j].cls)
      ensures RoundTo(boxes[j].conf, TEN_THOUSANDTHS) <= StreamSummary(boxes).confidence
    {
      assert boxes[j].conf in confidences;
      RoundToMonotone(boxes[j].conf, PeakConfidence(confidences), TEN_THOUSANDTHS);
    }
  }
}
