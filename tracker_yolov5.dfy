// The tracker of the YOLOv5 demo. Every frame it moves each track to the
// prediction of its four scalar Kalman filters (a new score-0 entry), costs
// every pair of prediction and detection (kCostMax unless the classes
// agree), lets an external solver pair them, updates the tracks whose pair
// costs less than kCostMax, counts a miss for the others, drops tracks that
// missed too often and opens tracks for the remaining detections. The
// filters' states and the solver's result are inputs; the history bound,
// the miss threshold and the maximal cost come from a header that is not
// part of this model.

module Yolov5Tracker {
  import opened Common
  import opened Tracking

  /** The states of the filters on width, height and the two centre coordinates (`X(0, 0)`). */
  datatype FilterState = FilterState(w: real, h: real, cx: real, cy: real)

  /** The box the states give: truncated size, origin `cx - w / 2` truncated. */
  function FromState(s: FilterState): (e: Estimate)
    ensures e.w == Trunc(s.w) && e.h == Trunc(s.h)
  {
    var w := Trunc(s.w);
    var h := Trunc(s.h);
    Estimate(Trunc(s.cx - CDiv(w, 2) as real), Trunc(s.cy - CDiv(h, 2) as real), w, h)
  }

  /** A filter whose state is exactly a box's centre and size gives back that box. */
  lemma FromStateOfBox(b: BoundingBox)
    requires b.w >= 0 && b.h >= 0
    ensures FromState(FilterState(b.w as real, b.h as real, CenterX(b) as real, CenterY(b) as real)) == Estimate(b.x, b.y, b.w, b.h)
  {
    var s := FilterState(b.w as real, b.h as real, CenterX(b) as real, CenterY(b) as real);
    TruncOfInt(b.w);
    TruncOfInt(b.h);
    TruncOfInt(b.x);
    TruncOfInt(b.y);
    assert s.cx - CDiv(b.w, 2) as real == b.x as real;
    assert s.cy - CDiv(b.h, 2) as real == b.y as real;
  }

  lemma TruncOfInt(n: int)
    ensures Trunc(n as real) == n
  {
  }

  /** The box Track::Predict returns: the latest box at the filters' prediction, with score 0. */
  function PredictedBox(t: Track<Data>, s: FilterState): (r: BoundingBox)
    requires |t.history| > 0
    ensures r.classId == Latest(t).bbox.classId && r.score == 0.0
  {
    Placed(Latest(t).bbox, FromState(s)).(score := 0.0)
  }

  /** Track::Predict: the predicted box becomes a new entry, filtered and raw. */
  function Predict(t: Track<Data>, s: FilterState, maxHistory: int): Track<Data>
    requires |t.history| > 0
  {
    var b := PredictedBox(t, s);
    t.(history := PushBounded(t.history, Data(b, b), maxHistory))
  }

  /** Track::Update: the latest box moves to the filters' estimate and takes
      the detection's score (its class stays), the raw box becomes the detection. */
  function Update(t: Track<Data>, det: BoundingBox, s: FilterState): Track<Data>
    requires |t.history| > 0
  {
    var last := Latest(t).bbox;
    t.(history := SetLatest(t.history, Data(Placed(last, FromState(s)).(score := det.score), det)),
       cntDetected := t.cntDetected + 1, cntUndetected := 0)
  }

  /** Track::UpdateNoDetect: one more miss. */
  function UpdateNoDetect(t: Track<Data>): Track<Data>
  {
    t.(cntUndetected := t.cntUndetected + 1)
  }

  /** Predict adds one score-0 entry (dropping the oldest beyond the bound);
      Update rewrites only the latest entry, copying the detection's score,
      and resets the misses; UpdateNoDetect only counts a miss. */
  lemma TrackOperations(t: Track<Data>, s: FilterState, det: BoundingBox, s2: FilterState, maxHistory: int)
    requires 1 <= |t.history| <= maxHistory
    ensures var p := Predict(t, s, maxHistory);
      && 1 <= |p.history| <= maxHistory
      && (|t.history| < maxHistory ==> p.history[..|t.history|] == t.history)
      && Latest(p).bbox == PredictedBox(t, s) && Latest(p).bboxRaw.score == 0.0
      && p.id == t.id && p.cntDetected == t.cntDetected && p.cntUndetected == t.cntUndetected
    ensures var u := Update(t, det, s2);
      && |u.history| == |t.history| && u.history[..|u.history| - 1] == t.history[..|t.history| - 1]
      && Latest(u).bboxRaw == det && Latest(u).bbox.score == det.score
      && Latest(u).bbox.classId == Latest(t).bbox.classId
      && u.id == t.id && u.cntDetected == t.cntDetected + 1 && u.cntUndetected == 0
    ensures var n := UpdateNoDetect(t);
      n.history == t.history && n.id == t.id && n.cntDetected == t.cntDetected && n.cntUndetected == t.cntUndetected + 1
  {
    var b := PredictedBox(t, s);
    PushBoundedKeepsNewest(t.history, Data(b, b), maxHistory);
    if |t.history| < maxHistory {
      assert PushBounded(t.history, Data(b, b), maxHistory) == t.history + [Data(b, b)];
    }
  }

  // ---------------------------------------------------------------------
  // Cost

  /** The cost matrix entry: costMax minus the IoU for equal classes, else costMax. */
  function Cost(tb: BoundingBox, db: BoundingBox, iou: (BoundingBox, BoundingBox) -> real, costMax: real): real
  {
    if tb.classId == db.classId then costMax - iou(tb, db) else costMax
  }

  /** A pair costs less than costMax exactly when the classes agree and the
      IoU is positive. */
  lemma CostGate(tb: BoundingBox, db: BoundingBox, iou: (BoundingBox, BoundingBox) -> real, costMax: real)
    ensures Cost(tb, db, iou, costMax) < costMax <==> tb.classId == db.classId && iou(tb, db) > 0.0
  {
  }

  /** One row of the matrix: a prediction against every detection. */
  function CostRow(tb: BoundingBox, dets: seq<BoundingBox>, iou: (BoundingBox, BoundingBox) -> real, costMax: real): (r: seq<real>)
    ensures |r| == |dets| && forall j :: 0 <= j < |dets| ==> r[j] == Cost(tb, dets[j], iou, costMax)
  {
    seq(|dets|, j requires 0 <= j < |dets| => Cost(tb, dets[j], iou, costMax))
  }

  /** The #tracks by #detections matrix. */
  function CostMatrix(preds: seq<BoundingBox>, dets: seq<BoundingBox>, iou: (BoundingBox, BoundingBox) -> real, costMax: real)
    : (m: seq<seq<real>>)
    ensures |m| == |preds| && Rectangular(m, |dets|)
    ensures forall i :: 0 <= i < |preds| ==> m[i] == CostRow(preds[i], dets, iou, costMax)
  {
    seq(|preds|, i requires 0 <= i < |preds| => CostRow(preds[i], dets, iou, costMax))
  }

  // ---------------------------------------------------------------------
  // One call of Tracker::Update

  function Predicted(ts: seq<Track<Data>>, ps: seq<FilterState>, maxHistory: int): (r: seq<Track<Data>>)
    requires |ps| == |ts| && HistoriesNonEmpty(ts)
    ensures |r| == |ts| && forall i :: 0 <= i < |ts| ==> r[i] == Predict(ts[i], ps[i], maxHistory)
  {
    seq(|ts|, i requires 0 <= i < |ts| => Predict(ts[i], ps[i], maxHistory))
  }

  function PredictedBoxes(ts: seq<Track<Data>>, ps: seq<FilterState>): (r: seq<BoundingBox>)
    requires |ps| == |ts| && HistoriesNonEmpty(ts)
    ensures |r| == |ts| && forall i :: 0 <= i < |ts| ==> r[i] == PredictedBox(ts[i], ps[i])
  {
    seq(|ts|, i requires 0 <= i < |ts| => PredictedBox(ts[i], ps[i]))
  }

  /** The detection each track is updated with, or -1. */
  function Matches(ts: seq<Track<Data>>, dets: seq<BoundingBox>, ps: seq<FilterState>, detForTrack: seq<int>,
                   iou: (BoundingBox, BoundingBox) -> real, costMax: real): (r: seq<int>)
    requires |ps| == |ts| == |detForTrack| && HistoriesNonEmpty(ts)
    ensures |r| == |ts| && forall i :: 0 <= i < |ts| ==> -1 <= r[i] < |dets|
  {
    var m := CostMatrix(PredictedBoxes(ts, ps), dets, iou, costMax);
    Accepted(m, Solution(|ts|, |dets|, detForTrack), |ts|, |dets|, costMax)
  }

  /** The code as written opens a track for detection d only when the
      solver gave it no track (`track_index_for_det[d] < 0`). */
  function SolverFree(ts: seq<Track<Data>>, dets: seq<BoundingBox>, trackForDet: seq<int>): (r: seq<bool>)
    requires |trackForDet| == |dets|
    ensures |r| == |dets|
  {
    var owner := Solution(|ts|, |dets|, trackForDet);
    seq(|dets|, d requires 0 <= d < |dets| => owner[d] < 0)
  }

  /** As written, a detection that the solver pairs with a track of another
      class neither updates that track nor opens a track of its own: one
      track of class 0 and one detection of class 1, paired by the solver. */
  lemma AsWrittenDropsDetection(iou: (BoundingBox, BoundingBox) -> real)
    ensures var t := NewTrack(Start(BoundingBox(0, 0.9, 0, 0, 10, 10)), 0);
      var det := BoundingBox(1, 0.9, 0, 0, 10, 10);
      var s := FilterState(10.0, 10.0, 5.0, 5.0);
      && Matches([t], [det], [s], [0], iou, 1.0) == [-1]
      && SolverFree([t], [det], [0]) == [false]
      && Unclaimed(Matches([t], [det], [s], [0], iou, 1.0), 1) == [true]
  {
    var t := NewTrack(Start(BoundingBox(0, 0.9, 0, 0, 10, 10)), 0);
    var det := BoundingBox(1, 0.9, 0, 0, 10, 10);
    var s := FilterState(10.0, 10.0, 5.0, 5.0);
    var p := PredictedBox(t, s);
    assert p.classId == 0;
    var m := CostMatrix(PredictedBoxes([t], [s]), [det], iou, 1.0);
    assert m[0][0] == 1.0;
    var r := Matches([t], [det], [s], [0], iou, 1.0);
    assert r[0] == -1;
    assert 0 !in r;
    assert Unclaimed(r, 1)[0];
  }

  function Corrected(t: Track<Data>, paired: int, dets: seq<BoundingBox>, s: FilterState): Track<Data>
    requires |t.history| > 0 && paired < |dets|
  {
    if paired >= 0 then Update(t, dets[paired], s) else UpdateNoDetect(t)
  }

  function CorrectedAll(ps: seq<Track<Data>>, matches: seq<int>, dets: seq<BoundingBox>, us: seq<FilterState>): (r: seq<Track<Data>>)
    requires HistoriesNonEmpty(ps) && |matches| == |ps| == |us| && forall i :: 0 <= i < |ps| ==> matches[i] < |dets|
    ensures |r| == |ps| && forall i :: 0 <= i < |ps| ==> r[i] == Corrected(ps[i], matches[i], dets, us[i])
  {
    seq(|ps|, i requires 0 <= i < |ps| => Corrected(ps[i], matches[i], dets, us[i]))
  }

  /** The track list after Tracker::Update, opening a track for every
      detection whose flag in free is set: the code as written passes
      `SolverFree`, the corrected tracker `Unclaimed` of the matches. ps are
      the filters' states after predicting, us after updating. */
  function Stepped(ts: seq<Track<Data>>, next: int, dets: seq<BoundingBox>, ps: seq<FilterState>, us: seq<FilterState>,
                   detForTrack: seq<int>, free: seq<bool>, iou: (BoundingBox, BoundingBox) -> real,
                   maxHistory: int, costMax: real, cntToDelete: int): seq<Track<Data>>
    requires |ps| == |ts| == |us| == |detForTrack| && |free| == |dets| && HistoriesNonEmpty(ts)
  {
    var matches := Matches(ts, dets, ps, detForTrack, iou, costMax);
    Surviving(CorrectedAll(Predicted(ts, ps, maxHistory), matches, dets, us), cntToDelete)
      + Spawned(Starts(dets), free, next)
  }

  lemma PredictedNumbered(ts: seq<Track<Data>>, ps: seq<FilterState>, next: int, maxHistory: int)
    requires |ps| == |ts| && 1 <= maxHistory && WellNumbered(ts, next, maxHistory)
    ensures WellNumbered(Predicted(ts, ps, maxHistory), next, maxHistory)
  {
    var r := Predicted(ts, ps, maxHistory);
    forall i | 0 <= i < |ts|
      ensures r[i].id == ts[i].id && 1 <= |r[i].history| <= maxHistory
    {
      TrackOperations(ts[i], ps[i], BoundingBox(0, 0.0, 0, 0, 0, 0), ps[i], maxHistory);
    }
  }

  lemma CorrectedNumbered(ps: seq<Track<Data>>, matches: seq<int>, dets: seq<BoundingBox>, us: seq<FilterState>, next: int, maxHistory: int)
    requires |matches| == |ps| == |us| && forall i :: 0 <= i < |ps| ==> matches[i] < |dets|
    requires WellNumbered(ps, next, maxHistory)
    ensures WellNumbered(CorrectedAll(ps, matches, dets, us), next, maxHistory)
  {
    var r := CorrectedAll(ps, matches, dets, us);
    forall i | 0 <= i < |ps|
      ensures r[i].id == ps[i].id && |r[i].history| == |ps[i].history|
    {
    }
  }

  /** Tracker::Update keeps ids distinct and below the next id and histories
      within the bound; every old track that survives missed fewer than
      cntToDelete frames; the flagged detections open the tracks next,
      next + 1, ... after the kept ones, whatever the flags are, so this
      holds for the code as written. With the corrected flags every detection
      either updates a track or opens a track of its own. */
  lemma SteppedProperties(ts: seq<Track<Data>>, next: int, dets: seq<BoundingBox>, ps: seq<FilterState>, us: seq<FilterState>,
                          detForTrack: seq<int>, free: seq<bool>, iou: (BoundingBox, BoundingBox) -> real,
                          maxHistory: int, costMax: real, cntToDelete: int)
    requires |ps| == |ts| == |us| == |detForTrack| && |free| == |dets|
    requires next >= 0 && 1 <= maxHistory && WellNumbered(ts, next, maxHistory)
    ensures ConsecutiveOutcome(Stepped(ts, next, dets, ps, us, detForTrack, free, iou, maxHistory, costMax, cntToDelete),
                               |ts|, CountTrue(free), next, cntToDelete, maxHistory)
    ensures var matches := Matches(ts, dets, ps, detForTrack, iou, costMax);
      free == Unclaimed(matches, |dets|) ==>
        StepOutcome(Stepped(ts, next, dets, ps, us, detForTrack, free, iou, maxHistory, costMax, cntToDelete),
                    |ts|, cntToDelete, Starts(dets), matches, next, maxHistory)
  {
    var pt := Predicted(ts, ps, maxHistory);
    PredictedNumbered(ts, ps, next, maxHistory);
    var matches := Matches(ts, dets, ps, detForTrack, iou, costMax);
    CorrectedNumbered(pt, matches, dets, us, next, maxHistory);
    var cs := CorrectedAll(pt, matches, dets, us);
    var r := Stepped(ts, next, dets, ps, us, detForTrack, free, iou, maxHistory, costMax, cntToDelete);
    PruneThenSpawnConsecutive(r, cs, cntToDelete, Starts(dets), free, next, maxHistory);
    if free == Unclaimed(matches, |dets|) {
      PruneThenSpawnOutcome(r, cs, cntToDelete, Starts(dets), matches, next, maxHistory);
    }
  }

  // ---------------------------------------------------------------------
  // The loops of Tracker::Update

  method PredictAll(ts: seq<Track<Data>>, ps: seq<FilterState>, maxHistory: int) returns (pt: seq<Track<Data>>, preds: seq<BoundingBox>)
    requires |ps| == |ts| && HistoriesNonEmpty(ts)
    ensures pt == Predicted(ts, ps, maxHistory) && preds == PredictedBoxes(ts, ps)
  {
    pt, preds := ts, [];
    var i := 0;
    while i < |ts|
      invariant 0 <= i <= |ts| && |pt| == |ts| && |preds| == i
      invariant forall k :: 0 <= k < i ==> pt[k] == Predict(ts[k], ps[k], maxHistory) && preds[k] == PredictedBox(ts[k], ps[k])
      invariant forall k :: i <= k < |ts| ==> pt[k] == ts[k]
    {
      preds := preds + [PredictedBox(ts[i], ps[i])];
      pt := pt[i := Predict(ts[i], ps[i], maxHistory)];
      i := i + 1;
    }
  }

  /** The matrix starts at costMax; pairs of equal class get costMax minus their IoU. */
  method FillCostMatrix(preds: seq<BoundingBox>, dets: seq<BoundingBox>, iou: (BoundingBox, BoundingBox) -> real, costMax: real)
    returns (m: seq<seq<real>>)
    ensures m == CostMatrix(preds, dets, iou, costMax)
  {
    m := [];
    var i := 0;
    while i < |preds|
      invariant 0 <= i <= |preds| && |m| == i
      invariant forall a :: 0 <= a < i ==> m[a] == CostRow(preds[a], dets, iou, costMax)
    {
      var row := seq(|dets|, _ => costMax);
      var j := 0;
      while j < |dets|
        invariant 0 <= j <= |dets| && |row| == |dets|
        invariant forall b :: 0 <= b < |dets| ==> row[b] == if b < j then Cost(preds[i], dets[b], iou, costMax) else costMax
      {
        if preds[i].classId == dets[j].classId {
          row := row[j := costMax - iou(preds[i], dets[j])];
        }
        j := j + 1;
      }
      assert row == CostRow(preds[i], dets, iou, costMax);
      m := m + [row];
      i := i + 1;
    }
  }

  method CorrectLoop(pt: seq<Track<Data>>, matches: seq<int>, dets: seq<BoundingBox>, us: seq<FilterState>)
    returns (cs: seq<Track<Data>>)
    requires HistoriesNonEmpty(pt) && |matches| == |pt| == |us| && forall i :: 0 <= i < |pt| ==> -1 <= matches[i] < |dets|
    ensures cs == CorrectedAll(pt, matches, dets, us)
  {
    cs := pt;
    var i := 0;
    while i < |pt|
      invariant 0 <= i <= |pt| && |cs| == |pt|
      invariant forall k :: 0 <= k < i ==> cs[k] == Corrected(pt[k], matches[k], dets, us[k])
      invariant forall k :: i <= k < |pt| ==> cs[k] == pt[k]
    {
      if matches[i] >= 0 {
        cs := cs[i := Update(pt[i], dets[matches[i]], us[i])];
      } else {
        cs := cs[i := UpdateNoDetect(pt[i])];
      }
      i := i + 1;
    }
  }

  /** The body of Tracker::Update on the track list and the id counter, with
      the solver's two outputs: detForTrack (`det_index_for_track`) and
      trackForDet (`track_index_for_det`), from which new tracks are opened. */
  method Step(ts: seq<Track<Data>>, next: int, dets: seq<BoundingBox>, ps: seq<FilterState>, us: seq<FilterState>,
              detForTrack: seq<int>, trackForDet: seq<int>, iou: (BoundingBox, BoundingBox) -> real,
              maxHistory: int, costMax: real, cntToDelete: int) returns (r: seq<Track<Data>>, nextOut: int)
    requires |ps| == |ts| == |us| == |detForTrack| && |trackForDet| == |dets| && HistoriesNonEmpty(ts)
    ensures r == Stepped(ts, next, dets, ps, us, detForTrack, SolverFree(ts, dets, trackForDet), iou, maxHistory, costMax, cntToDelete)
    ensures nextOut == next + CountTrue(SolverFree(ts, dets, trackForDet))
  {
    var pt, preds := PredictAll(ts, ps, maxHistory);
    var m := FillCostMatrix(preds, dets, iou, costMax);
    var sol := Solution(|ts|, |dets|, detForTrack);
    var matches := Accepted(m, sol, |ts|, |dets|, costMax);
    assert matches == Matches(ts, dets, ps, detForTrack, iou, costMax);
    var cs := CorrectLoop(pt, matches, dets, us);
    var kept := EraseLost(cs, cntToDelete);
    r, nextOut := AddTracks(kept, Starts(dets), SolverFree(ts, dets, trackForDet), next);
  }

  class Tracker {
    const maxHistory: int
    const costMax: real
    const cntToDelete: int
    var trackList: seq<Track<Data>>
    var trackSequenceNum: int

    ghost predicate Valid()
      reads this
    {
      1 <= maxHistory && trackSequenceNum >= 0 && WellNumbered(trackList, trackSequenceNum, maxHistory)
    }

    constructor(maxHistory: int, costMax: real, cntToDelete: int)
      requires 1 <= maxHistory
      ensures Valid() && trackList == [] && trackSequenceNum == 0
      ensures this.maxHistory == maxHistory && this.costMax == costMax && this.cntToDelete == cntToDelete
    {
      this.maxHistory, this.costMax, this.cntToDelete := maxHistory, costMax, cntToDelete;
      trackList, trackSequenceNum := [], 0;
    }

    /** The list is emptied and ids restart at 0. */
    method Reset()
      requires 1 <= maxHistory
      modifies this
      ensures Valid() && trackList == [] && trackSequenceNum == 0
    {
      trackList, trackSequenceNum := [], 0;
    }

    /** One frame: ps and us are the filters' states after predicting and
        after updating, detForTrack and trackForDet the solver's
        `det_index_for_track` and `track_index_for_det`. */
    method Update(detList: seq<BoundingBox>, ps: seq<FilterState>, us: seq<FilterState>, detForTrack: seq<int>,
                  trackForDet: seq<int>, iou: (BoundingBox, BoundingBox) -> real)
      requires Valid() && |ps| == |trackList| == |us| == |detForTrack| && |trackForDet| == |detList|
      modifies this
      ensures Valid()
      ensures trackList == Stepped(old(trackList), old(trackSequenceNum), detList, ps, us, detForTrack,
                                   SolverFree(old(trackList), detList, trackForDet), iou, maxHistory, costMax, cntToDelete)
      ensures trackSequenceNum == old(trackSequenceNum) + CountTrue(SolverFree(old(trackList), detList, trackForDet))
    {
      var ts, next := trackList, trackSequenceNum;
      var r, nextOut := Step(ts, next, detList, ps, us, detForTrack, trackForDet, iou, maxHistory, costMax, cntToDelete);
      assert WellNumbered(r, nextOut, maxHistory) by {
        SteppedProperties(ts, next, detList, ps, us, detForTrack, SolverFree(ts, detList, trackForDet), iou,
                          maxHistory, costMax, cntToDelete);
      }
      trackList, trackSequenceNum := r, nextOut;
    }
  }
}
