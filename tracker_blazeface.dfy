// The face tracker of the BlazeFace demo. Every frame it moves each track to
// its Kalman prediction (a new history entry with score 0), scores every
// pair of prediction and detection on a square cost matrix, lets an
// external solver pair them, updates the tracks whose pair is acceptable,
// counts a miss for the others, drops tracks that missed too often and
// opens a track for every detection no track was updated with. The Kalman
// filter's estimate and the solver's result are inputs; the history bound
// and the maximal cost come from a header that is not part of this model.

module BlazefaceTracker {
  import opened Common
  import opened Tracking

  /** IoU above this makes the pair the same face whatever the classes. */
  const SameObjectIoU: real := 0.9

  /** The box Track::Predict returns: the latest box at the filter's estimate, with score 0. */
  function PredictedBox(t: Track<Data>, e: Estimate): (r: BoundingBox)
    requires |t.history| > 0
    ensures r.classId == Latest(t).bbox.classId && r.score == 0.0 && (r.x, r.y, r.w, r.h) == (e.x, e.y, e.w, e.h)
  {
    Placed(Latest(t).bbox, e).(score := 0.0)
  }

  /** Track::Predict: the predicted box becomes a new entry, filtered and raw. */
  function Predict(t: Track<Data>, e: Estimate, maxHistory: int): Track<Data>
    requires |t.history| > 0
  {
    var b := PredictedBox(t, e);
    t.(history := PushBounded(t.history, Data(b, b), maxHistory))
  }

  /** Track::Update: the latest entry becomes the detection at the filter's
      estimate, with the detection as raw box. */
  function Update(t: Track<Data>, det: BoundingBox, e: Estimate): Track<Data>
    requires |t.history| > 0
  {
    t.(history := SetLatest(t.history, Data(Placed(det, e), det)), cntDetected := t.cntDetected + 1, cntUndetected := 0)
  }

  /** Track::UpdateNoDetect: one more miss. */
  function UpdateNoDetect(t: Track<Data>): Track<Data>
  {
    t.(cntUndetected := t.cntUndetected + 1)
  }

  /** Predict adds one score-0 entry (dropping the oldest beyond the bound);
      Update rewrites only the latest entry, keeping the detection's class
      and score, and resets the misses; UpdateNoDetect only counts a miss. */
  lemma TrackOperations(t: Track<Data>, e: Estimate, det: BoundingBox, e2: Estimate, maxHistory: int)
    requires 1 <= |t.history| <= maxHistory
    ensures var p := Predict(t, e, maxHistory);
      && 1 <= |p.history| <= maxHistory
      && (|t.history| < maxHistory ==> p.history[..|t.history|] == t.history)
      && Latest(p).bbox == PredictedBox(t, e) && Latest(p).bboxRaw.score == 0.0
      && p.id == t.id && p.cntDetected == t.cntDetected && p.cntUndetected == t.cntUndetected
    ensures var u := Update(t, det, e2);
      && |u.history| == |t.history| && u.history[..|u.history| - 1] == t.history[..|t.history| - 1]
      && Latest(u).bboxRaw == det && Latest(u).bbox.classId == det.classId && Latest(u).bbox.score == det.score
      && u.id == t.id && u.cntDetected == t.cntDetected + 1 && u.cntUndetected == 0
    ensures var n := UpdateNoDetect(t);
      n.history == t.history && n.id == t.id && n.cntDetected == t.cntDetected && n.cntUndetected == t.cntUndetected + 1
  {
    var b := PredictedBox(t, e);
    PushBoundedKeepsNewest(t.history, Data(b, b), maxHistory);
    if |t.history| < maxHistory {
      assert PushBounded(t.history, Data(b, b), maxHistory) == t.history + [Data(b, b)];
    }
  }

  // ---------------------------------------------------------------------
  // Cost

  /** Tracker::CalculateSimilarity: costMax minus the IoU, where the IoU is
      kept above 0.9, zeroed below the tracking threshold, and in between
      zeroed unless the classes agree. */
  function Cost(b0: BoundingBox, b1: BoundingBox, iou: (BoundingBox, BoundingBox) -> real, thresholdIoU: real, costMax: real): real
  {
    var v := iou(b0, b1);
    var kept := if v > SameObjectIoU then v else if v < thresholdIoU then 0.0 else if b0.classId == b1.classId then v else 0.0;
    costMax - kept
  }

  /** A pair costs less than costMax exactly when its IoU is positive and
      either above 0.9 or at least the threshold with equal classes; such a
      pair costs costMax minus its IoU, and no pair costs more than costMax
      unless its IoU is negative. */
  lemma CostGate(b0: BoundingBox, b1: BoundingBox, iou: (BoundingBox, BoundingBox) -> real, thresholdIoU: real, costMax: real)
    ensures var c := Cost(b0, b1, iou, thresholdIoU, costMax);
      var v := iou(b0, b1);
      && (c < costMax <==> v > 0.0 && (v > SameObjectIoU || (v >= thresholdIoU && b0.classId == b1.classId)))
      && (c < costMax ==> c == costMax - v)
      && (v >= 0.0 ==> c <= costMax)
  {
  }

  /** Row i of the matrix of size n: the costs against the detections for a
      track, costMax beyond the detections and on rows beyond the tracks. */
  function CostRow(preds: seq<BoundingBox>, dets: seq<BoundingBox>, i: int, n: nat, iou: (BoundingBox, BoundingBox) -> real,
                   thresholdIoU: real, costMax: real): (r: seq<real>)
    ensures |r| == n
    ensures forall j :: 0 <= j < n ==>
      r[j] == if 0 <= i < |preds| && j < |dets| then Cost(preds[i], dets[j], iou, thresholdIoU, costMax) else costMax
  {
    seq(n, j => if 0 <= i < |preds| && 0 <= j < |dets| then Cost(preds[i], dets[j], iou, thresholdIoU, costMax) else costMax)
  }

  /** The square matrix of size max(#tracks, #detections); the entries
      beyond the tracks or the detections stay costMax. */
  function CostMatrix(preds: seq<BoundingBox>, dets: seq<BoundingBox>, iou: (BoundingBox, BoundingBox) -> real,
                      thresholdIoU: real, costMax: real): (m: seq<seq<real>>)
    ensures |m| == Max(|preds|, |dets|) && Rectangular(m, Max(|preds|, |dets|))
    ensures forall i :: 0 <= i < |m| ==> m[i] == CostRow(preds, dets, i, |m|, iou, thresholdIoU, costMax)
  {
    var n := Max(|preds|, |dets|);
    seq(n, i => CostRow(preds, dets, i, n, iou, thresholdIoU, costMax))
  }

  // ---------------------------------------------------------------------
  // One call of Tracker::Update

  function Predicted(ts: seq<Track<Data>>, pe: seq<Estimate>, maxHistory: int): (r: seq<Track<Data>>)
    requires |pe| == |ts| && HistoriesNonEmpty(ts)
    ensures |r| == |ts| && forall i :: 0 <= i < |ts| ==> r[i] == Predict(ts[i], pe[i], maxHistory)
  {
    seq(|ts|, i requires 0 <= i < |ts| => Predict(ts[i], pe[i], maxHistory))
  }

  function PredictedBoxes(ts: seq<Track<Data>>, pe: seq<Estimate>): (r: seq<BoundingBox>)
    requires |pe| == |ts| && HistoriesNonEmpty(ts)
    ensures |r| == |ts| && forall i :: 0 <= i < |ts| ==> r[i] == PredictedBox(ts[i], pe[i])
  {
    seq(|ts|, i requires 0 <= i < |ts| => PredictedBox(ts[i], pe[i]))
  }

  /** The detection each track is updated with, or -1. */
  function Matches(ts: seq<Track<Data>>, dets: seq<BoundingBox>, pe: seq<Estimate>, solverOut: seq<int>,
                   iou: (BoundingBox, BoundingBox) -> real, thresholdIoU: real, costMax: real): (r: seq<int>)
    requires |pe| == |ts| && HistoriesNonEmpty(ts) && |solverOut| == Max(|ts|, |dets|)
    ensures |r| == |ts| && forall i :: 0 <= i < |ts| ==> -1 <= r[i] < |dets|
  {
    var m := CostMatrix(PredictedBoxes(ts, pe), dets, iou, thresholdIoU, costMax);
    Accepted(m, Solution(|ts|, |dets|, solverOut), |ts|, |dets|, costMax)
  }

  function Corrected(t: Track<Data>, paired: int, dets: seq<BoundingBox>, e: Estimate): Track<Data>
    requires |t.history| > 0 && paired < |dets|
  {
    if paired >= 0 then Update(t, dets[paired], e) else UpdateNoDetect(t)
  }

  function CorrectedAll(ps: seq<Track<Data>>, matches: seq<int>, dets: seq<BoundingBox>, ue: seq<Estimate>): (r: seq<Track<Data>>)
    requires HistoriesNonEmpty(ps) && |matches| == |ps| == |ue| && forall i :: 0 <= i < |ps| ==> matches[i] < |dets|
    ensures |r| == |ps| && forall i :: 0 <= i < |ps| ==> r[i] == Corrected(ps[i], matches[i], dets, ue[i])
  {
    seq(|ps|, i requires 0 <= i < |ps| => Corrected(ps[i], matches[i], dets, ue[i]))
  }

  /** The track list after Tracker::Update: pe are the filters' estimates
      after predicting, ue after updating with the matched detection. */
  function Stepped(ts: seq<Track<Data>>, next: int, dets: seq<BoundingBox>, pe: seq<Estimate>, ue: seq<Estimate>,
                   solverOut: seq<int>, iou: (BoundingBox, BoundingBox) -> real,
                   maxHistory: int, thresholdIoU: real, costMax: real, thresholdDelete: int): seq<Track<Data>>
    requires |pe| == |ts| == |ue| && HistoriesNonEmpty(ts) && |solverOut| == Max(|ts|, |dets|)
  {
    var matches := Matches(ts, dets, pe, solverOut, iou, thresholdIoU, costMax);
    Surviving(CorrectedAll(Predicted(ts, pe, maxHistory), matches, dets, ue), thresholdDelete)
      + Spawned(Starts(dets), Unclaimed(matches, |dets|), next)
  }

  /** A track is updated with detection d exactly when the solver paired
      them and the pair passes the IoU and class gate; with no track or no
      detection nothing is paired. */
  lemma MatchesGate(ts: seq<Track<Data>>, dets: seq<BoundingBox>, pe: seq<Estimate>, solverOut: seq<int>,
                    iou: (BoundingBox, BoundingBox) -> real, thresholdIoU: real, costMax: real, i: int, d: int)
    requires |pe| == |ts| && HistoriesNonEmpty(ts) && |solverOut| == Max(|ts|, |dets|)
    requires 0 <= i < |ts| && 0 <= d < |dets|
    ensures var p := PredictedBox(ts[i], pe[i]);
      var v := iou(p, dets[d]);
      Matches(ts, dets, pe, solverOut, iou, thresholdIoU, costMax)[i] == d <==>
        && solverOut[i] == d
        && v > 0.0 && (v > SameObjectIoU || (v >= thresholdIoU && p.classId == dets[d].classId))
  {
    var boxes := PredictedBoxes(ts, pe);
    var m := CostMatrix(boxes, dets, iou, thresholdIoU, costMax);
    var sol := Solution(|ts|, |dets|, solverOut);
    AcceptedIff(m, sol, |ts|, |dets|, costMax, i, d);
    CostGate(boxes[i], dets[d], iou, thresholdIoU, costMax);
  }

  lemma CorrectedNumbered(ps: seq<Track<Data>>, matches: seq<int>, dets: seq<BoundingBox>, ue: seq<Estimate>, next: int, maxHistory: int)
    requires |matches| == |ps| == |ue| && forall i :: 0 <= i < |ps| ==> matches[i] < |dets|
    requires WellNumbered(ps, next, maxHistory)
    ensures WellNumbered(CorrectedAll(ps, matches, dets, ue), next, maxHistory)
  {
    var us := CorrectedAll(ps, matches, dets, ue);
    forall i | 0 <= i < |ps|
      ensures us[i].id == ps[i].id && |us[i].history| == |ps[i].history|
    {
    }
  }

  lemma PredictedNumbered(ts: seq<Track<Data>>, pe: seq<Estimate>, next: int, maxHistory: int)
    requires |pe| == |ts| && 1 <= maxHistory && WellNumbered(ts, next, maxHistory)
    ensures WellNumbered(Predicted(ts, pe, maxHistory), next, maxHistory)
  {
    var ps := Predicted(ts, pe, maxHistory);
    forall i | 0 <= i < |ts|
      ensures ps[i].id == ts[i].id && 1 <= |ps[i].history| <= maxHistory
    {
      TrackOperations(ts[i], pe[i], BoundingBox(0, 0.0, 0, 0, 0, 0), pe[i], maxHistory);
    }
  }

  /** Tracker::Update keeps ids distinct and below the next id and histories
      within the bound; every old track that survives missed fewer than
      thresholdDelete frames; every detection either updates a track or opens
      the track whose id is next plus the number of such detections before it. */
  lemma SteppedProperties(ts: seq<Track<Data>>, next: int, dets: seq<BoundingBox>, pe: seq<Estimate>, ue: seq<Estimate>,
                          solverOut: seq<int>, iou: (BoundingBox, BoundingBox) -> real,
                          maxHistory: int, thresholdIoU: real, costMax: real, thresholdDelete: int)
    requires |pe| == |ts| == |ue| && |solverOut| == Max(|ts|, |dets|)
    requires next >= 0 && 1 <= maxHistory && WellNumbered(ts, next, maxHistory)
    ensures StepOutcome(Stepped(ts, next, dets, pe, ue, solverOut, iou, maxHistory, thresholdIoU, costMax, thresholdDelete),
                        |ts|, thresholdDelete, Starts(dets), Matches(ts, dets, pe, solverOut, iou, thresholdIoU, costMax),
                        next, maxHistory)
  {
    var ps := Predicted(ts, pe, maxHistory);
    PredictedNumbered(ts, pe, next, maxHistory);
    var matches := Matches(ts, dets, pe, solverOut, iou, thresholdIoU, costMax);
    CorrectedNumbered(ps, matches, dets, ue, next, maxHistory);
    var cs := CorrectedAll(ps, matches, dets, ue);
    var r := Stepped(ts, next, dets, pe, ue, solverOut, iou, maxHistory, thresholdIoU, costMax, thresholdDelete);
    PruneThenSpawnOutcome(r, cs, thresholdDelete, Starts(dets), matches, next, maxHistory);
  }

  // ---------------------------------------------------------------------
  // The loops of Tracker::Update

  method PredictAll(ts: seq<Track<Data>>, pe: seq<Estimate>, maxHistory: int) returns (ps: seq<Track<Data>>, preds: seq<BoundingBox>)
    requires |pe| == |ts| && HistoriesNonEmpty(ts)
    ensures ps == Predicted(ts, pe, maxHistory) && preds == PredictedBoxes(ts, pe)
  {
    ps, preds := ts, [];
    var i := 0;
    while i < |ts|
      invariant 0 <= i <= |ts| && |ps| == |ts| && |preds| == i
      invariant forall k :: 0 <= k < i ==> ps[k] == Predict(ts[k], pe[k], maxHistory) && preds[k] == PredictedBox(ts[k], pe[k])
      invariant forall k :: i <= k < |ts| ==> ps[k] == ts[k]
    {
      preds := preds + [PredictedBox(ts[i], pe[i])];
      ps := ps[i := Predict(ts[i], pe[i], maxHistory)];
      i := i + 1;
    }
  }

  /** The matrix starts at costMax everywhere; the track-detection block is then filled in. */
  method FillCostMatrix(preds: seq<BoundingBox>, dets: seq<BoundingBox>, iou: (BoundingBox, BoundingBox) -> real,
                        thresholdIoU: real, costMax: real) returns (m: seq<seq<real>>)
    ensures m == CostMatrix(preds, dets, iou, thresholdIoU, costMax)
  {
    var n := Max(|preds|, |dets|);
    var blank := seq(n, _ => costMax);
    m := seq(n, _ => blank);
    var i := 0;
    while i < |preds|
      invariant 0 <= i <= |preds| && |m| == n
      invariant forall a :: 0 <= a < i ==> m[a] == CostRow(preds, dets, a, n, iou, thresholdIoU, costMax)
      invariant forall a :: i <= a < n ==> m[a] == blank
    {
      var row := m[i];
      var j := 0;
      while j < |dets|
        invariant 0 <= j <= |dets| && |row| == n
        invariant forall b :: 0 <= b < n ==> row[b] == if b < j then Cost(preds[i], dets[b], iou, thresholdIoU, costMax) else costMax
      {
        row := row[j := Cost(preds[i], dets[j], iou, thresholdIoU, costMax)];
        j := j + 1;
      }
      m := m[i := row];
      i := i + 1;
    }
    forall a | |preds| <= a < n
      ensures m[a] == CostRow(preds, dets, a, n, iou, thresholdIoU, costMax)
    {
    }
  }

  /** The cost matrix and the solver's pairs, filtered by the acceptance test. */
  method Associate(ts: seq<Track<Data>>, preds: seq<BoundingBox>, dets: seq<BoundingBox>, pe: seq<Estimate>, solverOut: seq<int>,
                   iou: (BoundingBox, BoundingBox) -> real, thresholdIoU: real, costMax: real) returns (matches: seq<int>)
    requires |pe| == |ts| && HistoriesNonEmpty(ts) && |solverOut| == Max(|ts|, |dets|) && preds == PredictedBoxes(ts, pe)
    ensures matches == Matches(ts, dets, pe, solverOut, iou, thresholdIoU, costMax)
  {
    var m := FillCostMatrix(preds, dets, iou, thresholdIoU, costMax);
    var sol := Solution(|ts|, |dets|, solverOut);
    matches := Accepted(m, sol, |ts|, |dets|, costMax);
  }

  /** The update loop: matched tracks are updated and their detection marked as assigned. */
  method CorrectLoop(ps: seq<Track<Data>>, matches: seq<int>, dets: seq<BoundingBox>, ue: seq<Estimate>)
    returns (us: seq<Track<Data>>, marked: seq<bool>)
    requires HistoriesNonEmpty(ps) && |matches| == |ps| == |ue| && forall i :: 0 <= i < |ps| ==> -1 <= matches[i] < |dets|
    ensures us == CorrectedAll(ps, matches, dets, ue)
    ensures |marked| == |dets| && forall d :: 0 <= d < |dets| ==> (marked[d] <==> d in matches)
  {
    us, marked := ps, seq(|dets|, _ => false);
    var i := 0;
    while i < |ps|
      invariant 0 <= i <= |ps| && |us| == |ps| && |marked| == |dets|
      invariant forall k :: 0 <= k < i ==> us[k] == Corrected(ps[k], matches[k], dets, ue[k])
      invariant forall k :: i <= k < |ps| ==> us[k] == ps[k]
      invariant forall d :: 0 <= d < |dets| ==> (marked[d] <==> d in matches[..i])
    {
      assert matches[..i + 1] == matches[..i] + [matches[i]];
      if matches[i] >= 0 {
        us := us[i := Update(ps[i], dets[matches[i]], ue[i])];
        marked := marked[matches[i] := true];
      } else {
        us := us[i := UpdateNoDetect(ps[i])];
      }
      i := i + 1;
    }
    assert matches[..i] == matches;
  }

  /** The body of Tracker::Update on the track list and the id counter. */
  method Step(ts: seq<Track<Data>>, next: int, dets: seq<BoundingBox>, pe: seq<Estimate>, ue: seq<Estimate>,
              solverOut: seq<int>, iou: (BoundingBox, BoundingBox) -> real,
              maxHistory: int, thresholdIoU: real, costMax: real, thresholdDelete: int) returns (r: seq<Track<Data>>, nextOut: int)
    requires |pe| == |ts| == |ue| && HistoriesNonEmpty(ts) && |solverOut| == Max(|ts|, |dets|)
    ensures r == Stepped(ts, next, dets, pe, ue, solverOut, iou, maxHistory, thresholdIoU, costMax, thresholdDelete)
    ensures nextOut == next + CountTrue(Unclaimed(Matches(ts, dets, pe, solverOut, iou, thresholdIoU, costMax), |dets|))
  {
    var ps, preds := PredictAll(ts, pe, maxHistory);
    var matches := Associate(ts, preds, dets, pe, solverOut, iou, thresholdIoU, costMax);
    var us, marked := CorrectLoop(ps, matches, dets, ue);
    var kept := EraseLost(us, thresholdDelete);
    var free := seq(|dets|, d requires 0 <= d < |dets| => !marked[d]);
    assert free == Unclaimed(matches, |dets|);
    r, nextOut := AddTracks(kept, Starts(dets), free, next);
  }

  class Tracker {
    const maxHistory: int
    const costMax: real
    const thresholdFrameToDelete: int
    const thresholdIoUToTrack: real
    var trackList: seq<Track<Data>>
    var trackSequenceNum: int

    ghost predicate Valid()
      reads this
    {
      1 <= maxHistory && trackSequenceNum >= 0 && WellNumbered(trackList, trackSequenceNum, maxHistory)
    }

    /** Tracker::Tracker: misses allowed 2, IoU threshold 0.3. */
    constructor(maxHistory: int, costMax: real)
      requires 1 <= maxHistory
      ensures Valid() && trackList == [] && trackSequenceNum == 0
      ensures this.maxHistory == maxHistory && this.costMax == costMax
      ensures thresholdFrameToDelete == 2 && thresholdIoUToTrack == 0.3
    {
      this.maxHistory, this.costMax := maxHistory, costMax;
      thresholdFrameToDelete, thresholdIoUToTrack := 2, 0.3;
      trackList, trackSequenceNum := [], 0;
    }

    /** The list is emptied and ids restart at 0. */
    method Reset()
      requires 1 <= maxHistory
      modifies this
      ensures Valid() && trackList == [] && trackSequenceNum == 0
    {
      trackList, trackSequenceNum := [], 0;
    }

    /** One frame: pe and ue are the filters' estimates after predicting and
        after updating, solverOut the solver's `det_index_for_track`. */
    method Update(detList: seq<BoundingBox>, pe: seq<Estimate>, ue: seq<Estimate>, solverOut: seq<int>,
                  iou: (BoundingBox, BoundingBox) -> real)
      requires Valid() && |pe| == |trackList| == |ue| && |solverOut| == Max(|trackList|, |detList|)
      modifies this
      ensures Valid()
      ensures trackList == Stepped(old(trackList), old(trackSequenceNum), detList, pe, ue, solverOut, iou,
                                   maxHistory, thresholdIoUToTrack, costMax, thresholdFrameToDelete)
      ensures trackSequenceNum == old(trackSequenceNum)
        + CountTrue(Unclaimed(Matches(old(trackList), detList, pe, solverOut, iou, thresholdIoUToTrack, costMax), |detList|))
    {
      var ts, next := trackList, trackSequenceNum;
      var r, nextOut := Step(ts, next, detList, pe, ue, solverOut, iou,
                             maxHistory, thresholdIoUToTrack, costMax, thresholdFrameToDelete);
      assert WellNumbered(r, nextOut, maxHistory) by {
        SteppedProperties(ts, next, detList, pe, ue, solverOut, iou,
                          maxHistory, thresholdIoUToTrack, costMax, thresholdFrameToDelete);
        StepOutcomeNumbered(r, |ts|, thresholdFrameToDelete, Starts(detList),
                            Matches(ts, detList, pe, solverOut, iou, thresholdIoUToTrack, costMax), next, maxHistory, |detList|);
      }
      trackList, trackSequenceNum := r, nextOut;
    }
  }
}
