// The tracker of the YOLOX demo. Every frame it predicts each track's box,
// assigns detections to tracks greedily (each track in turn takes the best
// remaining detection of its class), advances every track by a detection or
// by its own prediction, drops tracks that missed too often and opens a
// track for every detection left over. The history bound and the two
// thresholds come from a header that is not part of this model, so each
// tracker holds them as constants set on construction; the scalar Kalman
// filters are inputs.

module YoloxTracker {
  import opened Common
  import opened Tracking

  /** Track::Predict: the latest box moved to the filters' prediction, with score 0. */
  function Predict(t: Track<Data>, f: Filtered): (r: BoundingBox)
    requires |t.history| > 0
    ensures r.classId == Latest(t).bbox.classId && r.score == 0.0
  {
    Filter(Latest(t).bbox, f).(score := 0.0)
  }

  /** Track::Update: a new entry from the box (a detection or the prediction),
      the oldest one dropped beyond the bound, and the counters moved. */
  function Update(t: Track<Data>, box: BoundingBox, f: Filtered, isDetected: bool, maxHistory: int): Track<Data>
  {
    t.(history := PushBounded(t.history, Data(Filter(box, f), box), maxHistory),
       cntDetected := if isDetected then t.cntDetected + 1 else t.cntDetected,
       cntUndetected := if isDetected then 0 else t.cntUndetected + 1)
  }

  /** An update adds one entry whose raw box is the given box and keeps
      between 1 and maxHistory entries; a detection resets the miss counter,
      a miss increments it. */
  lemma UpdateProperties(t: Track<Data>, box: BoundingBox, f: Filtered, isDetected: bool, maxHistory: int)
    requires 1 <= maxHistory && |t.history| <= maxHistory
    ensures var u := Update(t, box, f, isDetected, maxHistory);
      && 1 <= |u.history| <= maxHistory
      && (|t.history| < maxHistory ==> u.history[..|t.history|] == t.history)
      && Latest(u).bboxRaw == box && Latest(u).bbox.classId == box.classId
      && u.id == t.id
      && (isDetected ==> u.cntDetected == t.cntDetected + 1 && u.cntUndetected == 0)
      && (!isDetected ==> u.cntDetected == t.cntDetected && u.cntUndetected == t.cntUndetected + 1)
  {
    PushBoundedKeepsNewest(t.history, Data(Filter(box, f), box), maxHistory);
    if |t.history| < maxHistory {
      assert PushBounded(t.history, Data(Filter(box, f), box), maxHistory) == t.history + [Data(Filter(box, f), box)];
    }
  }

  // ---------------------------------------------------------------------
  // The greedy assignment

  /** The skip bound of the code as written: `track_index_for_det[i_det] > 0`
      skips owners from 1 on. */
  const SkipAsWritten: int := 1
  /** The skip bound of an exclusive assignment: every owner is skipped. */
  const SkipExclusive: int := 0

  /** The detections a track may still take: those whose owner is below skipFrom.
      The code as written skips owners above 0 (skipFrom 1); an exclusive
      assignment skips every owner, 0 included (skipFrom 0). */
  function Open(owner: seq<int>, skipFrom: int): (r: seq<bool>)
    ensures |r| == |owner| && forall d :: 0 <= d < |owner| ==> (r[d] <==> owner[d] < skipFrom)
  {
    seq(|owner|, d requires 0 <= d < |owner| => !(owner[d] >= skipFrom))
  }

  /** One pass of the outer loop: track i takes the running maximum over the
      detections it may still take, and becomes their owner. */
  function Take(prev: (seq<int>, seq<int>), row: seq<real>, floor: real, skipFrom: int, i: int): (r: (seq<int>, seq<int>))
    requires |row| == |prev.1|
    ensures |r.0| == |prev.0| + 1 && |r.1| == |prev.1|
    ensures r.0[..|prev.0|] == prev.0 && -1 <= r.0[|prev.0|] < |row|
  {
    var allowed := Open(prev.1, skipFrom);
    PickIsFirstMax(row, allowed, floor, |row|);
    var best := Pick(row, allowed, floor, |row|).0;
    if best >= 0 then (prev.0 + [best], prev.1[best := i]) else (prev.0 + [-1], prev.1)
  }

  /** The assignment after the first n tracks: the detection of each track
      (`det_index_for_track`) and the last track that took each detection
      (`track_index_for_det`), -1 for none. */
  function Assignment(table: seq<seq<real>>, nDets: nat, floor: real, skipFrom: int, n: nat): (r: (seq<int>, seq<int>))
    requires n <= |table| && Rectangular(table, nDets)
    ensures |r.0| == n && |r.1| == nDets
    ensures forall i :: 0 <= i < n ==> -1 <= r.0[i] < nDets
    ensures forall d :: 0 <= d < nDets ==> -1 <= r.1[d] < n
  {
    if n == 0 then ([], seq(nDets, _ => -1))
    else
      var prev := Assignment(table, nDets, floor, skipFrom, n - 1);
      var r := Take(prev, table[n - 1], floor, skipFrom, n - 1);
      assert forall i :: 0 <= i < n - 1 ==> r.0[i] == r.0[..n - 1][i];
      r
  }

  /** Each track takes a different detection, or none, and each detection's
      owner is the track that took it. */
  ghost predicate OneToOne(c: seq<int>, o: seq<int>)
  {
    && (forall i, j :: 0 <= i < j < |c| && c[i] >= 0 ==> c[i] != c[j])
    && (forall i :: 0 <= i < |c| && c[i] >= 0 ==> c[i] < |o| && o[c[i]] == i)
    && (forall d :: 0 <= d < |o| ==> -1 <= o[d] < |c| && (o[d] >= 0 ==> c[o[d]] == d))
  }

  lemma OneToOneOwners(c: seq<int>, o: seq<int>)
    requires OneToOne(c, o)
    ensures forall d :: 0 <= d < |o| ==> (o[d] < 0 <==> d !in c)
  {
    forall d | 0 <= d < |o| && d in c
      ensures o[d] >= 0
    {
      var i :| 0 <= i < |c| && c[i] == d;
    }
  }

  /** A pick of the running maximum is an allowed position. */
  lemma PickAllowed(row: seq<real>, allowed: seq<bool>, floor: real)
    requires |allowed| == |row|
    ensures var best := Pick(row, allowed, floor, |row|).0;
      -1 <= best < |row| && (best >= 0 ==> allowed[best])
  {
    PickIsFirstMax(row, allowed, floor, |row|);
  }

  /** A track that takes an unowned detection keeps the vectors consistent. */
  lemma OneToOneSnoc(c: seq<int>, o: seq<int>, best: int)
    requires OneToOne(c, o) && 0 <= best < |o| && o[best] == -1
    ensures OneToOne(c + [best], o[best := |c|])
  {
    var c', o' := c + [best], o[best := |c|];
    forall k | 0 <= k < |c| && c[k] >= 0
      ensures c[k] != best && c'[k] == c[k] && o'[c[k]] == k
    {
    }
    forall d | 0 <= d < |o'| && o'[d] >= 0
      ensures c'[o'[d]] == d
    {
      if d != best {
        assert c'[o[d]] == c[o[d]];
      }
    }
  }

  /** A track that takes nothing keeps the vectors consistent. */
  lemma OneToOneSnocNone(c: seq<int>, o: seq<int>)
    requires OneToOne(c, o)
    ensures OneToOne(c + [-1], o)
  {
    var c' := c + [-1];
    forall d | 0 <= d < |o| && o[d] >= 0
      ensures c'[o[d]] == d
    {
      assert c'[o[d]] == c[o[d]];
    }
  }

  lemma TakeOneToOne(prev: (seq<int>, seq<int>), row: seq<real>, floor: real)
    requires |row| == |prev.1| && OneToOne(prev.0, prev.1)
    ensures OneToOne(Take(prev, row, floor, 0, |prev.0|).0, Take(prev, row, floor, 0, |prev.0|).1)
  {
    var (c, o) := prev;
    var allowed := Open(o, 0);
    PickAllowed(row, allowed, floor);
    var best := Pick(row, allowed, floor, |row|).0;
    if best >= 0 {
      OneToOneSnoc(c, o, best);
    } else {
      OneToOneSnocNone(c, o);
    }
  }

  /** Track i's pick: nothing exactly when every detection no earlier track
      took scores at most the floor; otherwise the first of those
      detections with the highest score, which is above the floor. */
  ghost predicate BestAt(c: seq<int>, i: int, row: seq<real>, floor: real)
    requires 0 <= i < |c|
  {
    && (c[i] == -1 <==> forall d :: 0 <= d < |row| && d !in c[..i] ==> row[d] <= floor)
    && (c[i] >= 0 ==>
          && c[i] < |row| && c[i] !in c[..i] && row[c[i]] > floor
          && (forall d :: 0 <= d < |row| && d !in c[..i] ==> row[d] <= row[c[i]])
          && (forall d :: 0 <= d < c[i] && d !in c[..i] ==> row[d] < row[c[i]]))
  }

  lemma TakeBest(prev: (seq<int>, seq<int>), row: seq<real>, floor: real)
    requires |row| == |prev.1| && OneToOne(prev.0, prev.1)
    ensures BestAt(Take(prev, row, floor, 0, |prev.0|).0, |prev.0|, row, floor)
  {
    var (c, o) := prev;
    var allowed := Open(o, 0);
    PickIsFirstMax(row, allowed, floor, |row|);
    OneToOneOwners(c, o);
    var r := Take(prev, row, floor, 0, |c|);
    assert r.0[..|c|] == c;
    forall d | 0 <= d < |row|
      ensures allowed[d] <==> d !in c
    {
    }
  }

  /** Extending the picks leaves the earlier picks' properties alone. */
  /** A pick's properties depend only on the picks up to it. */
  lemma BestAtPrefix(c: seq<int>, c2: seq<int>, i: int, row: seq<real>, floor: real)
    requires 0 <= i < |c| && i < |c2| && c[..i + 1] == c2[..i + 1] && BestAt(c, i, row, floor)
    ensures BestAt(c2, i, row, floor)
  {
    assert c[i] == c[..i + 1][i] && c2[i] == c2[..i + 1][i];
    assert c[..i] == c[..i + 1][..i] && c2[..i] == c2[..i + 1][..i];
  }

  /** Every pick among the first |c| is its track's best match. */
  ghost predicate AllBest(c: seq<int>, table: seq<seq<real>>, floor: real)
    requires |c| <= |table|
  {
    forall i :: 0 <= i < |c| ==> BestAt(c, i, table[i], floor)
  }

  lemma BestAtExtended(c: seq<int>, c2: seq<int>, table: seq<seq<real>>, floor: real)
    requires |c2| == |c| + 1 <= |table| && c2[..|c|] == c
    requires AllBest(c, table, floor) && BestAt(c2, |c|, table[|c|], floor)
    ensures AllBest(c2, table, floor)
  {
    forall i | 0 <= i < |c|
      ensures BestAt(c2, i, table[i], floor)
    {
      assert c[..i + 1] == c2[..i + 1];
      BestAtPrefix(c, c2, i, table[i], floor);
    }
  }

  /** A detection has no owner exactly when no track holds it. */
  predicate OwnersTaken(a: (seq<int>, seq<int>)) {
    forall d :: 0 <= d < |a.1| ==> (a.1[d] < 0 <==> d !in a.0)
  }

  /** Whatever the skip bound, a detection has an owner exactly when some
      track took it: an owner is only ever overwritten by a later track. */
  lemma {:induction false} OwnedIffTaken(table: seq<seq<real>>, nDets: nat, floor: real, skipFrom: int, n: nat)
    requires n <= |table| && Rectangular(table, nDets)
    ensures OwnersTaken(Assignment(table, nDets, floor, skipFrom, n))
  {
    if n > 0 {
      var prev := Assignment(table, nDets, floor, skipFrom, n - 1);
      OwnedIffTaken(table, nDets, floor, skipFrom, n - 1);
      assert OwnersTaken(prev);
      var row := table[n - 1];
      var r := Take(prev, row, floor, skipFrom, n - 1);
      assert Assignment(table, nDets, floor, skipFrom, n) == r;
      var allowed := Open(prev.1, skipFrom);
      PickIsFirstMax(row, allowed, floor, |row|);
      var best := Pick(row, allowed, floor, |row|).0;
      forall d | 0 <= d < nDets
        ensures r.1[d] < 0 <==> d !in r.0
      {
        if best >= 0 {
          assert r == (prev.0 + [best], prev.1[best := n - 1]);
          assert d in r.0 <==> d in prev.0 || d == best;
        } else {
          assert r == (prev.0 + [-1], prev.1);
          assert d in r.0 <==> d in prev.0;
        }
      }
    }
  }

  /** With every owner skipped the two vectors stay consistent. */
  lemma {:induction false} AssignmentConsistent(table: seq<seq<real>>, nDets: nat, floor: real, n: nat)
    requires n <= |table| && Rectangular(table, nDets)
    ensures OneToOne(Assignment(table, nDets, floor, 0, n).0, Assignment(table, nDets, floor, 0, n).1)
  {
    if n > 0 {
      var prev := Assignment(table, nDets, floor, 0, n - 1);
      assert OneToOne(prev.0, prev.1) by {
        AssignmentConsistent(table, nDets, floor, n - 1);
      }
      assert Assignment(table, nDets, floor, 0, n) == Take(prev, table[n - 1], floor, 0, n - 1);
      TakeOneToOne(prev, table[n - 1], floor);
    }
  }

  /** With every owner skipped the assignment is one to one, and a
      detection has no owner exactly when no track took it. */
  lemma AssignmentOneToOne(table: seq<seq<real>>, nDets: nat, floor: real, n: nat)
    requires n <= |table| && Rectangular(table, nDets)
    ensures var r := Assignment(table, nDets, floor, 0, n);
      && OneToOne(r.0, r.1)
      && (forall d :: 0 <= d < nDets ==> (r.1[d] < 0 <==> d !in r.0))
  {
    var r := Assignment(table, nDets, floor, 0, n);
    AssignmentConsistent(table, nDets, floor, n);
    OneToOneOwners(r.0, r.1);
  }

  /** One more track keeps every pick the best match left to its track. */
  lemma AllBestStep(table: seq<seq<real>>, nDets: nat, floor: real, n: nat)
    requires 0 < n <= |table| && Rectangular(table, nDets)
    requires OneToOne(Assignment(table, nDets, floor, 0, n - 1).0, Assignment(table, nDets, floor, 0, n - 1).1)
    requires AllBest(Assignment(table, nDets, floor, 0, n - 1).0, table, floor)
    ensures AllBest(Assignment(table, nDets, floor, 0, n).0, table, floor)
  {
    var prev := Assignment(table, nDets, floor, 0, n - 1);
    var row := table[n - 1];
    assert Assignment(table, nDets, floor, 0, n) == Take(prev, row, floor, 0, n - 1);
    TakeBest(prev, row, floor);
    BestAtExtended(prev.0, Take(prev, row, floor, 0, n - 1).0, table, floor);
  }

  /** With every owner skipped, every track's pick is its best match among
      the detections earlier tracks left. */
  lemma {:induction false} AssignmentBest(table: seq<seq<real>>, nDets: nat, floor: real, n: nat)
    requires n <= |table| && Rectangular(table, nDets)
    ensures AllBest(Assignment(table, nDets, floor, 0, n).0, table, floor)
  {
    if n > 0 {
      AssignmentConsistent(table, nDets, floor, n - 1);
      AssignmentBest(table, nDets, floor, n - 1);
      AllBestStep(table, nDets, floor, n);
    }
  }

  /** As written, a detection taken by track 0 stays free: two tracks that
      both overlap one detection both take it, and the second is updated
      with it too; skipping every owner leaves the second track unmatched. */
  lemma AsWrittenSharesDetection()
    ensures Assignment([[0.9], [0.9]], 1, 0.5, 1, 2).0 == [0, 0]
    ensures Assignment([[0.9], [0.9]], 1, 0.5, 0, 2).0 == [0, -1]
  {
    var table := [[0.9], [0.9]];
    FirstTrackTakes(1);
    FirstTrackTakes(0);
    assert Open([0], 1) == [true] && Open([0], 0) == [false];
    assert Pick(table[1], [true], 0.5, 1) == (0, 0.9);
    assert Pick(table[1], [false], 0.5, 1) == (-1, 0.5);
    assert Take(([0], [0]), table[1], 0.5, 1, 1).0 == [0, 0];
    assert Take(([0], [0]), table[1], 0.5, 0, 1).0 == [0, -1];
  }

  /** Track 0 takes the detection whichever owners are skipped. */
  lemma FirstTrackTakes(skipFrom: int)
    requires 0 <= skipFrom <= 1
    ensures Assignment([[0.9], [0.9]], 1, 0.5, skipFrom, 1) == ([0], [0])
  {
    var table := [[0.9], [0.9]];
    var none := Assignment(table, 1, 0.5, skipFrom, 0);
    assert none.0 == [] && none.1 == [-1];
    assert Open([-1], skipFrom) == [true];
    assert Pick(table[0], [true], 0.5, 1) == (0, 0.9);
    assert [-1][0 := 0] == [0] && none.0 + [0] == [0];
    assert Take(none, table[0], 0.5, skipFrom, 0) == ([0], [0]);
  }

  // ---------------------------------------------------------------------
  // One call of Tracker::Update

  function Predictions(ts: seq<Track<Data>>, pred: seq<Filtered>): (r: seq<BoundingBox>)
    requires |pred| == |ts| && HistoriesNonEmpty(ts)
    ensures |r| == |ts| && forall i :: 0 <= i < |ts| ==> r[i] == Predict(ts[i], pred[i])
  {
    seq(|ts|, i requires 0 <= i < |ts| => Predict(ts[i], pred[i]))
  }

  function Table(boxes: seq<BoundingBox>, dets: seq<BoundingBox>, iou: (BoundingBox, BoundingBox) -> real): (r: seq<seq<real>>)
    ensures |r| == |boxes| && Rectangular(r, |dets|)
    ensures forall k :: 0 <= k < |boxes| ==> r[k] == SimilarityRow(boxes[k], dets, iou)
  {
    seq(|boxes|, k requires 0 <= k < |boxes| => SimilarityRow(boxes[k], dets, iou))
  }

  /** The track advanced by its detection, or by its own prediction as a miss. */
  function Advance(t: Track<Data>, choice: int, dets: seq<BoundingBox>, pred: BoundingBox, f: Filtered, maxHistory: int): Track<Data>
    requires choice < |dets|
  {
    if choice >= 0 then Update(t, dets[choice], f, true, maxHistory) else Update(t, pred, f, false, maxHistory)
  }

  function AdvanceAll(ts: seq<Track<Data>>, choice: seq<int>, dets: seq<BoundingBox>, preds: seq<BoundingBox>,
                      upd: seq<Filtered>, maxHistory: int): (r: seq<Track<Data>>)
    requires |choice| == |ts| == |preds| == |upd| && forall i :: 0 <= i < |choice| ==> choice[i] < |dets|
    ensures |r| == |ts|
  {
    seq(|ts|, i requires 0 <= i < |ts| => Advance(ts[i], choice[i], dets, preds[i], upd[i], maxHistory))
  }

  /** The assignment Tracker::Update makes with skip bound `skipFrom`
      (SkipAsWritten in the source). */
  function Assigned(ts: seq<Track<Data>>, dets: seq<BoundingBox>, pred: seq<Filtered>, iouToTrack: real,
                    iou: (BoundingBox, BoundingBox) -> real, skipFrom: int): (r: (seq<int>, seq<int>))
    requires |pred| == |ts| && HistoriesNonEmpty(ts)
    ensures |r.0| == |ts| && |r.1| == |dets|
    ensures forall i :: 0 <= i < |ts| ==> -1 <= r.0[i] < |dets|
  {
    Assignment(Table(Predictions(ts, pred), dets, iou), |dets|, iouToTrack, skipFrom, |ts|)
  }

  function Unowned(owner: seq<int>): (r: seq<bool>)
    ensures |r| == |owner| && forall d :: 0 <= d < |owner| ==> (r[d] <==> owner[d] < 0)
  {
    seq(|owner|, d requires 0 <= d < |owner| => owner[d] < 0)
  }

  /** The track list after Tracker::Update. */
  function Stepped(ts: seq<Track<Data>>, next: int, dets: seq<BoundingBox>, pred: seq<Filtered>, upd: seq<Filtered>,
                   iou: (BoundingBox, BoundingBox) -> real, maxHistory: int, iouToTrack: real, cntToDelete: int,
                   skipFrom: int): seq<Track<Data>>
    requires |pred| == |ts| == |upd| && HistoriesNonEmpty(ts)
  {
    var a := Assigned(ts, dets, pred, iouToTrack, iou, skipFrom);
    Surviving(AdvanceAll(ts, a.0, dets, Predictions(ts, pred), upd, maxHistory), cntToDelete)
      + Spawned(Starts(dets), Unowned(a.1), next)
  }

  /** Advancing every track keeps ids and the history bound. */
  lemma AdvanceNumbered(ts: seq<Track<Data>>, choice: seq<int>, dets: seq<BoundingBox>, preds: seq<BoundingBox>,
                        upd: seq<Filtered>, next: int, maxHistory: int)
    requires |choice| == |ts| == |preds| == |upd| && forall i :: 0 <= i < |choice| ==> choice[i] < |dets|
    requires 1 <= maxHistory && WellNumbered(ts, next, maxHistory)
    ensures WellNumbered(AdvanceAll(ts, choice, dets, preds, upd, maxHistory), next, maxHistory)
  {
    var us := AdvanceAll(ts, choice, dets, preds, upd, maxHistory);
    forall i | 0 <= i < |ts|
      ensures us[i].id == ts[i].id && 1 <= |us[i].history| <= maxHistory
    {
      if choice[i] >= 0 {
        UpdateProperties(ts[i], dets[choice[i]], upd[i], true, maxHistory);
      } else {
        UpdateProperties(ts[i], preds[i], upd[i], false, maxHistory);
      }
    }
  }

  /** The exclusive assignment is one to one, and a detection opens a new
      track exactly when no track took it. */
  ghost predicate Exclusive(a: (seq<int>, seq<int>), nTracks: int, nDets: int)
  {
    && |a.0| == nTracks && |a.1| == nDets
    && (forall d :: 0 <= d < nDets ==> (Unowned(a.1)[d] <==> d !in a.0))
    && (forall i, j :: 0 <= i < j < nTracks && a.0[i] >= 0 ==> a.0[i] != a.0[j])
  }

  lemma AssignedExclusive(ts: seq<Track<Data>>, dets: seq<BoundingBox>, pred: seq<Filtered>, iouToTrack: real,
                          iou: (BoundingBox, BoundingBox) -> real)
    requires |pred| == |ts| && HistoriesNonEmpty(ts)
    ensures Exclusive(Assigned(ts, dets, pred, iouToTrack, iou, SkipExclusive), |ts|, |dets|)
  {
    AssignmentOneToOne(Table(Predictions(ts, pred), dets, iou), |dets|, iouToTrack, |ts|);
  }

  /** As written, a detection opens a new track exactly when no track took
      it, although two tracks may take the same one. */
  lemma AssignedOpensUntaken(ts: seq<Track<Data>>, dets: seq<BoundingBox>, pred: seq<Filtered>, iouToTrack: real,
                             iou: (BoundingBox, BoundingBox) -> real)
    requires |pred| == |ts| && HistoriesNonEmpty(ts)
    ensures var a := Assigned(ts, dets, pred, iouToTrack, iou, SkipAsWritten);
      forall d :: 0 <= d < |dets| ==> (Unowned(a.1)[d] <==> d !in a.0)
  {
    var table := Table(Predictions(ts, pred), dets, iou);
    OwnedIffTaken(table, |dets|, iouToTrack, SkipAsWritten, |ts|);
    var a := Assigned(ts, dets, pred, iouToTrack, iou, SkipAsWritten);
    assert a == Assignment(table, |dets|, iouToTrack, SkipAsWritten, |ts|);
    forall d | 0 <= d < |dets|
      ensures Unowned(a.1)[d] <==> d !in a.0
    {
      assert Unowned(a.1)[d] <==> a.1[d] < 0;
    }
  }

  /** The number of tracks Tracker::Update opens. */
  function Opened(ts: seq<Track<Data>>, dets: seq<BoundingBox>, pred: seq<Filtered>, iouToTrack: real,
                  iou: (BoundingBox, BoundingBox) -> real, skipFrom: int): int
    requires |pred| == |ts| && HistoriesNonEmpty(ts)
  {
    CountTrue(Unowned(Assigned(ts, dets, pred, iouToTrack, iou, skipFrom).1))
  }

  /** Tracker::Update keeps ids distinct and below the next id and histories
      within the bound; every old track that survives missed fewer than
      cntToDelete frames; the new tracks take consecutive ids from next, one
      per detection that no track took.  This holds whatever the skip bound,
      so for the code as written as well as for the exclusive assignment. */
  lemma SteppedProperties(ts: seq<Track<Data>>, next: int, dets: seq<BoundingBox>, pred: seq<Filtered>, upd: seq<Filtered>,
                          iou: (BoundingBox, BoundingBox) -> real, maxHistory: int, iouToTrack: real, cntToDelete: int,
                          skipFrom: int)
    requires |pred| == |ts| == |upd| && next >= 0 && 1 <= maxHistory && WellNumbered(ts, next, maxHistory)
    ensures ConsecutiveOutcome(Stepped(ts, next, dets, pred, upd, iou, maxHistory, iouToTrack, cntToDelete, skipFrom), |ts|,
                               Opened(ts, dets, pred, iouToTrack, iou, skipFrom), next, cntToDelete, maxHistory)
  {
    var preds := Predictions(ts, pred);
    var a := Assigned(ts, dets, pred, iouToTrack, iou, skipFrom);
    var us := AdvanceAll(ts, a.0, dets, preds, upd, maxHistory);
    AdvanceNumbered(ts, a.0, dets, preds, upd, next, maxHistory);
    var r := Stepped(ts, next, dets, pred, upd, iou, maxHistory, iouToTrack, cntToDelete, skipFrom);
    PruneThenSpawnConsecutive(r, us, cntToDelete, Starts(dets), Unowned(a.1), next, maxHistory);
  }

  // ---------------------------------------------------------------------
  // The loops of Tracker::Update

  method PredictAll(ts: seq<Track<Data>>, pred: seq<Filtered>) returns (preds: seq<BoundingBox>)
    requires |pred| == |ts| && HistoriesNonEmpty(ts)
    ensures preds == Predictions(ts, pred)
  {
    preds := [];
    var i := 0;
    while i < |ts|
      invariant 0 <= i <= |ts| && |preds| == i
      invariant forall k :: 0 <= k < i ==> preds[k] == Predict(ts[k], pred[k])
    {
      preds := preds + [Predict(ts[i], pred[i])];
      i := i + 1;
    }
  }

  /** One pass of the assignment loop: track i takes its pick and becomes its owner. */
  method AssignTrack(table: seq<seq<real>>, nDets: nat, floor: real, skipFrom: int, i: nat,
                     detForTrack: seq<int>, trackForDet: seq<int>)
    returns (detOut: seq<int>, trackOut: seq<int>)
    requires i < |table| && Rectangular(table, nDets)
    requires (detForTrack, trackForDet) == Assignment(table, nDets, floor, skipFrom, i)
    ensures (detOut, trackOut) == Assignment(table, nDets, floor, skipFrom, i + 1)
  {
    var best := PickBest(table[i], Open(trackForDet, skipFrom), floor);
    PickAllowed(table[i], Open(trackForDet, skipFrom), floor);
    if best >= 0 {
      detOut, trackOut := detForTrack + [best], trackForDet[best := i];
    } else {
      detOut, trackOut := detForTrack + [-1], trackForDet;
    }
  }

  /** The assignment loop, skipping the detections whose owner is at least skipFrom. */
  method Assign(table: seq<seq<real>>, nDets: nat, floor: real, skipFrom: int)
    returns (detForTrack: seq<int>, trackForDet: seq<int>)
    requires Rectangular(table, nDets)
    ensures (detForTrack, trackForDet) == Assignment(table, nDets, floor, skipFrom, |table|)
  {
    detForTrack, trackForDet := [], seq(nDets, _ => -1);
    var i := 0;
    while i < |table|
      invariant 0 <= i <= |table|
      invariant (detForTrack, trackForDet) == Assignment(table, nDets, floor, skipFrom, i)
    {
      detForTrack, trackForDet := AssignTrack(table, nDets, floor, skipFrom, i, detForTrack, trackForDet);
      i := i + 1;
    }
  }

  method AdvanceLoop(ts: seq<Track<Data>>, choice: seq<int>, dets: seq<BoundingBox>, preds: seq<BoundingBox>,
                     upd: seq<Filtered>, maxHistory: int) returns (us: seq<Track<Data>>)
    requires |choice| == |ts| == |preds| == |upd| && forall i :: 0 <= i < |choice| ==> choice[i] < |dets|
    ensures us == AdvanceAll(ts, choice, dets, preds, upd, maxHistory)
  {
    us := ts;
    var i := 0;
    while i < |ts|
      invariant 0 <= i <= |ts| && |us| == |ts|
      invariant forall k :: 0 <= k < i ==> us[k] == Advance(ts[k], choice[k], dets, preds[k], upd[k], maxHistory)
      invariant forall k :: i <= k < |ts| ==> us[k] == ts[k]
    {
      if choice[i] >= 0 {
        us := us[i := Update(ts[i], dets[choice[i]], upd[i], true, maxHistory)];
      } else {
        us := us[i := Update(ts[i], preds[i], upd[i], false, maxHistory)];
      }
      i := i + 1;
    }
  }

  /** The loops of Tracker::Update, one after the other. */
  method Step(ts: seq<Track<Data>>, next: int, dets: seq<BoundingBox>, pred: seq<Filtered>, upd: seq<Filtered>,
              iou: (BoundingBox, BoundingBox) -> real, maxHistory: int, iouToTrack: real, cntToDelete: int,
              skipFrom: int)
    returns (r: seq<Track<Data>>, nextOut: int)
    requires |pred| == |ts| == |upd| && HistoriesNonEmpty(ts)
    ensures r == Stepped(ts, next, dets, pred, upd, iou, maxHistory, iouToTrack, cntToDelete, skipFrom)
    ensures nextOut == next + Opened(ts, dets, pred, iouToTrack, iou, skipFrom)
  {
    var preds := PredictAll(ts, pred);
    var table := SimilarityTable(preds, dets, iou);
    assert table == Table(preds, dets, iou);
    var detForTrack, trackForDet := Assign(table, |dets|, iouToTrack, skipFrom);
    var us := AdvanceLoop(ts, detForTrack, dets, preds, upd, maxHistory);
    var kept := EraseLost(us, cntToDelete);
    r, nextOut := AddTracks(kept, Starts(dets), Unowned(trackForDet), next);
  }

  class Tracker {
    const maxHistory: int
    const iouToTrack: real
    const cntToDelete: int
    var trackList: seq<Track<Data>>
    var trackSequenceNum: int

    ghost predicate Valid()
      reads this
    {
      1 <= maxHistory && trackSequenceNum >= 0 && WellNumbered(trackList, trackSequenceNum, maxHistory)
    }

    constructor(maxHistory: int, iouToTrack: real, cntToDelete: int)
      requires 1 <= maxHistory
      ensures Valid() && trackList == [] && trackSequenceNum == 0
      ensures this.maxHistory == maxHistory && this.iouToTrack == iouToTrack && this.cntToDelete == cntToDelete
    {
      this.maxHistory, this.iouToTrack, this.cntToDelete := maxHistory, iouToTrack, cntToDelete;
      trackList, trackSequenceNum := [], 0;
    }

    /** The list is emptied and ids restart at 0. */
    method Reset()
      requires 1 <= maxHistory
      modifies this
      ensures Valid() && trackList == [] && trackSequenceNum == 0
    {
      trackList, trackSequenceNum := [], 0;
    }

    /** One frame: pred is what each track's filters predict, upd what they
        return when updated with the detection or the prediction.  The
        assignment skips a detection only when its owner is above 0, as the
        source does. */
    method Update(detList: seq<BoundingBox>, pred: seq<Filtered>, upd: seq<Filtered>, iou: (BoundingBox, BoundingBox) -> real)
      requires Valid() && |pred| == |trackList| == |upd|
      modifies this
      ensures Valid()
      ensures trackList == Stepped(old(trackList), old(trackSequenceNum), detList, pred, upd, iou, maxHistory, iouToTrack,
                                   cntToDelete, SkipAsWritten)
      ensures trackSequenceNum == old(trackSequenceNum) + Opened(old(trackList), detList, pred, iouToTrack, iou, SkipAsWritten)
    {
      var ts, next := trackList, trackSequenceNum;
      var r, nextOut := Step(ts, next, detList, pred, upd, iou, maxHistory, iouToTrack, cntToDelete, SkipAsWritten);
      assert WellNumbered(r, nextOut, maxHistory) by {
        SteppedProperties(ts, next, detList, pred, upd, iou, maxHistory, iouToTrack, cntToDelete, SkipAsWritten);
      }
      trackList, trackSequenceNum := r, nextOut;
    }
  }
}
