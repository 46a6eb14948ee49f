// The gesture area-selection state machine of the AR-probe demo: an index
// finger drags out a rectangle that is selected when two fingers are shown.

module AreaSelection {
  import opened Common

  datatype Status = Init | Drag | Selected
  datatype Point = Point(x: int, y: int)
  datatype Rect = Rect(x: int, y: int, width: int, height: int)

  /** What one call of `run` sees of a hand: the landmark model's hand flag,
      the pixel position of landmark 8 (the index finger tip) and the verdict
      of the finger-pose classifier: 1 index finger only, 0 index and middle
      finger, -1 anything else. */
  datatype HandInput = HandInput(handflag: real, tipX: real, tipY: real, pointing: int)

  /** The debounce filter: the adopted finger status and the mismatch count. */
  datatype Filter = Filter(finger: int, chatter: int)
  datatype Debounced = Debounced(next: Filter, out: int)

  datatype State = State(status: Status, start: Point, area: Rect, untrusted: int, filter: Filter)

  /** Mismatch counts above which the filter adopts a new value. */
  const CurrentChatterLimit: int := 5
  const LegacyChatterLimit: int := 10
  /** Untrusted calls above which the selection is abandoned. */
  const UntrustedLimit: int := 10
  /** The hand flag a landmark result must exceed to be classified. */
  const TrustedHandflag: real := 0.9

  const Origin: Rect := Rect(0, 0, 0, 0)

  function InitialState(): State {
    State(Init, Point(0, 0), Origin, 0, Filter(-1, 0))
  }

  /** removeChattering: a value different from the adopted one is counted,
      and adopted once the count exceeds the limit. */
  function Debounce(f: Filter, value: int, limit: int): Debounced {
    var next :=
      if f.finger != value then
        (if f.chatter + 1 > limit then Filter(value, 0) else Filter(f.finger, f.chatter + 1))
      else Filter(f.finger, 0);
    Debounced(next, if value == -1 then -1 else next.finger)
  }

  /** The rectangle spanned by the drag start point and the finger tip. */
  function DragArea(start: Point, tipX: real, tipY: real): Rect {
    Rect(Min(start.x, Trunc(tipX)), Min(start.y, Trunc(tipY)),
         Trunc(RAbs(start.x as real - tipX)), Trunc(RAbs(start.y as real - tipY)))
  }

  /** The finger status `run` acts on, with the filter state it leaves. */
  function Classify(f: Filter, h: HandInput, limit: int): Debounced {
    if h.handflag > TrustedHandflag then Debounce(f, h.pointing, limit) else Debounced(f, -1)
  }

  /** One call of `run`. */
  function RunStep(s: State, h: HandInput, limit: int): State {
    var d := Classify(s.filter, h, limit);
    var fs := d.out;
    var untrusted := if fs == -1 then s.untrusted + 1 else 0;
    var status := if fs == -1 && untrusted > UntrustedLimit then Init else s.status;
    var s1 := s.(untrusted := untrusted, filter := d.next, status := status);
    match status
    case Init =>
      if fs == 1 then s1.(area := Origin, status := Drag, start := Point(Trunc(h.tipX), Trunc(h.tipY)))
      else s1.(area := Origin)
    case Drag =>
      if fs != -1 then s1.(area := DragArea(s.start, h.tipX, h.tipY), status := if fs == 0 then Selected else Drag)
      else s1
    case Selected => s1.(status := Init)
  }

  /** Successive calls of `run`. */
  function RunAll(s: State, hs: seq<HandInput>, limit: int): State
    decreases |hs|
  {
    if hs == [] then s else RunAll(RunStep(s, hs[0], limit), hs[1..], limit)
  }

  /** Successive calls of `removeChattering` with one value. */
  function DebounceRepeat(f: Filter, value: int, limit: int, n: nat): Filter
    decreases n
  {
    if n == 0 then f else DebounceRepeat(Debounce(f, value, limit).next, value, limit, n - 1)
  }

  predicate Untrusted(h: HandInput) {
    h.handflag <= TrustedHandflag || h.pointing == -1
  }

  /** What every reachable state satisfies. */
  predicate Inv(s: State, limit: int) {
    && s.untrusted >= 0
    && 0 <= s.filter.chatter <= limit
    && s.filter.finger in {-1, 0, 1}
    && s.area.width >= 0 && s.area.height >= 0
  }

  lemma InitialStateInv(limit: int)
    requires limit >= 0
    ensures Inv(InitialState(), limit)
    ensures InitialState().status == Init && InitialState().filter.finger == -1
  {
  }

  /** `run` keeps the invariant for classifier verdicts in {-1, 0, 1}. */
  lemma RunStepInv(s: State, h: HandInput, limit: int)
    requires limit >= 0 && Inv(s, limit) && h.pointing in {-1, 0, 1}
    ensures Inv(RunStep(s, h, limit), limit)
  {
  }

  /** The filter's output is -1 for input -1 and the adopted value otherwise. */
  lemma DebounceOutput(f: Filter, value: int, limit: int)
    ensures value == -1 ==> Debounce(f, value, limit).out == -1
    ensures value != -1 ==> Debounce(f, value, limit).out == Debounce(f, value, limit).next.finger
    ensures Debounce(f, value, limit).next.finger in {f.finger, value}
    ensures f.finger == value ==> Debounce(f, value, limit).next == Filter(value, 0)
  {
  }

  /** A new value is adopted by exactly the call on which its mismatch count
      exceeds the limit; before that the adopted value does not change. */
  lemma {:induction false} DebounceAdopts(f: Filter, value: int, limit: int, n: nat)
    requires f.finger != value && 0 <= f.chatter <= limit
    requires f.chatter + n <= limit + 1
    ensures f.chatter + n <= limit ==> DebounceRepeat(f, value, limit, n) == Filter(f.finger, f.chatter + n)
    ensures f.chatter + n == limit + 1 ==> DebounceRepeat(f, value, limit, n) == Filter(value, 0)
    decreases n
  {
    if n > 0 {
      var g := Debounce(f, value, limit).next;
      if f.chatter + 1 > limit {
        assert n == 1 && g == Filter(value, 0);
      } else {
        DebounceAdopts(g, value, limit, n - 1);
      }
    }
  }

  /** Once adopted, a value stays adopted while it keeps arriving. */
  lemma {:induction false} DebounceStable(f: Filter, limit: int, n: nat)
    ensures DebounceRepeat(f, f.finger, limit, n) == (if n == 0 then f else Filter(f.finger, 0))
    decreases n
  {
    if n > 1 {
      DebounceStable(Filter(f.finger, 0), limit, n - 1);
    }
  }

  /** A hand that is not trusted leaves the filter alone and counts as untrusted. */
  lemma UntrustedHandKeepsFilter(s: State, h: HandInput, limit: int)
    requires h.handflag <= TrustedHandflag
    ensures RunStep(s, h, limit).filter == s.filter
    ensures RunStep(s, h, limit).untrusted == s.untrusted + 1
  {
  }

  /** The transitions of the state machine: INIT goes to DRAG on status 1,
      DRAG goes to SELECTED on status 0 and stays on any other usable status,
      SELECTED goes back to INIT, and more than 10 untrusted calls in a row
      force INIT from any state. */
  lemma StatusTransitions(s: State, h: HandInput, limit: int)
    ensures var t := RunStep(s, h, limit);
      var out := Classify(s.filter, h, limit).out;
      && (t.status == Selected ==> s.status == Drag && out == 0)
      && (t.status == Drag ==> s.status in {Init, Drag} && out != 0)
      && (s.status == Selected ==> t.status == Init)
      && (s.status == Init && out == 1 ==> t.status == Drag && t.start == Point(Trunc(h.tipX), Trunc(h.tipY)))
      && (s.status == Init && out != 1 ==> t.status == Init)
      && (s.status == Drag && out == 0 ==> t.status == Selected)
      && (s.status == Drag && out != 0 && out != -1 ==> t.status == Drag)
      && (s.status == Drag && out == -1 && s.untrusted + 1 <= UntrustedLimit ==> t.status == Drag)
      && (out == -1 ==> t.untrusted == s.untrusted + 1)
      && (out != -1 ==> t.untrusted == 0)
      && (out == -1 && s.untrusted + 1 > UntrustedLimit ==> t.status == Init)
  {
  }

  /** In DRAG with a usable finger status the area is the box spanned by the
      start point and the finger tip; for on-screen points its far corner
      lies within one pixel of the farther of the two. */
  lemma DragAreaSpans(start: Point, tipX: real, tipY: real)
    requires start.x >= 0 && start.y >= 0 && tipX >= 0.0 && tipY >= 0.0
    ensures var a := DragArea(start, tipX, tipY);
      && a.width >= 0 && a.height >= 0
      && a.x == Min(start.x, Trunc(tipX)) && a.y == Min(start.y, Trunc(tipY))
      && Max(start.x, Trunc(tipX)) - 1 <= a.x + a.width <= Max(start.x, Trunc(tipX))
      && Max(start.y, Trunc(tipY)) - 1 <= a.y + a.height <= Max(start.y, Trunc(tipY))
  {
    var a := DragArea(start, tipX, tipY);
    SpanAxis(start.x, tipX);
    SpanAxis(start.y, tipY);
  }

  lemma SpanAxis(p: int, t: real)
    requires p >= 0 && t >= 0.0
    ensures Max(p, Trunc(t)) - 1 <= Min(p, Trunc(t)) + Trunc(RAbs(p as real - t)) <= Max(p, Trunc(t))
  {
    var ft := t.Floor;
    assert Trunc(t) == ft;
    if p as real >= t {
      var d := (p as real - t).Floor;
      assert Trunc(RAbs(p as real - t)) == d;
      assert p - ft - 1 <= d <= p - ft;
    } else {
      var d := (t - p as real).Floor;
      assert Trunc(RAbs(p as real - t)) == d;
      assert d == ft - p;
    }
  }

  /** More than UntrustedLimit untrusted calls in a row abandon any selection. */
  lemma {:induction false} UntrustedRunForcesInit(s: State, hs: seq<HandInput>, limit: int)
    requires s.untrusted >= 0 && |hs| > 0
    requires s.untrusted + |hs| > UntrustedLimit
    requires forall i :: 0 <= i < |hs| ==> Untrusted(hs[i])
    ensures RunAll(s, hs, limit).status == Init
    ensures RunAll(s, hs, limit).area == Origin
    ensures RunAll(s, hs, limit).untrusted == s.untrusted + |hs|
    decreases |hs|
  {
    var t := RunStep(s, hs[0], limit);
    assert Untrusted(hs[0]);
    assert Classify(s.filter, hs[0], limit).out == -1;
    if |hs| == 1 {
      assert RunAll(s, hs, limit) == RunAll(t, [], limit);
      assert t.untrusted == s.untrusted + 1;
    } else {
      assert forall i :: 0 <= i < |hs[1..]| ==> Untrusted(hs[1..][i]);
      UntrustedRunForcesInit(t, hs[1..], limit);
    }
  }

  /** The selector object: the fields `run` and `removeChattering` update. */
  class AreaSelector {
    const chatterLimit: int
    var status: Status
    var startPoint: Point
    var selectedArea: Rect
    var cntHandIsUntrusted: int
    var fingerStatus: int
    var cntToRemoveChattering: int

    function Snapshot(): State
      reads this
    {
      State(status, startPoint, selectedArea, cntHandIsUntrusted, Filter(fingerStatus, cntToRemoveChattering))
    }

    /** The selector of the current demo (debounce limit 5). */
    constructor Current()
      ensures chatterLimit == CurrentChatterLimit
      ensures Snapshot() == InitialState()
    {
      chatterLimit := CurrentChatterLimit;
      status := Init;
      startPoint := Point(0, 0);
      selectedArea := Origin;
      cntHandIsUntrusted := 0;
      fingerStatus := -1;
      cntToRemoveChattering := 0;
    }

    /** The selector of the older demo (debounce limit 10). */
    constructor Legacy()
      ensures chatterLimit == LegacyChatterLimit
      ensures Snapshot() == InitialState()
    {
      chatterLimit := LegacyChatterLimit;
      status := Init;
      startPoint := Point(0, 0);
      selectedArea := Origin;
      cntHandIsUntrusted := 0;
      fingerStatus := -1;
      cntToRemoveChattering := 0;
    }

    method RemoveChattering(value: int) returns (r: int)
      modifies this
      ensures Snapshot() == old(Snapshot()).(filter := Debounce(old(Snapshot()).filter, value, chatterLimit).next)
      ensures r == Debounce(old(Snapshot()).filter, value, chatterLimit).out
    {
      if fingerStatus != value {
        cntToRemoveChattering := cntToRemoveChattering + 1;
        if cntToRemoveChattering > chatterLimit {
          cntToRemoveChattering := 0;
          fingerStatus := value;
        }
      } else {
        cntToRemoveChattering := 0;
      }
      if value == -1 {
        r := -1;
      } else {
        r := fingerStatus;
      }
    }

    method Run(h: HandInput)
      modifies this
      ensures Snapshot() == RunStep(old(Snapshot()), h, chatterLimit)
    {
      var fs := -1;
      if h.handflag > TrustedHandflag {
        fs := RemoveChattering(h.pointing);
      }
      if fs == -1 {
        cntHandIsUntrusted := cntHandIsUntrusted + 1;
        if cntHandIsUntrusted > UntrustedLimit {
          status := Init;
        }
      } else {
        cntHandIsUntrusted := 0;
      }
      match status
      case Init =>
        selectedArea := Origin;
        if fs == 1 {
          status := Drag;
          startPoint := Point(Trunc(h.tipX), Trunc(h.tipY));
        }
      case Drag =>
        if fs != -1 {
          selectedArea := DragArea(startPoint, h.tipX, h.tipY);
          if fs == 0 {
            status := Selected;
          } else if fs == 1 {
            status := Drag;
          }
        }
      case Selected =>
        status := Init;
    }
  }
}
