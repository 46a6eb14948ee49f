// The earlier style transfer front-end: the same command switch and blend as the
// current one, with no initialisation gating and no update flag; the merged
// bottleneck is recomputed on the first frame and on every 30th frame after it,
// from the style bottleneck read from <work dir>/../style/.

module StyleTransferLegacy {
  import opened Common
  import opened StyleTransfer

  /** INTERVAL_TO_CALCULATE_CONTENT_BOTTLENECK of this version. */
  const LegacyInterval: int := 30

  /** The globals and function-statics of this front-end. */
  datatype LegacyState = LegacyState(
    workDir: string,
    styleBottleneck: Bottleneck,    // s_styleBottleneck
    imageFileIndex: int,            // s_currentImageFileIndex
    mergedBottleneck: Bottleneck,   // s_mergedStyleBottleneck
    cnt: int)                       // s_cnt

  function LegacyInitialState(): LegacyState {
    LegacyState("", seq(100, _ => 0.0), 0, seq(100, _ => 0.0), 0)
  }

  /** A state change with its return value. */
  datatype LegacyOutcome = LegacyOutcome(state: LegacyState, ret: int)

  /** calculateStyleBottleneck: reads <work dir>/../style/<name>; an unreadable file
      returns -1 and leaves the bottleneck as it was, otherwise the bottleneck is
      replaced by the prediction engine's result. */
  function LegacyCalculateStep(s: LegacyState, name: string, readImage: string -> Option<Image>,
                               predict: Image -> Bottleneck): LegacyOutcome
  {
    var image := readImage(s.workDir + "/../style/" + name);
    if image.None? then LegacyOutcome(s, -1)
    else LegacyOutcome(s.(styleBottleneck := predict(image.value)), 0)
  }

  /** ImageProcessor_command: an unknown command returns -1 and changes nothing;
      otherwise the index moves and the style file is loaded, and 0 is returned
      whatever that load gave. */
  function LegacyCommandStep(s: LegacyState, cmd: int, readImage: string -> Option<Image>,
                             predict: Image -> Bottleneck): LegacyOutcome
  {
    var next := NextIndex(s.imageFileIndex, cmd);
    if next.None? then LegacyOutcome(s, -1)
    else
      var moved := s.(imageFileIndex := next.value);
      LegacyOutcome(LegacyCalculateStep(moved, StyleFileName(Max(next.value, 0)), readImage, predict).state, 0)
  }

  /** ImageProcessor_initialize: the work directory is stored, the engines are
      initialised (their results are not looked at) and command 0 is issued. */
  function LegacyInitializeStep(s: LegacyState, workDir: string, readImage: string -> Option<Image>,
                                predict: Image -> Bottleneck): LegacyOutcome
  {
    LegacyOutcome(LegacyCommandStep(s.(workDir := workDir), 0, readImage, predict).state, 0)
  }

  /** ImageProcessor_process: the counter before its increment decides whether the
      merged bottleneck is recomputed from the frame. */
  function LegacyProcessStep(s: LegacyState, frame: Image, predict: Image -> Bottleneck): LegacyState
  {
    var merged := if s.cnt % LegacyInterval == 0 then Merged(predict(frame), s.styleBottleneck) else s.mergedBottleneck;
    s.(cnt := s.cnt + 1, mergedBottleneck := merged)
  }

  /** A run of Process calls over `frames`, in order. */
  function LegacyProcessRun(s: LegacyState, frames: seq<Image>, predict: Image -> Bottleneck): LegacyState
  {
    if |frames| == 0 then s
    else LegacyProcessStep(LegacyProcessRun(s, frames[..|frames| - 1], predict), frames[|frames| - 1], predict)
  }

  // ---- Properties ----

  /** The command keeps the index in 0 .. 30 and returns -1, changing nothing,
      exactly for an unknown command. */
  lemma LegacyCommandOutcome(s: LegacyState, cmd: int, readImage: string -> Option<Image>, predict: Image -> Bottleneck)
    requires 0 <= s.imageFileIndex <= MaxStyleIndex
    ensures var o := LegacyCommandStep(s, cmd, readImage, predict);
      0 <= o.state.imageFileIndex <= MaxStyleIndex &&
      (o.ret == -1 <==> cmd !in {0, 1, 2}) &&
      (o.ret == -1 ==> o.state == s) &&
      (o.ret == 0 ==> o.state.imageFileIndex == NextIndex(s.imageFileIndex, cmd).value)
  {
  }

  /** The style file a command loads is <work dir>/../style/style<index>.jpg; when it
      cannot be read the bottleneck stays as it was. */
  lemma LegacyCommandLoadsStyle(s: LegacyState, cmd: int, readImage: string -> Option<Image>, predict: Image -> Bottleneck)
    requires 0 <= s.imageFileIndex <= MaxStyleIndex && cmd in {0, 1, 2}
    ensures var i := NextIndex(s.imageFileIndex, cmd).value;
      var image := readImage(s.workDir + "/../style/" + StyleFileName(i));
      var o := LegacyCommandStep(s, cmd, readImage, predict);
      (image.Some? ==> o.state.styleBottleneck == predict(image.value)) &&
      (image.None? ==> o.state.styleBottleneck == s.styleBottleneck) &&
      o.state.workDir == s.workDir && o.state.cnt == s.cnt && o.state.mergedBottleneck == s.mergedBottleneck
  {
  }

  /** After start-up and initialisation style 1 is selected. */
  lemma LegacyInitializeSelectsFirstStyle(workDir: string, readImage: string -> Option<Image>, predict: Image -> Bottleneck)
    ensures var o := LegacyInitializeStep(LegacyInitialState(), workDir, readImage, predict);
      o.ret == 0 && o.state.workDir == workDir && o.state.imageFileIndex == 1 && o.state.cnt == 0
  {
  }

  /** The shape of a run: the counter counts the calls, and the merged bottleneck
      after n calls comes from the frame of the last call whose number (from 0) is
      a multiple of 30 — the first call and every 30th after it. */
  lemma {:induction false} LegacySchedule(s: LegacyState, frames: seq<Image>, predict: Image -> Bottleneck)
    requires s.cnt == 0 && |frames| > 0
    ensures var t := LegacyProcessRun(s, frames, predict);
      var n := |frames|;
      t.cnt == n &&
      t.mergedBottleneck == Merged(predict(frames[(n - 1) - (n - 1) % 30]), s.styleBottleneck) &&
      t.styleBottleneck == s.styleBottleneck && t.imageFileIndex == s.imageFileIndex && t.workDir == s.workDir
  {
    var n := |frames|;
    if n > 1 {
      var prefix := frames[..n - 1];
      LegacySchedule(s, prefix, predict);
      assert prefix[(n - 2) - (n - 2) % 30] == frames[(n - 2) - (n - 2) % 30];
      if (n - 1) % 30 != 0 {
        assert (n - 1) % 30 == (n - 2) % 30 + 1;
      }
    }
  }

  /** Within one window of 30 calls the merged bottleneck stays as it is. */
  lemma LegacyNoMergeBetween(s: LegacyState, frame: Image, predict: Image -> Bottleneck)
    ensures s.cnt % LegacyInterval != 0 ==> LegacyProcessStep(s, frame, predict).mergedBottleneck == s.mergedBottleneck
    ensures s.cnt % LegacyInterval == 0 ==>
      LegacyProcessStep(s, frame, predict).mergedBottleneck == Merged(predict(frame), s.styleBottleneck)
  {
  }

  // ---- The front-end object ----

  /** The globals and statics of ImageProcessor.cpp, updated in place. */
  class LegacyImageProcessor {
    var workDir: string
    var styleBottleneck: Bottleneck
    var imageFileIndex: int
    var mergedBottleneck: Bottleneck
    var cnt: int

    function Snapshot(): LegacyState
      reads this
    {
      LegacyState(workDir, styleBottleneck, imageFileIndex, mergedBottleneck, cnt)
    }

    constructor ()
      ensures Snapshot() == LegacyInitialState()
    {
      workDir := "";
      styleBottleneck := seq(100, _ => 0.0);
      imageFileIndex := 0;
      mergedBottleneck := seq(100, _ => 0.0);
      cnt := 0;
    }

    method CalculateStyleBottleneck(styleFilename: string, readImage: string -> Option<Image>,
                                    predict: Image -> Bottleneck) returns (r: int)
      modifies this
      ensures LegacyOutcome(Snapshot(), r) == LegacyCalculateStep(old(Snapshot()), styleFilename, readImage, predict)
    {
      var path := workDir + "/../style/" + styleFilename;
      var styleImage := readImage(path);
      if styleImage.None? {
        return -1;
      }
      var result := predict(styleImage.value);
      var copy := styleBottleneck;
      for i := 0 to SizeStyleBottleneck
        invariant |copy| == 100
        invariant forall k :: 0 <= k < i ==> copy[k] == result[k]
      {
        copy := copy[i := result[i]];
      }
      styleBottleneck := copy;
      return 0;
    }

    method Command(cmd: int, readImage: string -> Option<Image>, predict: Image -> Bottleneck) returns (r: int)
      modifies this
      ensures LegacyOutcome(Snapshot(), r) == LegacyCommandStep(old(Snapshot()), cmd, readImage, predict)
    {
      if cmd == 0 {
        imageFileIndex := imageFileIndex + 1;
        if imageFileIndex > 30 { imageFileIndex := 30; }
      } else if cmd == 1 {
        imageFileIndex := imageFileIndex - 1;
        if imageFileIndex < 0 { imageFileIndex := 0; }
      } else if cmd == 2 {
        imageFileIndex := 0;
      } else {
        return -1;
      }
      var filename := StyleFileName(Max(imageFileIndex, 0));
      var _ := CalculateStyleBottleneck(filename, readImage, predict);
      return 0;
    }

    method Initialize(dir: string, readImage: string -> Option<Image>, predict: Image -> Bottleneck) returns (r: int)
      modifies this
      ensures LegacyOutcome(Snapshot(), r) == LegacyInitializeStep(old(Snapshot()), dir, readImage, predict)
    {
      workDir := dir;
      var _ := Command(0, readImage, predict);
      return 0;
    }

    method Process(frame: Image, predict: Image -> Bottleneck, transfer: (Image, Bottleneck) -> Image)
      returns (r: int, out: Image)
      modifies this
      ensures Snapshot() == LegacyProcessStep(old(Snapshot()), frame, predict)
      ensures r == 0 && out == transfer(frame, mergedBottleneck)
    {
      var due := cnt % 30 == 0;
      cnt := cnt + 1;
      if due {
        var result := predict(frame);
        var merged := mergedBottleneck;
        for i := 0 to SizeStyleBottleneck
          invariant |merged| == 100
          invariant forall k :: 0 <= k < i ==> merged[k] == 0.5 * result[k] + (1.0 - 0.5) * styleBottleneck[k]
        {
          merged := merged[i := 0.5 * result[i] + (1.0 - 0.5) * styleBottleneck[i]];
        }
        mergedBottleneck := merged;
      }
      r, out := 0, transfer(frame, mergedBottleneck);
    }
  }
}
