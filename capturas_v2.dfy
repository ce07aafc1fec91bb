/** The earlier hybrid capture (scr/capturas_landmarks_v2.py): one shared
    ledger `landmarks_dataset.csv`; every detected hand is auto-captured when
    the five-second timer is due, and SPACE saves every hand of the frame as
    "manual". Camera frames, the estimator, the clock, `time.strftime` and the
    keyboard are inputs: one `Tick` per frame read. */
module CapturasV2 {
  import opened Ledger
  import opened CapturePolicy

  const OutputFile: Path := "landmarks_dataset.csv"
  const CaptureInterval: int := 5
  const KeySpace: int := 32
  const KeyEsc: int := 27

  /** One frame read: whether `cap.read()` succeeded, the hands detected, the
      clock reading behind the countdown, the stamp of the manual rows of this
      frame, and the raw `cv2.waitKey` code. */
  datatype Tick = Tick(read: bool, sightings: seq<Sighting>, displayTime: real, manualStamp: string, key: int)

  /** What the loop changes: the files and `last_capture_time`. */
  datatype LoopState = LoopState(files: FileSystem, lastCaptureTime: real)

  /** The state once the per-hand loop has looked at the first `k` hands. */
  function AfterAuto(s: LoopState, ss: seq<Sighting>, k: nat): LoopState
    requires k <= |ss|
  {
    LoopState(AutoFiles(s.files, OutputFile, s.lastCaptureTime, CaptureInterval as real, ss, k),
              TimerAfter(s.lastCaptureTime, CaptureInterval as real, Times(ss)[..k]))
  }

  /** The "manual" rows of SPACE: one per detected hand, in detection order. */
  function ManualRows(ss: seq<Sighting>, stamp: string): (r: seq<Row>)
    ensures |r| == |ss|
    ensures forall i :: 0 <= i < |ss| ==> r[i] == CaptureRow(stamp, "manual", ss[i].hand)
  {
    seq(|ss|, i requires 0 <= i < |ss| => CaptureRow(stamp, "manual", ss[i].hand))
  }

  /** One iteration of the main loop after a successful read. */
  function Next(s: LoopState, t: Tick): LoopState {
    var a := AfterAuto(s, t.sightings, |t.sightings|);
    if KeyCode(t.key) == KeySpace
    then a.(files := AppendedEach(a.files, OutputFile, ManualRows(t.sightings, t.manualStamp)))
    else a
  }

  /** ESC ends the loop. */
  predicate QuitKey(key: int) {
    KeyCode(key) != KeySpace && KeyCode(key) == KeyEsc
  }

  function Run(s: LoopState, ticks: seq<Tick>): LoopState
    decreases |ticks|
  {
    if ticks == [] || !ticks[0].read then s
    else
      var s1 := Next(s, ticks[0]);
      if QuitKey(ticks[0].key) then s1 else Run(s1, ticks[1..])
  }

  /** A row either script variant writes here: 65 fields, the second naming
      the capture type. */
  predicate CaptureLine(row: Row) {
    |row| == 65 && (row[1] == Text("auto") || row[1] == Text("manual"))
  }

  /** The ledger only grows: what it held at `before` is still its beginning,
      and every line added since is a capture row. */
  predicate Grown(before: FileSystem, after: FileSystem) {
    && OutputFile in after
    && Lines(before, OutputFile) <= after[OutputFile]
    && forall i :: |Lines(before, OutputFile)| <= i < |after[OutputFile]| ==> CaptureLine(after[OutputFile][i])
  }

  lemma AppendedEachGrows(before: FileSystem, fs: FileSystem, rows: seq<Row>)
    requires Grown(before, fs)
    requires forall j :: 0 <= j < |rows| ==> CaptureLine(rows[j])
    ensures Grown(before, AppendedEach(fs, OutputFile, rows))
  {
    var after := AppendedEach(fs, OutputFile, rows);
    if rows != [] {
      assert after[OutputFile] == fs[OutputFile] + rows;
      forall i | |Lines(before, OutputFile)| <= i < |after[OutputFile]|
        ensures CaptureLine(after[OutputFile][i])
      {
        if i >= |fs[OutputFile]| {
          assert after[OutputFile][i] == rows[i - |fs[OutputFile]|];
        }
      }
    }
  }

  /** One iteration keeps the ledger append-only, and with SPACE it gains a
      manual row for every hand detected. */
  lemma NextGrows(before: FileSystem, s: LoopState, t: Tick)
    requires Grown(before, s.files)
    ensures Grown(before, Next(s, t).files)
    ensures KeyCode(t.key) == KeySpace ==>
      Lines(Next(s, t).files, OutputFile)
        == Lines(AfterAuto(s, t.sightings, |t.sightings|).files, OutputFile) + ManualRows(t.sightings, t.manualStamp)
  {
    var ss := t.sightings;
    var times := Times(ss);
    assert times[..|ss|] == times;
    var autoRows := AutoRows(ss, Fired(s.lastCaptureTime, CaptureInterval as real, times));
    AppendedEachGrows(before, s.files, autoRows);
    var a := AfterAuto(s, ss, |ss|);
    if KeyCode(t.key) == KeySpace {
      AppendedEachGrows(before, a.files, ManualRows(ss, t.manualStamp));
    }
  }

  /** A whole session keeps the ledger append-only. */
  lemma {:induction false} RunGrows(before: FileSystem, s: LoopState, ticks: seq<Tick>)
    requires Grown(before, s.files)
    ensures Grown(before, Run(s, ticks).files)
    decreases |ticks|
  {
    if ticks != [] && ticks[0].read {
      NextGrows(before, s, ticks[0]);
      if !QuitKey(ticks[0].key) {
        RunGrows(before, Next(s, ticks[0]), ticks[1..]);
      }
    }
  }

  /** The script from start to end: the header if the ledger is missing, then
      the loop from the timer's start. */
  function Session(fs: FileSystem, startTime: real, ticks: seq<Tick>): FileSystem {
    Run(LoopState(HeaderIfAbsent(fs, OutputFile, LmHeaderRow()), startTime), ticks).files
  }

  /** Whatever the session does, the ledger's earlier lines stay as they were,
      a missing ledger starts with the header, and every line after those is a
      capture row. */
  lemma SessionAppendOnly(fs: FileSystem, startTime: real, ticks: seq<Tick>)
    ensures var fs1 := HeaderIfAbsent(fs, OutputFile, LmHeaderRow());
      Grown(fs1, Session(fs, startTime, ticks))
    ensures OutputFile in Session(fs, startTime, ticks)
    ensures Lines(fs, OutputFile) <= Session(fs, startTime, ticks)[OutputFile]
    ensures OutputFile !in fs ==> Session(fs, startTime, ticks)[OutputFile][0] == LmHeaderRow()
  {
    var fs1 := HeaderIfAbsent(fs, OutputFile, LmHeaderRow());
    assert Grown(fs1, fs1);
    RunGrows(fs1, LoopState(fs1, startTime), ticks);
    assert Lines(fs, OutputFile) <= Lines(fs1, OutputFile);
  }

  /** The capture loop: the script's globals that change while it runs. */
  class Capturer {
    const disk: Disk
    var lastCaptureTime: real

    function Current(): LoopState
      reads this, disk
    {
      LoopState(disk.files, lastCaptureTime)
    }

    constructor (disk: Disk, startTime: real)
      ensures this.disk == disk
      ensures Current() == LoopState(disk.files, startTime)
    {
      this.disk := disk;
      lastCaptureTime := startTime;
    }

    /** `save_landmarks(landmarks, capture_type)` */
    method SaveLandmarks(hand: Hand, captureType: string, stamp: string)
      modifies disk
      ensures disk.files == Appended(old(disk.files), OutputFile, [CaptureRow(stamp, captureType, hand)])
    {
      var row := AppendCoords([Text(stamp), Text(captureType)], hand, Repr);
      disk.Append(OutputFile, [row]);
    }

    /** The per-hand loop of one frame. */
    method AutoCapture(ss: seq<Sighting>)
      modifies this, disk
      ensures Current() == AfterAuto(old(Current()), ss, |ss|)
    {
      ghost var s0 := Current();
      var k := 0;
      while k < |ss|
        invariant 0 <= k <= |ss|
        invariant Current() == AfterAuto(s0, ss, k)
      {
        var currentTime := ss[k].now;
        AutoFilesNext(s0.files, OutputFile, s0.lastCaptureTime, CaptureInterval as real, ss, k);
        FiredNext(s0.lastCaptureTime, CaptureInterval as real, Times(ss), k);
        if currentTime - lastCaptureTime >= CaptureInterval as real {
          SaveLandmarks(ss[k].hand, "auto", ss[k].stamp);
          lastCaptureTime := currentTime;
        }
        k := k + 1;
      }
    }

    /** SPACE: `for hand_landmarks in result.multi_hand_landmarks: save_landmarks(...)`. */
    method ManualCapture(ss: seq<Sighting>, stamp: string)
      modifies disk
      ensures disk.files == AppendedEach(old(disk.files), OutputFile, ManualRows(ss, stamp))
    {
      ghost var fs0 := disk.files;
      var j := 0;
      while j < |ss|
        invariant 0 <= j <= |ss|
        invariant disk.files == AppendedEach(fs0, OutputFile, ManualRows(ss[..j], stamp))
      {
        assert ManualRows(ss[..j + 1], stamp) == ManualRows(ss[..j], stamp) + [CaptureRow(stamp, "manual", ss[j].hand)];
        AppendedEachConcat(fs0, OutputFile, ManualRows(ss[..j], stamp), [CaptureRow(stamp, "manual", ss[j].hand)]);
        SaveLandmarks(ss[j].hand, "manual", stamp);
        j := j + 1;
      }
      assert ss[..j] == ss;
    }

    /** One iteration of the main loop after a successful read: the auto
        captures, the countdown shown, then the key. */
    method Frame(t: Tick) returns (remaining: nat, quit: bool)
      requires t.read
      modifies this, disk
      ensures Current() == Next(old(Current()), t)
      ensures remaining == ClampedCountdown(CaptureInterval, t.displayTime - AfterAuto(old(Current()), t.sightings, |t.sightings|).lastCaptureTime)
      ensures quit <==> QuitKey(t.key)
    {
      AutoCapture(t.sightings);
      var elapsedTime := Trunc(t.displayTime - lastCaptureTime);
      var r := CaptureInterval - elapsedTime;
      if r < 0 {
        r := 0;
      }
      remaining := r;
      var key := KeyCode(t.key);
      quit := false;
      if key == KeySpace {
        ManualCapture(t.sightings, t.manualStamp);
      } else if key == KeyEsc {
        quit := true;
      }
    }

    /** `while True:` over the frames read. */
    method Loop(ticks: seq<Tick>)
      modifies this, disk
      ensures Current() == Run(old(Current()), ticks)
    {
      var i := 0;
      while i < |ticks|
        invariant 0 <= i <= |ticks|
        invariant Run(old(Current()), ticks) == Run(Current(), ticks[i..])
      {
        var t := ticks[i];
        if !t.read {
          return;
        }
        assert ticks[i..][1..] == ticks[i + 1..];
        var remaining, quit := Frame(t);
        if quit {
          return;
        }
        i := i + 1;
      }
    }
  }

  /** The script: header if missing, timer start, loop. */
  method Capture(disk: Disk, startTime: real, ticks: seq<Tick>)
    modifies disk
    ensures disk.files == Session(old(disk.files), startTime, ticks)
  {
    if !disk.Exists(OutputFile) {
      var headers := BuildHeader(["time", "capture_type"], Short);
      disk.Write(OutputFile, [TextRow(headers)]);
    }
    var capturer := new Capturer(disk, startTime);
    capturer.Loop(ticks);
  }
}
