/** The timed recording script (scr/captura_video_Landmarks.py): after a
    normalised letter is typed, 's' starts a take of at most 120 seconds;
    while a take runs, every hand detected in a frame is written to its own
    two-line CSV snapshot named after the letter, the take's start stamp, the
    frame index and the hand's handedness tag. Camera frames, the estimator,
    the clock, `timestamp_str()` and the keyboard are inputs. */
module CapturaVideo {
  import opened Text
  import opened Ledger
  import opened CapturePolicy

  const OutputDir: Path := "dataset_landmarks"
  const MaxSeconds: int := 120
  const KeyS: int := 115
  const KeyQ: int := 113

  // ---------------------------------------------------------------------------
  // The letter
  // ---------------------------------------------------------------------------

  /** `input(...).strip()`, refused when empty, then `.replace(" ", "_").lower()`. */
  function NormaliseLabel(raw: string): (r: Option<string>)
    ensures r.None? <==> Strip(raw) == []
    ensures r.Some? ==> |r.value| == |Strip(raw)|
    ensures r.Some? ==> forall i :: 0 <= i < |r.value| ==> r.value[i] != ' '
    ensures r.Some? ==> !IsSpace(r.value[0]) && !IsSpace(r.value[|r.value| - 1])
    ensures r.Some? ==> Lower(r.value) == r.value
    ensures r.Some? ==> forall i :: 0 <= i < |r.value| ==>
      r.value[i] == LowerChar(if Strip(raw)[i] == ' ' then '_' else Strip(raw)[i])
  {
    var t := Strip(raw);
    if t == [] then None
    else
      StripEnds(raw);
      Underscored(t);
      Some(Lower(Replace(t, " ", "_")))
  }

  /** The shape of a stripped, non-empty letter once its spaces become `_` and
      it is lower-cased. */
  lemma Underscored(t: string)
    requires t != [] && !IsSpace(t[0]) && !IsSpace(t[|t| - 1])
    ensures var l := Lower(Replace(t, " ", "_"));
      && |l| == |t|
      && (forall i :: 0 <= i < |l| ==> l[i] != ' ')
      && !IsSpace(l[0]) && !IsSpace(l[|l| - 1])
      && Lower(l) == l
      && (forall i :: 0 <= i < |l| ==> l[i] == LowerChar(if t[i] == ' ' then '_' else t[i]))
  {
    ReplaceCharPointwise(t, ' ', '_');
    var u := Replace(t, " ", "_");
    LowerCharKeepsSpace(u[0]);
    LowerCharKeepsSpace(u[|u| - 1]);
    forall i | 0 <= i < |u|
      ensures LowerChar(u[i]) != ' '
    {
      LowerCharKeepsSpace(u[i]);
    }
    LowerIdempotent(u);
  }

  /** A normalised letter is a fixed point: normalising it again changes nothing. */
  lemma NormaliseLabelIdempotent(raw: string)
    requires NormaliseLabel(raw).Some?
    ensures NormaliseLabel(NormaliseLabel(raw).value) == NormaliseLabel(raw)
  {
    var l := NormaliseLabel(raw).value;
    StripTrimmed(l);
    ReplaceAbsent(l, " ", "_");
  }

  // ---------------------------------------------------------------------------
  // Snapshot files
  // ---------------------------------------------------------------------------

  /** `hand_label.upper()`, where the label is the first classification's or
      `"Unknown"` when the classification list is empty. */
  function HandTag(labels: seq<string>): (r: string)
    ensures labels == [] ==> r == "UNKNOWN"
    ensures labels != [] ==> |r| == |labels[0]| && forall i :: 0 <= i < |r| ==> r[i] == UpperChar(labels[0][i])
  {
    Upper(if labels == [] then "Unknown" else labels[0])
  }

  /** `<letra>_<start>_frame<NNNNNN>_<TAG>.csv` under the output directory. */
  function SnapshotPath(letra: string, stamp: string, frame: nat, tag: string): Path {
    OutputDir + "/" + letra + "_" + stamp + "_frame" + ZeroPad(frame, 6) + "_" + tag + ".csv"
  }

  /** Within one take, snapshots of different frames never share a file. */
  lemma SnapshotPathFrameInjective(letra: string, stamp: string, tag: string, f1: nat, f2: nat)
    requires f1 != f2
    ensures SnapshotPath(letra, stamp, f1, tag) != SnapshotPath(letra, stamp, f2, tag)
  {
    var pre := OutputDir + "/" + letra + "_" + stamp + "_frame";
    var post := "_" + tag + ".csv";
    var z1, z2 := ZeroPad(f1, 6), ZeroPad(f2, 6);
    assert SnapshotPath(letra, stamp, f1, tag) == pre + z1 + post;
    assert SnapshotPath(letra, stamp, f2, tag) == pre + z2 + post;
    if pre + z1 + post == pre + z2 + post {
      assert |z1| == |z2|;
      assert z1 == (pre + z1 + post)[|pre|..|pre| + |z1|];
      assert z2 == (pre + z2 + post)[|pre|..|pre| + |z2|];
      ZeroPadValue(f1, 6);
      ZeroPadValue(f2, 6);
      assert false;
    }
  }

  /** Within one frame, hands with different tags never share a file. */
  lemma SnapshotPathTagInjective(letra: string, stamp: string, frame: nat, t1: string, t2: string)
    requires t1 != t2
    ensures SnapshotPath(letra, stamp, frame, t1) != SnapshotPath(letra, stamp, frame, t2)
  {
    var pre := OutputDir + "/" + letra + "_" + stamp + "_frame" + ZeroPad(frame, 6) + "_";
    var p1, p2 := pre + t1 + ".csv", pre + t2 + ".csv";
    assert SnapshotPath(letra, stamp, frame, t1) == p1;
    assert SnapshotPath(letra, stamp, frame, t2) == p2;
    assert p1[|pre|..|p1| - 4] == t1;
    assert p2[|pre|..|p2| - 4] == t2;
  }

  /** `frame, timestamp, hand, landmark_0_x, ..., landmark_20_z`. */
  function SnapshotHeader(): Row {
    TextRow(["frame", "timestamp", "hand"] + CoordColumns(Long, LandmarkCount))
  }

  /** The snapshot header has 66 columns: the three metadata columns, then
      `landmark_<i>_x, landmark_<i>_y, landmark_<i>_z` for each landmark in order. */
  lemma SnapshotHeaderLayout()
    ensures var r := SnapshotHeader();
      && |r| == 66
      && r[0] == Text("frame") && r[1] == Text("timestamp") && r[2] == Text("hand")
      && forall i, a :: 0 <= i < LandmarkCount && 0 <= a < 3 ==> r[3 + 3 * i + a] == Text(ColumnName(Long, i, a))
  {
    var prefix := ["frame", "timestamp", "hand"];
    var cols := CoordColumns(Long, LandmarkCount);
    var names := prefix + cols;
    var r := SnapshotHeader();
    assert r == TextRow(names);
    assert names[0] == "frame" && names[1] == "timestamp" && names[2] == "hand";
    forall i, a | 0 <= i < LandmarkCount && 0 <= a < 3
      ensures r[3 + 3 * i + a] == Text(ColumnName(Long, i, a))
    {
      assert names[3 + 3 * i + a] == cols[3 * i + a];
      CoordColumnsAt(Long, LandmarkCount, i, a);
    }
  }

  /** `[frame_idx, f"{ts:.6f}", hand_label]` and each coordinate as `f"{v:.6f}"`. */
  function SnapshotRow(frame: nat, ts: real, tag: string, hand: Hand): Row {
    [Int(frame), Num(ts, Fixed(6)), Text(tag)] + NumCells(Coords(hand), Fixed(6))
  }

  /** A snapshot row lines up with the header: 66 fields, the frame number,
      the time and the tag first, then coordinate `a` of landmark `i` at
      `3 + 3 * i + a`, each with six decimals. */
  lemma SnapshotRowLayout(frame: nat, ts: real, tag: string, hand: Hand)
    ensures var r := SnapshotRow(frame, ts, tag, hand);
      && |r| == 66
      && r[0] == Int(frame) && r[1] == Num(ts, Fixed(6)) && r[2] == Text(tag)
      && forall i, a :: 0 <= i < LandmarkCount && 0 <= a < 3 ==> r[3 + 3 * i + a] == Num(Axis(hand[i], a), Fixed(6))
  {
    forall i, a | 0 <= i < LandmarkCount && 0 <= a < 3
      ensures SnapshotRow(frame, ts, tag, hand)[3 + 3 * i + a] == Num(Axis(hand[i], a), Fixed(6))
    {
      CoordsAt(hand, i, a);
    }
  }

  /** `save_landmarks_csv(path, frame_idx, ts, hand_label, landmarks)`: the file is
      created or overwritten with exactly the header and one row. */
  method SaveLandmarksCsv(disk: Disk, path: Path, frame: nat, ts: real, tag: string, hand: Hand)
    modifies disk
    ensures disk.files == Written(old(disk.files), path, [SnapshotHeader(), SnapshotRow(frame, ts, tag, hand)])
  {
    var header := BuildHeader(["frame", "timestamp", "hand"], Long);
    var row := AppendCoords([Int(frame), Num(ts, Fixed(6)), Text(tag)], hand, Fixed(6));
    disk.Write(path, [TextRow(header), row]);
  }

  /** One hand found in a recorded frame: its landmarks, its handedness
      classification labels, and the clock reading `ts` taken for its row. */
  datatype Detection = Detection(hand: Hand, labels: seq<string>, ts: real)

  /** The path of a detection's snapshot. */
  function DetectionPath(letra: string, stamp: string, frame: nat, d: Detection): Path {
    SnapshotPath(letra, stamp, frame, HandTag(d.labels))
  }

  /** The two lines of a detection's snapshot. */
  function DetectionLines(frame: nat, d: Detection): seq<Row> {
    [SnapshotHeader(), SnapshotRow(frame, d.ts, HandTag(d.labels), d.hand)]
  }

  /** The writes of a frame's snapshots, in detection order. */
  function SnapshotWrites(letra: string, stamp: string, frame: nat, ds: seq<Detection>): (r: seq<FileWrite>)
    ensures |r| == |ds|
    ensures forall k :: 0 <= k < |ds| ==> r[k] == FileWrite(DetectionPath(letra, stamp, frame, ds[k]), DetectionLines(frame, ds[k]))
  {
    seq(|ds|, k requires 0 <= k < |ds| => FileWrite(DetectionPath(letra, stamp, frame, ds[k]), DetectionLines(frame, ds[k])))
  }

  /** The files after the snapshots of a frame's detections, one after the other. */
  function Snapshots(fs: FileSystem, letra: string, stamp: string, frame: nat, ds: seq<Detection>): FileSystem {
    WrittenAll(fs, SnapshotWrites(letra, stamp, frame, ds))
  }

  /** What a frame's snapshots leave behind: a file per detection; a detection
      whose tag no later detection shares keeps exactly its header and row; a
      file at no detection's path is untouched. */
  lemma SnapshotsContent(fs: FileSystem, letra: string, stamp: string, frame: nat, ds: seq<Detection>, k: nat, p: Path)
    requires k < |ds|
    ensures DetectionPath(letra, stamp, frame, ds[k]) in Snapshots(fs, letra, stamp, frame, ds)
    ensures (forall j :: k < j < |ds| ==> HandTag(ds[j].labels) != HandTag(ds[k].labels))
      ==> Snapshots(fs, letra, stamp, frame, ds)[DetectionPath(letra, stamp, frame, ds[k])] == DetectionLines(frame, ds[k])
    ensures p in fs && (forall j :: 0 <= j < |ds| ==> p != DetectionPath(letra, stamp, frame, ds[j]))
      ==> p in Snapshots(fs, letra, stamp, frame, ds) && Snapshots(fs, letra, stamp, frame, ds)[p] == fs[p]
  {
    var ws := SnapshotWrites(letra, stamp, frame, ds);
    var r := Snapshots(fs, letra, stamp, frame, ds);
    assert r == WrittenAll(fs, ws);
    var path := DetectionPath(letra, stamp, frame, ds[k]);
    assert ws[k] == FileWrite(path, DetectionLines(frame, ds[k]));
    assert path in r by {
      WrittenAllCreates(fs, ws);
    }
    if forall j :: k < j < |ds| ==> HandTag(ds[j].labels) != HandTag(ds[k].labels) {
      forall j | k < j < |ds|
        ensures ws[j].path != ws[k].path
      {
        assert ws[j].path == DetectionPath(letra, stamp, frame, ds[j]);
        SnapshotPathTagInjective(letra, stamp, frame, HandTag(ds[j].labels), HandTag(ds[k].labels));
      }
      WrittenAllLastWins(fs, ws, k);
    }
    if p in fs && (forall j :: 0 <= j < |ds| ==> p != DetectionPath(letra, stamp, frame, ds[j])) {
      assert forall j :: 0 <= j < |ws| ==> p != ws[j].path;
      WrittenAllKeepsOthers(fs, ws, p);
    }
  }

  /** Two hands with the same tag in one frame are counted twice but leave one
      file: the second snapshot replaces the first. */
  lemma SameTagOverwrites(fs: FileSystem, letra: string, stamp: string, frame: nat, d1: Detection, d2: Detection)
    requires HandTag(d1.labels) == HandTag(d2.labels)
    ensures var r := Snapshots(fs, letra, stamp, frame, [d1, d2]);
      r[DetectionPath(letra, stamp, frame, d1)] == DetectionLines(frame, d2)
  {
    var ws := SnapshotWrites(letra, stamp, frame, [d1, d2]);
    assert ws[..1][..0] == [];
    assert ws[..1] == [ws[0]];
    assert ws == ws[..1] + [ws[1]];
  }

  /** `for hand_landmarks, handedness in zip(...)`: one snapshot per hand,
      each counted as it is saved. */
  method WriteSnapshots(disk: Disk, letra: string, stamp: string, frame: nat, ds: seq<Detection>) returns (saved: nat)
    modifies disk
    ensures disk.files == Snapshots(old(disk.files), letra, stamp, frame, ds)
    ensures saved == |ds|
  {
    ghost var fs0 := disk.files;
    saved := 0;
    var j := 0;
    while j < |ds|
      invariant 0 <= j <= |ds| && saved == j
      invariant disk.files == WrittenAll(fs0, SnapshotWrites(letra, stamp, frame, ds)[..j])
    {
      var d := ds[j];
      var tag := HandTag(d.labels);
      WrittenAllNext(fs0, SnapshotWrites(letra, stamp, frame, ds), j);
      SaveLandmarksCsv(disk, SnapshotPath(letra, stamp, frame, tag), frame, d.ts, tag, d.hand);
      saved := saved + 1;
      j := j + 1;
    }
    assert SnapshotWrites(letra, stamp, frame, ds)[..j] == SnapshotWrites(letra, stamp, frame, ds);
  }

  // ---------------------------------------------------------------------------
  // The recording loop
  // ---------------------------------------------------------------------------

  /** One frame read: whether `cap.read()` succeeded, the clock reading behind
      `elapsed`, the hands detected, the raw `cv2.waitKey` code, and the clock
      reading and `timestamp_str()` that a start on this frame would take. */
  datatype Tick = Tick(read: bool, now: real, detections: seq<Detection>, key: int, startNow: real, startStamp: string)

  /** The variables the loop updates. `startTime` is meaningful once a take started. */
  datatype RecState = RecState(files: FileSystem, recording: bool, startTime: real, frameIdx: nat,
                               savedFiles: nat, startStamp: string)

  /** `if recording:` — the take's frame is processed even when it is the one
      that reaches the ceiling, which then ends the take. */
  function Process(s: RecState, letra: string, t: Tick): RecState {
    if !s.recording then s
    else
      s.(files := Snapshots(s.files, letra, s.startStamp, s.frameIdx, t.detections),
         recording := t.now - s.startTime < MaxSeconds as real,
         frameIdx := s.frameIdx + 1,
         savedFiles := s.savedFiles + |t.detections|)
  }

  /** `if key == ord('s') and not recording:` a new take, frame numbering from 0. */
  function OnKey(s: RecState, t: Tick): RecState {
    if KeyCode(t.key) == KeyS && !s.recording
    then s.(recording := true, startTime := t.startNow, frameIdx := 0, startStamp := t.startStamp)
    else s
  }

  /** One iteration of the loop after a successful read. */
  function Next(s: RecState, letra: string, t: Tick): RecState {
    OnKey(Process(s, letra, t), t)
  }

  /** 'q' ends the loop. */
  predicate QuitKey(key: int) {
    KeyCode(key) == KeyQ
  }

  function Run(s: RecState, letra: string, ticks: seq<Tick>): RecState
    decreases |ticks|
  {
    if ticks == [] || !ticks[0].read then s
    else
      var s1 := Next(s, letra, ticks[0]);
      if QuitKey(ticks[0].key) then s1 else Run(s1, letra, ticks[1..])
  }

  /** A frame of a running take writes one snapshot per hand, counts each, and
      takes the next frame number; a start resets the numbering; an idle frame
      with no start changes nothing. */
  lemma NextCounts(s: RecState, letra: string, t: Tick)
    ensures var n := Next(s, letra, t);
      && n.savedFiles == s.savedFiles + (if s.recording then |t.detections| else 0)
      && n.frameIdx == (if KeyCode(t.key) == KeyS && !Process(s, letra, t).recording then 0
                        else if s.recording then s.frameIdx + 1 else s.frameIdx)
      && (!s.recording && KeyCode(t.key) != KeyS ==> n == s)
  {
  }

  /** The ceiling: the frame on which 120 seconds have elapsed is still
      processed, and the take ends with it unless that same frame's key is 's'. */
  lemma CeilingEndsTake(s: RecState, letra: string, t: Tick)
    requires s.recording && t.now - s.startTime >= MaxSeconds as real
    ensures Next(s, letra, t).files == Snapshots(s.files, letra, s.startStamp, s.frameIdx, t.detections)
    ensures Next(s, letra, t).savedFiles == s.savedFiles + |t.detections|
    ensures Next(s, letra, t).recording <==> KeyCode(t.key) == KeyS
  {
  }

  /** While no take runs and 's' is not pressed, frames are only shown: no file
      is written and no counter moves. */
  lemma {:induction false} IdleRunChangesNothing(s: RecState, letra: string, ticks: seq<Tick>)
    requires !s.recording
    requires forall k :: 0 <= k < |ticks| ==> KeyCode(ticks[k].key) != KeyS
    ensures Run(s, letra, ticks) == s
    decreases |ticks|
  {
    if ticks != [] && ticks[0].read && !QuitKey(ticks[0].key) {
      assert Next(s, letra, ticks[0]) == s;
      RunIdleTail(s, letra, ticks);
    }
  }

  lemma {:induction false} RunIdleTail(s: RecState, letra: string, ticks: seq<Tick>)
    requires !s.recording && ticks != []
    requires forall k :: 0 <= k < |ticks| ==> KeyCode(ticks[k].key) != KeyS
    ensures Run(s, letra, ticks[1..]) == s
    decreases |ticks|, 0
  {
    assert forall k :: 0 <= k < |ticks[1..]| ==> ticks[1..][k] == ticks[k + 1];
    IdleRunChangesNothing(s, letra, ticks[1..]);
  }

  /** A processed frame takes the next frame number of its take, so the same
      hand in the next frame of the take gets a new file. */
  lemma TakeFramesDistinct(s: RecState, letra: string, t: Tick, d: Detection, e: Detection)
    requires s.recording
    requires HandTag(d.labels) == HandTag(e.labels)
    ensures var s1 := Process(s, letra, t);
      && s1.startStamp == s.startStamp && s1.frameIdx == s.frameIdx + 1
      && DetectionPath(letra, s.startStamp, s.frameIdx, d) != DetectionPath(letra, s1.startStamp, s1.frameIdx, e)
  {
    SnapshotPathFrameInjective(letra, s.startStamp, HandTag(d.labels), s.frameIdx, s.frameIdx + 1);
  }

  /** How the script ends: no letter typed, camera not opened, or the number of
      snapshots saved. */
  datatype Outcome = NoLabel | NoCamera | Finished(savedFiles: nat)

  /** The loop's state when the camera opens. */
  function Initial(fs: FileSystem, launchStamp: string): RecState {
    RecState(fs, false, 0.0, 0, 0, launchStamp)
  }

  /** The files the script leaves. */
  function LaunchFiles(fs: FileSystem, raw: string, cameraOpens: bool, launchStamp: string, ticks: seq<Tick>): FileSystem {
    match NormaliseLabel(raw)
    case None => fs
    case Some(letra) => if cameraOpens then Run(Initial(fs, launchStamp), letra, ticks).files else fs
  }

  /** How the script ends. */
  function LaunchOutcome(raw: string, cameraOpens: bool, fs: FileSystem, launchStamp: string, ticks: seq<Tick>): Outcome {
    match NormaliseLabel(raw)
    case None => NoLabel
    case Some(letra) => if cameraOpens then Finished(Run(Initial(fs, launchStamp), letra, ticks).savedFiles) else NoCamera
  }

  /** An empty letter ends the script before the camera is touched; a camera
      that does not open ends it before anything is written. */
  lemma LaunchEarlyExits(fs: FileSystem, raw: string, cameraOpens: bool, launchStamp: string, ticks: seq<Tick>)
    ensures Strip(raw) == [] ==> LaunchOutcome(raw, cameraOpens, fs, launchStamp, ticks) == NoLabel
    ensures Strip(raw) != [] && !cameraOpens ==> LaunchOutcome(raw, cameraOpens, fs, launchStamp, ticks) == NoCamera
    ensures Strip(raw) == [] || !cameraOpens ==> LaunchFiles(fs, raw, cameraOpens, launchStamp, ticks) == fs
  {
  }

  /** The recording loop: the script's variables that change while it runs. */
  class Recorder {
    const disk: Disk
    const letra: string
    var recording: bool
    var startTime: real
    var frameIdx: nat
    var savedFiles: nat
    var startStamp: string

    function Current(): RecState
      reads this, disk
    {
      RecState(disk.files, recording, startTime, frameIdx, savedFiles, startStamp)
    }

    constructor (disk: Disk, letra: string, launchStamp: string)
      ensures this.disk == disk && this.letra == letra
      ensures Current() == Initial(disk.files, launchStamp)
    {
      this.disk := disk;
      this.letra := letra;
      recording := false;
      startTime := 0.0;
      frameIdx := 0;
      savedFiles := 0;
      startStamp := launchStamp;
    }

    /** `if recording:` — the ceiling check, the snapshots, the countdown
        shown, the frame number. */
    method ProcessFrame(t: Tick) returns (remaining: nat)
      modifies this, disk
      ensures Current() == Process(old(Current()), letra, t)
      ensures old(recording) ==> remaining == ClampedCountdown(MaxSeconds, t.now - old(startTime))
    {
      ghost var s0 := Current();
      remaining := 0;
      if recording {
        var elapsed := t.now - startTime;
        if elapsed >= MaxSeconds as real {
          recording := false;
        }
        assert recording == (t.now - s0.startTime < MaxSeconds as real);
        var written := WriteSnapshots(disk, letra, startStamp, frameIdx, t.detections);
        savedFiles := savedFiles + written;
        remaining := ClampedCountdown(MaxSeconds, elapsed);
        frameIdx := frameIdx + 1;
        assert disk.files == Snapshots(s0.files, letra, s0.startStamp, s0.frameIdx, t.detections);
      }
    }

    /** One iteration after a successful read: the take's frame, then the key. */
    method Frame(t: Tick) returns (remaining: nat, quit: bool)
      requires t.read
      modifies this, disk
      ensures Current() == Next(old(Current()), letra, t)
      ensures old(recording) ==> remaining == ClampedCountdown(MaxSeconds, t.now - old(startTime))
      ensures quit <==> QuitKey(t.key)
    {
      remaining := ProcessFrame(t);
      var key := KeyCode(t.key);
      quit := false;
      if key == KeyS && !recording {
        recording := true;
        startTime := t.startNow;
        frameIdx := 0;
        startStamp := t.startStamp;
      } else if key == KeyQ {
        quit := true;
      }
    }

    /** `while True:` over the frames read. */
    method Loop(ticks: seq<Tick>)
      modifies this, disk
      ensures Current() == Run(old(Current()), letra, ticks)
    {
      var i := 0;
      while i < |ticks|
        invariant 0 <= i <= |ticks|
        invariant Run(old(Current()), letra, ticks) == Run(Current(), letra, ticks[i..])
      {
        var t := ticks[i];
        if !t.read {
          return;
        }
        assert ticks[i..][1..] == ticks[i + 1..];
        var remaining, quit := Frame(t);
        if quit {
          return;
        }
        i := i + 1;
      }
    }
  }

  /** The script: the letter, the camera, the loop, the report. */
  method Record(disk: Disk, raw: string, cameraOpens: bool, launchStamp: string, ticks: seq<Tick>)
    returns (outcome: Outcome)
    modifies disk
    ensures disk.files == LaunchFiles(old(disk.files), raw, cameraOpens, launchStamp, ticks)
    ensures outcome == LaunchOutcome(raw, cameraOpens, old(disk.files), launchStamp, ticks)
  {
    var letter := NormaliseLabel(raw);
    if letter.None? {
      return NoLabel;
    }
    if !cameraOpens {
      return NoCamera;
    }
    var recorder := new Recorder(disk, letter.value, launchStamp);
    recorder.Loop(ticks);
    outcome := Finished(recorder.savedFiles);
  }
}
