/** The hybrid interactive capture (scr/captura_landmarks_final.py): the
    operator names a gesture, and while the camera runs every detected hand is
    auto-captured into `dataset_landmarks/<gesture>.csv` whenever the
    five-second timer is due, SPACE saves the first hand as "manual", and the
    count of samples resumes from the rows already in the ledger. Camera frames,
    the estimator, the clock, `time.strftime` and the keyboard are inputs: one
    `Tick` per frame read. */
module CapturaFinal {
  import opened Text
  import opened Ledger
  import opened CapturePolicy

  const DataDir: string := "dataset_landmarks"
  const CaptureInterval: real := 5.0
  /** The estimator is asked for at most this many hands per frame. */
  const MaxNumHands: nat := 1
  const SaveImgsOnManual: bool := false
  const KeySpace: int := 32
  const KeyEsc: int := 27
  const KeyQ: int := 113

  /** `input(...).strip()`, refused when empty. */
  function GestureName(input: string): (r: Option<string>)
    ensures r.None? <==> Strip(input) == []
    ensures r.Some? ==> r.value == Strip(input)
    ensures r.Some? ==> r.value != [] && !IsSpace(r.value[0]) && !IsSpace(r.value[|r.value| - 1])
    ensures r.Some? && (forall i :: 0 <= i < |input| ==> !IsSpace(input[i])) ==> r.value == input
  {
    var name := Strip(input);
    StripEnds(input);
    StripNoSpace(input);
    if name == [] then None else Some(name)
  }

  function CsvPath(name: string): Path {
    DataDir + "/" + name + ".csv"
  }

  /** `os.path.join(img_dir, f"{gesture_name}_{img_save_index:05d}.jpg")` */
  function ImgPath(name: string, index: nat): Path {
    DataDir + "/" + name + "_imgs" + "/" + name + "_" + ZeroPad(index, 5) + ".jpg"
  }

  /** Different indices give different image files. */
  lemma ImgPathInjective(name: string, a: nat, b: nat)
    requires ImgPath(name, a) == ImgPath(name, b)
    ensures a == b
  {
    var p := DataDir + "/" + name + "_imgs" + "/" + name + "_";
    var x := ZeroPad(a, 5);
    var y := ZeroPad(b, 5);
    assert ImgPath(name, a) == p + x + ".jpg";
    assert ImgPath(name, b) == p + y + ".jpg";
    assert |x| == |y|;
    assert x == ImgPath(name, a)[|p|..|p| + |x|];
    assert y == ImgPath(name, b)[|p|..|p| + |y|];
    ZeroPadValue(a, 5);
    ZeroPadValue(b, 5);
  }

  lemma ImgPathDistinct(name: string, a: nat, b: nat)
    requires a != b
    ensures ImgPath(name, a) != ImgPath(name, b)
  {
    if ImgPath(name, a) == ImgPath(name, b) {
      ImgPathInjective(name, a, b);
    }
  }

  /** The resumed count: the file's lines minus the header line, never below
      zero, and zero for a missing file. */
  function ExistingCount(fs: FileSystem, path: Path): (r: nat)
    ensures r == |DataRows(fs, path)|
    ensures path !in fs ==> r == 0
  {
    if path in fs then (if |fs[path]| - 1 < 0 then 0 else |fs[path]| - 1) else 0
  }

  /** `sum(1 for _ in f) - 1`, clamped at zero. */
  method CountExisting(disk: Disk, path: Path) returns (count: nat)
    ensures count == ExistingCount(disk.files, path)
  {
    if !disk.Exists(path) {
      return 0;
    }
    var lines := disk.files[path];
    var n := 0;
    while n < |lines|
      invariant 0 <= n <= |lines|
    {
      n := n + 1;
    }
    var c := n - 1;
    if c < 0 {
      c := 0;
    }
    count := c;
  }

  // ---------------------------------------------------------------------------
  // The session as a state machine
  // ---------------------------------------------------------------------------

  /** One frame read: whether `cap.read()` succeeded, the hands detected in it,
      the clock reading taken for the display, the stamp a manual row would
      carry, and the raw `cv2.waitKey` code. */
  datatype Tick = Tick(read: bool, sightings: seq<Sighting>, displayTime: real, manualStamp: string, key: int)

  /** What stays fixed during a session. */
  datatype Config = Config(name: string, csvPath: Path, existingCount: nat, saveImgs: bool)

  /** What a session changes: the files, `session_saves`, `img_save_index`,
      `last_auto_time` and the images written. */
  datatype SessionState = SessionState(files: FileSystem, sessionSaves: nat, imgSaveIndex: nat,
                                       lastAutoTime: real, images: seq<Path>)

  /** `save_landmarks_to_csv`: one row appended; with images enabled, a frame
      given and a manual capture, one numbered image; one more session save. */
  function Saved(s: SessionState, cfg: Config, stamp: string, captureType: string, hand: Hand, withFrame: bool): SessionState {
    var s1 := s.(files := Appended(s.files, cfg.csvPath, [CaptureRow(stamp, captureType, hand)]),
                 sessionSaves := s.sessionSaves + 1);
    if cfg.saveImgs && withFrame && captureType == "manual"
    then s1.(images := s.images + [ImgPath(cfg.name, s.imgSaveIndex)], imgSaveIndex := s.imgSaveIndex + 1)
    else s1
  }

  /** The state once the per-hand loop has looked at the first `k` hands. */
  function AfterAuto(s: SessionState, cfg: Config, ss: seq<Sighting>, k: nat): SessionState
    requires k <= |ss|
  {
    var times := Times(ss)[..k];
    s.(files := AutoFiles(s.files, cfg.csvPath, s.lastAutoTime, CaptureInterval, ss, k),
       sessionSaves := s.sessionSaves + |Fired(s.lastAutoTime, CaptureInterval, times)|,
       lastAutoTime := TimerAfter(s.lastAutoTime, CaptureInterval, times))
  }

  /** SPACE with a hand in the frame saves the first hand as "manual". */
  function AfterKey(s: SessionState, cfg: Config, t: Tick): SessionState {
    if KeyCode(t.key) == KeySpace && |t.sightings| > 0
    then Saved(s, cfg, t.manualStamp, "manual", t.sightings[0].hand, true)
    else s
  }

  /** One iteration of the main loop after a successful read. */
  function Next(s: SessionState, cfg: Config, t: Tick): SessionState {
    AfterKey(AfterAuto(s, cfg, t.sightings, |t.sightings|), cfg, t)
  }

  /** ESC or 'q' ends the loop (SPACE is checked first, so it never does). */
  predicate QuitKey(key: int) {
    var k := KeyCode(key);
    k != KeySpace && (k == KeyEsc || k == KeyQ)
  }

  /** The main loop over the frames read: it ends at the first failed read (or
      when the frames run out) or after the iteration whose key quits. */
  function Run(s: SessionState, cfg: Config, ticks: seq<Tick>): SessionState
    decreases |ticks|
  {
    if ticks == [] || !ticks[0].read then s
    else
      var s1 := Next(s, cfg, ticks[0]);
      if QuitKey(ticks[0].key) then s1 else Run(s1, cfg, ticks[1..])
  }

  // ---------------------------------------------------------------------------
  // The resumable count
  // ---------------------------------------------------------------------------

  /** The session's bookkeeping agrees with the disk: the ledger has a first
      line, its data rows number `existing_count + session_saves`, and the
      images are numbered consecutively from `existing_count + 1`. */
  predicate Counted(s: SessionState, cfg: Config) {
    && cfg.csvPath in s.files && |s.files[cfg.csvPath]| >= 1
    && |DataRows(s.files, cfg.csvPath)| == cfg.existingCount + s.sessionSaves
    && s.imgSaveIndex == cfg.existingCount + 1 + |s.images|
    && forall j :: 0 <= j < |s.images| ==> s.images[j] == ImgPath(cfg.name, cfg.existingCount + 1 + j)
  }

  lemma SavedKeepsCount(s: SessionState, cfg: Config, stamp: string, captureType: string, hand: Hand, withFrame: bool)
    requires Counted(s, cfg)
    ensures Counted(Saved(s, cfg, stamp, captureType, hand, withFrame), cfg)
    ensures DataRows(Saved(s, cfg, stamp, captureType, hand, withFrame).files, cfg.csvPath)
         == DataRows(s.files, cfg.csvPath) + [CaptureRow(stamp, captureType, hand)]
  {
    var lines := s.files[cfg.csvPath];
    assert (lines + [CaptureRow(stamp, captureType, hand)])[1..] == lines[1..] + [CaptureRow(stamp, captureType, hand)];
  }

  /** The auto captures of a frame keep the count; the ledger gains exactly the
      rows of the hands `Fired` selects, in detection order. */
  lemma AfterAutoKeepsCount(s: SessionState, cfg: Config, ss: seq<Sighting>)
    requires Counted(s, cfg)
    ensures Counted(AfterAuto(s, cfg, ss, |ss|), cfg)
    ensures DataRows(AfterAuto(s, cfg, ss, |ss|).files, cfg.csvPath)
         == DataRows(s.files, cfg.csvPath) + AutoRows(ss, Fired(s.lastAutoTime, CaptureInterval, Times(ss)))
  {
    var times := Times(ss);
    assert times[..|ss|] == times;
    var rows := AutoRows(ss, Fired(s.lastAutoTime, CaptureInterval, times));
    var lines := s.files[cfg.csvPath];
    if rows != [] {
      assert (lines + rows)[1..] == lines[1..] + rows;
    }
  }

  /** One loop iteration keeps the count. */
  lemma NextKeepsCount(s: SessionState, cfg: Config, t: Tick)
    requires Counted(s, cfg)
    ensures Counted(Next(s, cfg, t), cfg)
  {
    var a := AfterAuto(s, cfg, t.sightings, |t.sightings|);
    AfterAutoKeepsCount(s, cfg, t.sightings);
    if KeyCode(t.key) == KeySpace && |t.sightings| > 0 {
      SavedKeepsCount(a, cfg, t.manualStamp, "manual", t.sightings[0].hand, true);
    }
  }

  /** A whole session keeps the count. */
  lemma {:induction false} RunKeepsCount(s: SessionState, cfg: Config, ticks: seq<Tick>)
    requires Counted(s, cfg)
    ensures Counted(Run(s, cfg, ticks), cfg)
    decreases |ticks|
  {
    if ticks != [] && ticks[0].read {
      NextKeepsCount(s, cfg, ticks[0]);
      if !QuitKey(ticks[0].key) {
        RunKeepsCount(Next(s, cfg, ticks[0]), cfg, ticks[1..]);
      }
    }
  }

  /** A frame adds at most one automatic save per hand and one manual save;
      with the estimator limited to `max_num_hands = 1`, at most two. */
  lemma NextSavesBound(s: SessionState, cfg: Config, t: Tick)
    ensures Next(s, cfg, t).sessionSaves <= s.sessionSaves + |t.sightings| + (if |t.sightings| > 0 then 1 else 0)
    ensures |t.sightings| <= MaxNumHands ==> Next(s, cfg, t).sessionSaves <= s.sessionSaves + 2 * MaxNumHands
  {
    var fired := Fired(s.lastAutoTime, CaptureInterval, Times(t.sightings));
    assert Times(t.sightings)[..|t.sightings|] == Times(t.sightings);
    assert AfterAuto(s, cfg, t.sightings, |t.sightings|).sessionSaves == s.sessionSaves + |fired|;
    FiredAtMostOnce(s.lastAutoTime, CaptureInterval, Times(t.sightings));
  }

  /** With images disabled, as the script ships (`SAVE_IMGS_ON_MANUAL = False`),
      a session writes no image and leaves the image index alone. */
  lemma {:induction false} RunWithoutImages(s: SessionState, cfg: Config, ticks: seq<Tick>)
    requires cfg.saveImgs == SaveImgsOnManual
    ensures Run(s, cfg, ticks).images == s.images
    ensures Run(s, cfg, ticks).imgSaveIndex == s.imgSaveIndex
    decreases |ticks|
  {
    if ticks != [] && ticks[0].read && !QuitKey(ticks[0].key) {
      RunWithoutImages(Next(s, cfg, ticks[0]), cfg, ticks[1..]);
    }
  }

  /** No two images of a session share a file name. */
  lemma ImagesDistinct(s: SessionState, cfg: Config)
    requires Counted(s, cfg)
    ensures forall i, j :: 0 <= i < j < |s.images| ==> s.images[i] != s.images[j]
  {
    var base := cfg.existingCount + 1;
    forall i, j | 0 <= i < j < |s.images|
      ensures s.images[i] != s.images[j]
    {
      assert s.images[i] == ImgPath(cfg.name, base + i);
      assert s.images[j] == ImgPath(cfg.name, base + j);
      assert ImgPath(cfg.name, base + i) != ImgPath(cfg.name, base + j) by {
        ImgPathDistinct(cfg.name, base + i, base + j);
      }
    }
  }

  /** A ledger that exists but is empty is counted as 0 rows, yet it gets no
      header, so the first saved row takes the header's place and the next
      session counts one row fewer than this one reported. */
  lemma EmptyLedgerUndercounts(s: SessionState, cfg: Config, stamp: string, hand: Hand)
    requires cfg.csvPath in s.files && s.files[cfg.csvPath] == []
    requires cfg.existingCount == 0 && s.sessionSaves == 0
    ensures var after := Saved(s, cfg, stamp, "auto", hand, false);
      && cfg.existingCount + after.sessionSaves == 1
      && ExistingCount(after.files, cfg.csvPath) == 0
  {
    var after := Saved(s, cfg, stamp, "auto", hand, false);
    assert after.files[cfg.csvPath] == [CaptureRow(stamp, "auto", hand)];
  }

  // ---------------------------------------------------------------------------
  // The whole script
  // ---------------------------------------------------------------------------

  /** How the script ends: no gesture name, no camera (after the header was
      written), or a finished session with its reported total. */
  datatype Outcome = NoName | NoCamera | Finished(total: nat)

  /** The script from the prompt to the final report. */
  function Launch(fs: FileSystem, input: string, cameraOpens: bool, startTime: real, ticks: seq<Tick>, saveImgs: bool): (FileSystem, Outcome) {
    match GestureName(input)
    case None => (fs, NoName)
    case Some(name) => Named(fs, name, cameraOpens, startTime, ticks, saveImgs)
  }

  /** The script once the gesture name `name` is accepted. */
  function Named(fs: FileSystem, name: string, cameraOpens: bool, startTime: real, ticks: seq<Tick>, saveImgs: bool): (FileSystem, Outcome) {
    var cfg := NamedConfig(fs, name, saveImgs);
    var s0 := Start(fs, cfg, startTime);
    if !cameraOpens then (s0.files, NoCamera)
    else
      var s := Run(s0, cfg, ticks);
      (s.files, Finished(cfg.existingCount + s.sessionSaves))
  }

  /** The session's settings once `name` is accepted: its ledger and the rows
      that ledger already holds. */
  function NamedConfig(fs: FileSystem, name: string, saveImgs: bool): Config {
    Config(name, CsvPath(name), ExistingCount(fs, CsvPath(name)), saveImgs)
  }

  /** The state the loop starts from: the ledger given its header if it was
      missing, nothing saved yet, images numbered after the existing rows. */
  function Start(fs: FileSystem, cfg: Config, startTime: real): SessionState {
    SessionState(HeaderIfAbsent(fs, cfg.csvPath, LmHeaderRow()), 0, cfg.existingCount + 1, startTime, [])
  }

  /** The reported total is what the next launch resumes from, provided the
      ledger was missing or had at least one line. */
  lemma LaunchResumable(fs: FileSystem, input: string, cameraOpens: bool, startTime: real, ticks: seq<Tick>, saveImgs: bool)
    requires GestureName(input).Some?
    requires var path := CsvPath(GestureName(input).value); path !in fs || |fs[path]| >= 1
    ensures var r := Launch(fs, input, cameraOpens, startTime, ticks, saveImgs);
      r.1.Finished? ==> ExistingCount(r.0, CsvPath(GestureName(input).value)) == r.1.total
  {
    var name := GestureName(input).value;
    assert Launch(fs, input, cameraOpens, startTime, ticks, saveImgs) == Named(fs, name, cameraOpens, startTime, ticks, saveImgs);
    if cameraOpens {
      NamedResumable(fs, name, startTime, ticks, saveImgs);
    }
  }

  lemma NamedResumable(fs: FileSystem, name: string, startTime: real, ticks: seq<Tick>, saveImgs: bool)
    requires CsvPath(name) !in fs || |fs[CsvPath(name)]| >= 1
    ensures var r := Named(fs, name, true, startTime, ticks, saveImgs);
      r.1.Finished? && ExistingCount(r.0, CsvPath(name)) == r.1.total
  {
    var cfg := NamedConfig(fs, name, saveImgs);
    var s0 := Start(fs, cfg, startTime);
    assert Counted(s0, cfg) by {
      assert DataRows(s0.files, cfg.csvPath) == DataRows(fs, cfg.csvPath);
    }
    RunKeepsCount(s0, cfg, ticks);
  }

  /** `Launch` once the name is accepted. */
  lemma LaunchNamed(fs: FileSystem, input: string, name: string, cameraOpens: bool, startTime: real, ticks: seq<Tick>, saveImgs: bool)
    requires GestureName(input) == Some(name)
    ensures Launch(fs, input, cameraOpens, startTime, ticks, saveImgs) == Named(fs, name, cameraOpens, startTime, ticks, saveImgs)
  {
  }

  /** `Named` when the camera does not open. */
  lemma NamedClosed(fs: FileSystem, name: string, startTime: real, ticks: seq<Tick>, saveImgs: bool)
    ensures Named(fs, name, false, startTime, ticks, saveImgs) == (HeaderIfAbsent(fs, CsvPath(name), LmHeaderRow()), NoCamera)
  {
  }

  /** An empty name touches nothing; a camera that does not open leaves only
      the header of a new ledger behind. */
  lemma LaunchEarlyExits(fs: FileSystem, input: string, startTime: real, ticks: seq<Tick>, saveImgs: bool)
    ensures Strip(input) == [] ==> Launch(fs, input, true, startTime, ticks, saveImgs).0 == fs
    ensures Strip(input) == [] ==> Launch(fs, input, true, startTime, ticks, saveImgs).1 == NoName
    ensures Strip(input) != [] ==>
      Launch(fs, input, false, startTime, ticks, saveImgs).0 == HeaderIfAbsent(fs, CsvPath(Strip(input)), LmHeaderRow())
    ensures Strip(input) != [] ==> Launch(fs, input, false, startTime, ticks, saveImgs).1 == NoCamera
  {
  }

  /** The capture session: the script's globals that change while it runs. */
  class Session {
    const disk: Disk
    const gestureName: string
    const csvPath: Path
    const existingCount: nat
    const saveImgs: bool
    var sessionSaves: nat
    var imgSaveIndex: nat
    var lastAutoTime: real
    var images: seq<Path>

    function Cfg(): Config {
      Config(gestureName, csvPath, existingCount, saveImgs)
    }

    function Current(): SessionState
      reads this, disk
    {
      SessionState(disk.files, sessionSaves, imgSaveIndex, lastAutoTime, images)
    }

    constructor (disk: Disk, gestureName: string, csvPath: Path, existingCount: nat, saveImgs: bool, startTime: real)
      ensures this.disk == disk
      ensures Cfg() == Config(gestureName, csvPath, existingCount, saveImgs)
      ensures Current() == SessionState(disk.files, 0, existingCount + 1, startTime, [])
    {
      this.disk := disk;
      this.gestureName := gestureName;
      this.csvPath := csvPath;
      this.existingCount := existingCount;
      this.saveImgs := saveImgs;
      sessionSaves := 0;
      imgSaveIndex := existingCount + 1;
      lastAutoTime := startTime;
      images := [];
    }

    /** `save_landmarks_to_csv(landmarks, capture_type, frame_bgr)` */
    method SaveLandmarksToCsv(hand: Hand, captureType: string, stamp: string, withFrame: bool)
      modifies this, disk
      ensures Current() == Saved(old(Current()), Cfg(), stamp, captureType, hand, withFrame)
    {
      var row := AppendCoords([Text(stamp), Text(captureType)], hand, Repr);
      disk.Append(csvPath, [row]);
      if saveImgs && withFrame && captureType == "manual" {
        images := images + [ImgPath(gestureName, imgSaveIndex)];
        imgSaveIndex := imgSaveIndex + 1;
      }
      sessionSaves := sessionSaves + 1;
    }

    /** One iteration of the main loop after a successful read: the auto
        captures, the two numbers shown on screen, then the key. */
    method Frame(t: Tick) returns (remaining: nat, total: nat, quit: bool)
      requires t.read
      modifies this, disk
      ensures Current() == Next(old(Current()), Cfg(), t)
      ensures var a := AfterAuto(old(Current()), Cfg(), t.sightings, |t.sightings|);
        && remaining == ClampedThenTruncated(CaptureInterval, t.displayTime - a.lastAutoTime)
        && total == existingCount + a.sessionSaves
      ensures quit <==> QuitKey(t.key)
    {
      var ss := t.sightings;
      AutoCaptures(ss);
      remaining := ClampedThenTruncated(CaptureInterval, t.displayTime - lastAutoTime);
      total := existingCount + sessionSaves;
      var key := KeyCode(t.key);
      quit := false;
      if key == KeySpace {
        if |ss| > 0 {
          SaveLandmarksToCsv(ss[0].hand, "manual", t.manualStamp, true);
        }
      } else if key == KeyEsc || key == KeyQ {
        quit := true;
      }
    }

    /** The `for` loop over the hands seen in one frame: a hand seen once the
        capture interval has passed since the last auto capture is saved. */
    method AutoCaptures(ss: seq<Sighting>)
      modifies this, disk
      ensures Current() == AfterAuto(old(Current()), Cfg(), ss, |ss|)
    {
      ghost var s0 := Current();
      var k := 0;
      while k < |ss|
        invariant 0 <= k <= |ss|
        invariant Current() == AfterAuto(s0, Cfg(), ss, k)
      {
        var currentTime := ss[k].now;
        AutoFilesNext(s0.files, csvPath, s0.lastAutoTime, CaptureInterval, ss, k);
        FiredNext(s0.lastAutoTime, CaptureInterval, Times(ss), k);
        if currentTime - lastAutoTime >= CaptureInterval {
          SaveLandmarksToCsv(ss[k].hand, "auto", ss[k].stamp, false);
          lastAutoTime := currentTime;
        }
        k := k + 1;
      }
    }

    /** `while True:` over the frames read. */
    method Loop(ticks: seq<Tick>)
      modifies this, disk
      ensures Current() == Run(old(Current()), Cfg(), ticks)
    {
      var i := 0;
      while i < |ticks|
        invariant 0 <= i <= |ticks|
        invariant Run(old(Current()), Cfg(), ticks) == Run(Current(), Cfg(), ticks[i..])
      {
        var t := ticks[i];
        if !t.read {
          return;
        }
        assert ticks[i..][1..] == ticks[i + 1..];
        var remaining, total, quit := Frame(t);
        if quit {
          return;
        }
        i := i + 1;
      }
    }
  }

  /** `if not os.path.exists(csv_path)`: the header, built column by column. */
  method WriteHeaderIfAbsent(disk: Disk, csvPath: Path)
    modifies disk
    ensures disk.files == HeaderIfAbsent(old(disk.files), csvPath, LmHeaderRow())
  {
    if !disk.Exists(csvPath) {
      var header := BuildHeader(["time", "capture_type"], Short);
      disk.Write(csvPath, [TextRow(header)]);
    }
  }

  /** The session from the opened camera to the final report. */
  method RunSession(disk: Disk, gestureName: string, csvPath: Path, existingCount: nat, saveImgs: bool,
                    startTime: real, ticks: seq<Tick>) returns (total: nat)
    modifies disk
    ensures var s := Run(SessionState(old(disk.files), 0, existingCount + 1, startTime, []),
                         Config(gestureName, csvPath, existingCount, saveImgs), ticks);
      disk.files == s.files && total == existingCount + s.sessionSaves
  {
    var session := new Session(disk, gestureName, csvPath, existingCount, saveImgs, startTime);
    session.Loop(ticks);
    total := existingCount + session.sessionSaves;
  }

  /** The script: prompt, then the rest under the accepted name. */
  method Capture(disk: Disk, input: string, cameraOpens: bool, startTime: real, ticks: seq<Tick>, saveImgs: bool)
    returns (outcome: Outcome)
    modifies disk
    ensures disk.files == Launch(old(disk.files), input, cameraOpens, startTime, ticks, saveImgs).0
    ensures outcome == Launch(old(disk.files), input, cameraOpens, startTime, ticks, saveImgs).1
  {
    var name := GestureName(input);
    if name.None? {
      return NoName;
    }
    LaunchNamed(disk.files, input, name.value, cameraOpens, startTime, ticks, saveImgs);
    outcome := CaptureNamed(disk, name.value, cameraOpens, startTime, ticks, saveImgs);
  }

  /** Resumed count, header, camera, session, report. */
  method CaptureNamed(disk: Disk, gestureName: string, cameraOpens: bool, startTime: real, ticks: seq<Tick>, saveImgs: bool)
    returns (outcome: Outcome)
    modifies disk
    ensures disk.files == Named(old(disk.files), gestureName, cameraOpens, startTime, ticks, saveImgs).0
    ensures outcome == Named(old(disk.files), gestureName, cameraOpens, startTime, ticks, saveImgs).1
  {
    ghost var fs0 := disk.files;
    var csvPath := CsvPath(gestureName);
    var existingCount := CountExisting(disk, csvPath);
    WriteHeaderIfAbsent(disk, csvPath);
    if !cameraOpens {
      NamedClosed(fs0, gestureName, startTime, ticks, saveImgs);
      return NoCamera;
    }
    ghost var cfg := NamedConfig(fs0, gestureName, saveImgs);
    assert cfg == Config(gestureName, csvPath, existingCount, saveImgs);
    assert Start(fs0, cfg, startTime) == SessionState(disk.files, 0, existingCount + 1, startTime, []);
    var total := RunSession(disk, gestureName, csvPath, existingCount, saveImgs, startTime, ticks);
    outcome := Finished(total);
  }
}
