/** Batch ingestion (scr/video_to_landmark.py): every video under
    `videos_proc/<LABEL>/` is sampled every `frame_step` frames, each sampled
    frame is preprocessed and given to the hand-pose estimator, and the first
    detected hand of each such frame becomes one "video" row of the label's
    ledger `dataset_landmarks/<LABEL>.csv`. Pixels, the estimator and the clock
    are inputs: a video is the sequence of its frames, each with the hands the
    estimator reports for it and the time text of its row. */
module VideoToLandmark {
  import opened Text
  import opened Ledger

  const DatasetDir: string := "dataset_landmarks"
  const FrameStep: nat := 3
  const DenoiseEnabled: bool := true
  const CaptureType: string := "video"
  const VideoSuffixes: seq<string> := [".mp4", ".mov", ".mkv", ".avi"]

  // ---------------------------------------------------------------------------
  // Preprocessing: stage order and fallback
  // ---------------------------------------------------------------------------

  /** A stage run under `try: ... except Exception: pass`: its output, or its
      input unchanged when it raises (`None`). */
  function Attempt<F>(stage: F -> Option<F>, f: F): (r: F)
    ensures stage(f).Some? ==> r == stage(f).value
    ensures stage(f).None? ==> r == f
  {
    match stage(f)
    case Some(g) => g
    case None => f
  }

  /** `preprocess_frame`: denoise when enabled, then brightness equalisation,
      each falling back to its input when it raises, then the unconditional resize. */
  function PreprocessFrame<F>(frame: F, denoise: bool, denoiser: F -> Option<F>,
                              equalizer: F -> Option<F>, resize: F -> F): (r: F)
    ensures !denoise ==> r == resize(Attempt(equalizer, frame))
  {
    var denoised := if denoise then Attempt(denoiser, frame) else frame;
    var equalized := Attempt(equalizer, denoised);
    resize(equalized)
  }

  /** With every stage succeeding the order is denoise, equalise, resize. */
  lemma PreprocessStageOrder<F>(frame: F, denoiser: F -> Option<F>, equalizer: F -> Option<F>, resize: F -> F)
    requires denoiser(frame).Some? && equalizer(denoiser(frame).value).Some?
    ensures PreprocessFrame(frame, DenoiseEnabled, denoiser, equalizer, resize)
         == resize(equalizer(denoiser(frame).value).value)
  {
  }

  /** A denoiser that raises does not stop the chain: the frame is still
      equalised (or passed through) and resized. */
  lemma PreprocessDenoiseFails<F>(frame: F, denoiser: F -> Option<F>, equalizer: F -> Option<F>, resize: F -> F)
    requires denoiser(frame).None?
    ensures PreprocessFrame(frame, DenoiseEnabled, denoiser, equalizer, resize) == resize(Attempt(equalizer, frame))
  {
  }

  /** A denoised frame whose equalisation raises is resized as denoised. */
  lemma PreprocessEqualiseFails<F>(frame: F, denoiser: F -> Option<F>, equalizer: F -> Option<F>, resize: F -> F)
    requires denoiser(frame).Some? && equalizer(denoiser(frame).value).None?
    ensures PreprocessFrame(frame, DenoiseEnabled, denoiser, equalizer, resize) == resize(denoiser(frame).value)
  {
  }

  /** When both optional stages raise, the output is the resized input frame. */
  lemma PreprocessAllFail<F>(frame: F, denoise: bool, denoiser: F -> Option<F>, equalizer: F -> Option<F>, resize: F -> F)
    requires denoiser(frame).None? && equalizer(frame).None?
    ensures PreprocessFrame(frame, denoise, denoiser, equalizer, resize) == resize(frame)
  {
  }

  // ---------------------------------------------------------------------------
  // Ledger writes
  // ---------------------------------------------------------------------------

  /** The row `append_landmark_row` writes: the time text, the capture type,
      then each landmark value with nine decimals. */
  function LandmarkRow(timeStr: string, captureType: string, landmarkList: seq<real>): (r: Row)
    ensures |r| == 2 + |landmarkList|
    ensures r[0] == Text(timeStr) && r[1] == Text(captureType)
    ensures forall i :: 0 <= i < |landmarkList| ==> r[2 + i] == Num(landmarkList[i], Fixed(9))
  {
    [Text(timeStr), Text(captureType)] + NumCells(landmarkList, Fixed(9))
  }

  /** The ledger at `path` after appending `rows` one `append_landmark_row` at a
      time: the header is created first if the file is missing; appending
      nothing leaves everything as it was. */
  function AppendedToLedger(fs: FileSystem, path: Path, rows: seq<Row>): FileSystem {
    if rows == [] then fs
    else fs[path := (if path in fs then fs[path] else [LmHeaderRow()]) + rows]
  }

  /** A non-empty batch is what `ensure_csv_with_header` followed by an
      append leaves. */
  lemma AppendedToLedgerWrites(fs: FileSystem, path: Path, rows: seq<Row>)
    requires rows != []
    ensures AppendedToLedger(fs, path, rows) == Appended(HeaderIfAbsent(fs, path, LmHeaderRow()), path, rows)
  {
  }

  /** No rows leave the files alone; otherwise the ledger gets the rows after
      its old lines, or after a header when it was missing, and no other file
      changes. */
  lemma AppendedToLedgerLayout(fs: FileSystem, path: Path, rows: seq<Row>)
    ensures var r := AppendedToLedger(fs, path, rows);
      && (rows == [] ==> r == fs)
      && (rows != [] ==> r.Keys == fs.Keys + {path})
      && (rows != [] && path in fs ==> r[path] == fs[path] + rows)
      && (rows != [] && path !in fs ==> r[path] == [LmHeaderRow()] + rows)
      && (forall p :: p in fs && p != path ==> r[p] == fs[p])
  {
  }

  /** Appending in two batches is appending their concatenation. */
  lemma AppendedToLedgerConcat(fs: FileSystem, path: Path, a: seq<Row>, b: seq<Row>)
    ensures AppendedToLedger(AppendedToLedger(fs, path, a), path, b) == AppendedToLedger(fs, path, a + b)
  {
    if a == [] {
      assert a + b == b;
    } else if b == [] {
      assert a + b == a;
    } else {
      TwoBatches(fs, path, a, b);
    }
  }

  lemma TwoBatches(fs: FileSystem, path: Path, a: seq<Row>, b: seq<Row>)
    requires a != [] && b != []
    ensures AppendedToLedger(AppendedToLedger(fs, path, a), path, b) == AppendedToLedger(fs, path, a + b)
  {
    var start := if path in fs then fs[path] else [LmHeaderRow()];
    var fs1 := fs[path := start + a];
    assert AppendedToLedger(fs, path, a) == fs1 by {
      AppendedToLedgerIs(fs, path, a, start);
    }
    assert AppendedToLedger(fs1, path, b) == fs1[path := (start + a) + b] by {
      AppendedToLedgerIs(fs1, path, b, start + a);
    }
    assert AppendedToLedger(fs, path, a + b) == fs[path := start + (a + b)] by {
      AppendedToLedgerIs(fs, path, a + b, start);
    }
    assert (start + a) + b == start + (a + b);
    assert fs1[path := (start + a) + b] == fs[path := start + (a + b)];
  }

  /** A non-empty batch leaves the ledger as its old lines, or the header,
      followed by the batch. */
  lemma AppendedToLedgerIs(fs: FileSystem, path: Path, rows: seq<Row>, start: seq<Row>)
    requires rows != []
    requires start == if path in fs then fs[path] else [LmHeaderRow()]
    ensures AppendedToLedger(fs, path, rows) == fs[path := start + rows]
  {
  }

  /** `ensure_csv_with_header`: writes the header into a missing file and
      leaves an existing file, whatever it holds, untouched. */
  method EnsureCsvWithHeader(disk: Disk, csvPath: Path)
    modifies disk
    ensures disk.files == HeaderIfAbsent(old(disk.files), csvPath, LmHeaderRow())
    ensures csvPath in old(disk.files) ==> disk.files == old(disk.files)
    ensures csvPath !in old(disk.files) ==> disk.files[csvPath] == [LmHeaderRow()]
  {
    if !disk.Exists(csvPath) {
      disk.Write(csvPath, [LmHeaderRow()]);
    }
  }

  /** `append_landmark_row`: ensures the header, then appends exactly one row;
      every earlier line is kept. */
  method AppendLandmarkRow(disk: Disk, csvPath: Path, timeStr: string, captureType: string, landmarkList: seq<real>)
    modifies disk
    ensures disk.files == AppendedToLedger(old(disk.files), csvPath, [LandmarkRow(timeStr, captureType, landmarkList)])
    ensures csvPath in old(disk.files) ==> disk.files[csvPath] == old(disk.files[csvPath]) + [LandmarkRow(timeStr, captureType, landmarkList)]
    ensures csvPath !in old(disk.files) ==> disk.files[csvPath] == [LmHeaderRow(), LandmarkRow(timeStr, captureType, landmarkList)]
  {
    EnsureCsvWithHeader(disk, csvPath);
    disk.Append(csvPath, [LandmarkRow(timeStr, captureType, landmarkList)]);
    AppendedToLedgerWrites(old(disk.files), csvPath, [LandmarkRow(timeStr, captureType, landmarkList)]);
  }

  // ---------------------------------------------------------------------------
  // One video
  // ---------------------------------------------------------------------------

  /** A decoded frame: the hands the estimator reports for it (after
      preprocessing) and the time text its row would carry. */
  datatype VideoFrame = VideoFrame(hands: seq<Hand>, timeStr: string)

  /** A file of a label folder: its name, whether `cv2.VideoCapture` opens it,
      and the frames `cap.read()` yields before it fails. */
  datatype Video = Video(name: string, opens: bool, frames: seq<VideoFrame>)

  /** The frame indices below `total` that the loop processes:
      `frame_idx % frame_step == 0`. */
  function Sampled(total: nat, step: nat): seq<nat>
    requires step >= 1
  {
    if total == 0 then []
    else Sampled(total - 1, step) + (if (total - 1) % step == 0 then [total - 1] else [])
  }

  /** The processed indices are exactly the multiples of `step` below `total`. */
  lemma {:induction false} SampledMembers(total: nat, step: nat)
    requires step >= 1
    ensures forall k :: 0 <= k < |Sampled(total, step)| ==> Sampled(total, step)[k] < total && Sampled(total, step)[k] % step == 0
    ensures forall i :: 0 <= i < total && i % step == 0 ==> i in Sampled(total, step)
  {
    if total > 0 {
      SampledMembers(total - 1, step);
    }
  }

  lemma MulSign(x: int, k: int)
    requires k > 0
    ensures x >= 1 ==> x * k >= k
    ensures x <= -1 ==> x * k <= -k
  {
  }

  lemma DivOfSplit(q: int, k: int, s: int)
    requires k > 0 && 0 <= s < k
    ensures (q * k + s) / k == q
  {
    var n := q * k + s;
    var d := n / k;
    var m := n % k;
    assert d * k + m == q * k + s;
    assert (d - q) * k == s - m;
    MulSign(d - q, k);
  }

  /** One more frame adds one to ceil(T / k) exactly when its index is a multiple of k. */
  lemma CeilStep(t: nat, step: nat)
    requires step >= 1
    ensures (t + step) / step == (t + step - 1) / step + (if t % step == 0 then 1 else 0)
  {
    var q := t / step;
    var r := t % step;
    assert t == q * step + r;
    if r == 0 {
      assert t + step - 1 == q * step + (step - 1);
      DivOfSplit(q, step, step - 1);
      assert t + step == (q + 1) * step + 0;
      DivOfSplit(q + 1, step, 0);
    } else {
      assert t + step - 1 == (q + 1) * step + (r - 1);
      DivOfSplit(q + 1, step, r - 1);
      assert t + step == (q + 1) * step + r;
      DivOfSplit(q + 1, step, r);
    }
  }

  /** Exactly ceil(T / k) of T frames are processed. */
  lemma {:induction false} SampledCount(total: nat, step: nat)
    requires step >= 1
    ensures |Sampled(total, step)| == (total + step - 1) / step
  {
    if total == 0 {
      DivOfSplit(0, step, step - 1);
    } else {
      SampledCount(total - 1, step);
      CeilStep(total - 1, step);
    }
  }

  /** The processed indices are 0, k, 2k, ... in order. */
  lemma {:induction false} SampledAt(total: nat, step: nat, j: nat)
    requires step >= 1 && j < |Sampled(total, step)|
    ensures Sampled(total, step)[j] == j * step
  {
    var t := total - 1;
    var prev := Sampled(t, step);
    if j < |prev| {
      SampledAt(t, step, j);
    } else {
      SampledCount(t, step);
      var q := t / step;
      assert t == q * step;
      DivOfSplit(q, step, step - 1);
      assert t + step - 1 == q * step + (step - 1);
    }
  }

  /** Among the indices `idx`, those whose frame has at least one hand. */
  function Hits(frames: seq<VideoFrame>, idx: seq<nat>): (h: seq<nat>)
    ensures |h| <= |idx|
    ensures forall k :: 0 <= k < |h| ==> h[k] < |frames| && |frames[h[k]].hands| > 0
  {
    if idx == [] then []
    else
      var i := idx[|idx| - 1];
      Hits(frames, idx[..|idx| - 1]) + (if i < |frames| && |frames[i].hands| > 0 then [i] else [])
  }

  /** An index is kept exactly when it is listed and its frame shows a hand. */
  lemma {:induction false} HitsMembers(frames: seq<VideoFrame>, idx: seq<nat>)
    ensures forall i :: i in Hits(frames, idx) <==> i in idx && i < |frames| && |frames[i].hands| > 0
  {
    if idx != [] {
      var init := idx[..|idx| - 1];
      HitsMembers(frames, init);
      assert idx == init + [idx[|idx| - 1]];
    }
  }

  /** The row a frame with a hand adds: its first hand only, flattened. */
  function FrameRow(frame: VideoFrame): Row
    requires |frame.hands| > 0
  {
    LandmarkRow(frame.timeStr, CaptureType, Coords(frame.hands[0]))
  }

  function RowsOf(frames: seq<VideoFrame>, h: seq<nat>): (rows: seq<Row>)
    requires forall k :: 0 <= k < |h| ==> h[k] < |frames| && |frames[h[k]].hands| > 0
    ensures |rows| == |h|
    ensures forall k :: 0 <= k < |h| ==> rows[k] == FrameRow(frames[h[k]])
  {
    seq(|h|, k requires 0 <= k < |h| => FrameRow(frames[h[k]]))
  }

  /** The rows `process_video_file` appends for a video: none when it does not
      open, otherwise one per processed frame with a hand, in frame order. */
  function VideoRows(v: Video, step: nat): seq<Row>
    requires step >= 1
  {
    if v.opens then RowsOf(v.frames, Hits(v.frames, Sampled(|v.frames|, step))) else []
  }

  /** The loop `for l in lm.landmark: lm_list.extend([l.x, l.y, l.z])`. */
  method LandmarkList(hand: Hand) returns (lmList: seq<real>)
    ensures lmList == Coords(hand)
  {
    lmList := [];
    var k := 0;
    while k < |hand|
      invariant 0 <= k <= |hand|
      invariant lmList == Coords(hand[..k])
    {
      var l := hand[k];
      assert hand[..k + 1][..k] == hand[..k];
      lmList := lmList + [l.x, l.y, l.z];
      k := k + 1;
    }
    assert hand[..k] == hand;
  }

  /** The rows appended once the first `t` frames have been read, frame by
      frame as the loop reads them: frame `t - 1` adds its row exactly when it
      is processed and shows a hand. */
  function ProcessedRows(frames: seq<VideoFrame>, t: nat, step: nat): seq<Row>
    requires step >= 1 && t <= |frames|
  {
    if t == 0 then []
    else
      ProcessedRows(frames, t - 1, step)
        + (if (t - 1) % step == 0 && |frames[t - 1].hands| > 0 then [FrameRow(frames[t - 1])] else [])
  }

  /** Read frame by frame, the rows are those of the processed frames below
      `t` that show a hand, in frame order. */
  lemma {:induction false} ProcessedRowsAreHits(frames: seq<VideoFrame>, t: nat, step: nat)
    requires step >= 1 && t <= |frames|
    ensures ProcessedRows(frames, t, step) == RowsOf(frames, Hits(frames, Sampled(t, step)))
  {
    if t > 0 {
      var u := t - 1;
      ProcessedRowsAreHits(frames, u, step);
      var before := Sampled(u, step);
      var h := Hits(frames, before);
      if u % step == 0 {
        assert Sampled(t, step) == before + [u];
        HitsSnoc(frames, before, u);
        if |frames[u].hands| > 0 {
          assert Hits(frames, Sampled(t, step)) == h + [u];
          RowsOfSnoc(frames, h, u);
        } else {
          assert Hits(frames, Sampled(t, step)) == h;
        }
      } else {
        assert Sampled(t, step) == before;
      }
    }
  }

  lemma HitsSnoc(frames: seq<VideoFrame>, idx: seq<nat>, u: nat)
    requires u < |frames|
    ensures Hits(frames, idx + [u]) == Hits(frames, idx) + (if |frames[u].hands| > 0 then [u] else [])
  {
    assert (idx + [u])[..|idx|] == idx;
  }

  lemma RowsOfSnoc(frames: seq<VideoFrame>, h: seq<nat>, u: nat)
    requires u < |frames| && |frames[u].hands| > 0
    requires forall k :: 0 <= k < |h| ==> h[k] < |frames| && |frames[h[k]].hands| > 0
    ensures RowsOf(frames, h + [u]) == RowsOf(frames, h) + [FrameRow(frames[u])]
  {
  }

  /** `process_video_file`: reads every frame, processes those whose index is
      divisible by `frame_step`, and appends the first hand of each processed
      frame that has one. Returns the number of rows appended; a video that does
      not open appends nothing and returns 0. */
  method ProcessVideoFile(disk: Disk, csvPath: Path, video: Video, step: nat) returns (saved: nat)
    requires step >= 1
    modifies disk
    ensures saved == |VideoRows(video, step)|
    ensures disk.files == AppendedToLedger(old(disk.files), csvPath, VideoRows(video, step))
  {
    if !video.opens {
      return 0;
    }
    var frames := video.frames;
    ghost var fs0 := disk.files;
    saved := 0;
    var frameIdx := 0;
    while frameIdx < |frames|
      invariant 0 <= frameIdx <= |frames|
      invariant saved == |ProcessedRows(frames, frameIdx, step)|
      invariant disk.files == AppendedToLedger(fs0, csvPath, ProcessedRows(frames, frameIdx, step))
    {
      var added := ProcessFrame(disk, csvPath, frames, frameIdx, step, fs0);
      saved := saved + added;
      frameIdx := frameIdx + 1;
    }
    ProcessedRowsAreHits(frames, |frames|, step);
  }

  /** One pass of the frame loop: frame `t` is appended exactly when it is
      processed and shows a hand. */
  method ProcessFrame(disk: Disk, csvPath: Path, frames: seq<VideoFrame>, t: nat, step: nat, ghost fs0: FileSystem)
      returns (added: nat)
    requires step >= 1 && t < |frames|
    requires disk.files == AppendedToLedger(fs0, csvPath, ProcessedRows(frames, t, step))
    modifies disk
    ensures disk.files == AppendedToLedger(fs0, csvPath, ProcessedRows(frames, t + 1, step))
    ensures |ProcessedRows(frames, t + 1, step)| == |ProcessedRows(frames, t, step)| + added
  {
    var frame := frames[t];
    ghost var done := ProcessedRows(frames, t, step);
    added := 0;
    if t % step == 0 && |frame.hands| > 0 {
      var lmList := LandmarkList(frame.hands[0]);
      ghost var row := FrameRow(frame);
      assert LandmarkRow(frame.timeStr, CaptureType, lmList) == row;
      AppendLandmarkRow(disk, csvPath, frame.timeStr, CaptureType, lmList);
      assert disk.files == AppendedToLedger(AppendedToLedger(fs0, csvPath, done), csvPath, [row]);
      AppendedToLedgerConcat(fs0, csvPath, done, [row]);
      assert ProcessedRows(frames, t + 1, step) == done + [row];
      added := 1;
    } else {
      assert ProcessedRows(frames, t + 1, step) == done;
    }
  }

  /** A video that does not open adds nothing, whatever its frames. */
  lemma UnopenedVideoAddsNothing(v: Video, step: nat)
    requires step >= 1 && !v.opens
    ensures VideoRows(v, step) == []
  {
  }

  /** At most ceil(T / k) rows come from a video of T frames, and exactly that
      many when every processed frame shows a hand. */
  lemma VideoRowsBound(v: Video, step: nat)
    requires step >= 1
    ensures |VideoRows(v, step)| <= (|v.frames| + step - 1) / step
    ensures v.opens && (forall i :: 0 <= i < |v.frames| ==> |v.frames[i].hands| > 0)
            ==> |VideoRows(v, step)| == (|v.frames| + step - 1) / step
  {
    SampledCount(|v.frames|, step);
    SampledMembers(|v.frames|, step);
    if v.opens && (forall i :: 0 <= i < |v.frames| ==> |v.frames[i].hands| > 0) {
      HitsAll(v.frames, Sampled(|v.frames|, step));
    }
  }

  lemma {:induction false} HitsAll(frames: seq<VideoFrame>, idx: seq<nat>)
    requires forall k :: 0 <= k < |idx| ==> idx[k] < |frames| && |frames[idx[k]].hands| > 0
    ensures Hits(frames, idx) == idx
  {
    if idx != [] {
      var init := idx[..|idx| - 1];
      HitsAll(frames, init);
      assert idx == init + [idx[|idx| - 1]];
    }
  }

  // ---------------------------------------------------------------------------
  // All label folders
  // ---------------------------------------------------------------------------

  /** An entry of `videos_proc/`: a label folder with the files inside it, or
      anything else. */
  datatype Entry = Folder(name: string, files: seq<Video>) | Other(name: string)

  /** `dataset_dir / f"{letter}.csv"` */
  function CsvPath(datasetDir: string, letter: string): Path {
    datasetDir + "/" + letter + ".csv"
  }

  /** `Path(name).suffix`: from the last dot of the name on, provided that dot
      is neither the first nor the last character; otherwise empty. */
  function Suffix(name: string): (r: string)
    ensures r == [] || (r[0] == '.' && EndsWith(name, r) && |r| < |name|)
  {
    var i := LastDot(name);
    if 0 < i < |name| - 1 then name[i..] else ""
  }

  /** Position of the last '.' in `s`, or -1. */
  function LastDot(s: string): (i: int)
    ensures -1 <= i < |s|
    ensures i >= 0 ==> s[i] == '.' && forall k :: i < k < |s| ==> s[k] != '.'
    ensures i == -1 ==> forall k :: 0 <= k < |s| ==> s[k] != '.'
  {
    if s == [] then -1 else if s[|s| - 1] == '.' then |s| - 1 else LastDot(s[..|s| - 1])
  }

  /** `p.suffix.lower() in (".mp4", ".mov", ".mkv", ".avi")` */
  predicate IsVideoName(name: string) {
    Lower(Suffix(name)) in VideoSuffixes
  }

  /** The files of a folder whose suffix names a video, in their listed order. */
  function VideoFiles(files: seq<Video>): (r: seq<Video>)
    ensures |r| <= |files|
    ensures forall v :: v in r <==> v in files && IsVideoName(v.name)
    ensures forall k :: 0 <= k < |r| ==> IsVideoName(r[k].name)
  {
    if files == [] then []
    else
      var v := files[|files| - 1];
      VideoFiles(files[..|files| - 1]) + (if IsVideoName(v.name) then [v] else [])
  }

  // Python's `sorted` on paths of one directory compares their names code
  // point by code point, a proper prefix first.

  predicate LexLe(a: string, b: string)
    decreases |a|
  {
    a == [] || (b != [] && (a[0] < b[0] || (a[0] == b[0] && LexLe(a[1..], b[1..]))))
  }

  lemma {:induction false} LexLeTotal(a: string, b: string)
    ensures LexLe(a, b) || LexLe(b, a)
    decreases |a|
  {
    if a != [] && b != [] && a[0] == b[0] {
      LexLeTotal(a[1..], b[1..]);
    }
  }

  lemma {:induction false} LexLeTrans(a: string, b: string, c: string)
    requires LexLe(a, b) && LexLe(b, c)
    ensures LexLe(a, c)
    decreases |a|
  {
    if a != [] && b != [] && c != [] && a[0] == b[0] == c[0] {
      LexLeTrans(a[1..], b[1..], c[1..]);
    }
  }

  function EntryName(e: Entry): string {
    e.name
  }

  function VideoName(v: Video): string {
    v.name
  }

  /** `xs` is in ascending order of `key`, as `sorted` leaves paths. */
  predicate SortedBy<T>(xs: seq<T>, key: T -> string) {
    forall i, j :: 0 <= i < j < |xs| ==> LexLe(key(xs[i]), key(xs[j]))
  }

  /** Putting `x` in front of `xs` keeps the order when it goes first. */
  lemma SortedCons<T>(x: T, xs: seq<T>, key: T -> string)
    requires SortedBy(xs, key)
    requires xs != [] ==> LexLe(key(x), key(xs[0]))
    ensures SortedBy([x] + xs, key)
  {
    forall i, j | 0 <= i < j < |[x] + xs| ensures LexLe(key(([x] + xs)[i]), key(([x] + xs)[j])) {
      if i == 0 && j > 1 {
        LexLeTrans(key(x), key(xs[0]), key(xs[j - 1]));
      }
    }
  }

  /** The head of a sorted `xs` stays below whatever `rest` holds when `rest`
      is `xs`'s tail with one larger element added. */
  lemma HeadBelowRest<T>(x: T, xs: seq<T>, rest: seq<T>, key: T -> string)
    requires xs != [] && SortedBy(xs, key) && LexLe(key(xs[0]), key(x))
    requires multiset(rest) == multiset(xs[1..]) + multiset{x}
    ensures rest != [] ==> LexLe(key(xs[0]), key(rest[0]))
  {
    if rest != [] && rest[0] != x {
      assert rest[0] in multiset(rest);
      assert rest[0] in multiset(xs[1..]);
      var j :| 0 <= j < |xs[1..]| && xs[1..][j] == rest[0];
      assert xs[j + 1] == rest[0];
    }
  }

  /** Insertion into a sorted sequence by `key`. */
  function Insert<T>(x: T, xs: seq<T>, key: T -> string): (r: seq<T>)
    requires SortedBy(xs, key)
    ensures multiset(r) == multiset(xs) + multiset{x}
    ensures SortedBy(r, key)
  {
    if xs == [] then [x]
    else if LexLe(key(x), key(xs[0])) then
      SortedCons(x, xs, key);
      [x] + xs
    else
      assert xs == [xs[0]] + xs[1..];
      var rest := Insert(x, xs[1..], key);
      LexLeTotal(key(x), key(xs[0]));
      HeadBelowRest(x, xs, rest, key);
      SortedCons(xs[0], rest, key);
      [xs[0]] + rest
  }

  /** `sorted(...)` by name: the same elements, in ascending order. */
  function SortBy<T>(xs: seq<T>, key: T -> string): (r: seq<T>)
    ensures multiset(r) == multiset(xs)
    ensures SortedBy(r, key)
  {
    if xs == [] then []
    else
      assert xs == xs[..|xs| - 1] + [xs[|xs| - 1]];
      Insert(xs[|xs| - 1], SortBy(xs[..|xs| - 1], key), key)
  }

  /** The videos of a label folder in the order they are processed. */
  function FolderVideos(e: Entry): seq<Video>
    requires e.Folder?
  {
    SortBy(VideoFiles(e.files), VideoName)
  }

  /** All rows the videos `vs` add to their label's ledger, video after video. */
  function VideosRows(vs: seq<Video>, step: nat): seq<Row>
    requires step >= 1
  {
    if vs == [] then [] else VideosRows(vs[..|vs| - 1], step) + VideoRows(vs[|vs| - 1], step)
  }

  /** The sum of the values `process_video_file` returns for `vs`. */
  function VideosAdded(vs: seq<Video>, step: nat): nat
    requires step >= 1
  {
    if vs == [] then 0 else VideosAdded(vs[..|vs| - 1], step) + |VideoRows(vs[|vs| - 1], step)|
  }

  /** The reported count is the number of rows appended. */
  lemma {:induction false} VideosAddedIsRows(vs: seq<Video>, step: nat)
    requires step >= 1
    ensures VideosAdded(vs, step) == |VideosRows(vs, step)|
  {
    if vs != [] {
      VideosAddedIsRows(vs[..|vs| - 1], step);
    }
  }

  /** What one entry of `videos_proc/` does to the file system: a folder gets
      its ledger (created with the header when missing, even with no videos),
      then the rows of its videos; any other entry is skipped. */
  function EntryEffect(fs: FileSystem, datasetDir: string, e: Entry, step: nat): FileSystem
    requires step >= 1
  {
    if e.Folder? then
      var path := CsvPath(datasetDir, e.name);
      AppendedToLedger(HeaderIfAbsent(fs, path, LmHeaderRow()), path, VideosRows(FolderVideos(e), step))
    else fs
  }

  function EntriesEffect(fs: FileSystem, datasetDir: string, es: seq<Entry>, step: nat): FileSystem
    requires step >= 1
  {
    if es == [] then fs else EntryEffect(EntriesEffect(fs, datasetDir, es[..|es| - 1], step), datasetDir, es[|es| - 1], step)
  }

  lemma EntriesSnoc(fs: FileSystem, datasetDir: string, es: seq<Entry>, e: Entry, step: nat)
    requires step >= 1
    ensures EntriesEffect(fs, datasetDir, es + [e], step) == EntryEffect(EntriesEffect(fs, datasetDir, es, step), datasetDir, e, step)
    ensures EntriesAdded(es + [e], step) == EntriesAdded(es, step) + (if e.Folder? then VideosAdded(FolderVideos(e), step) else 0)
  {
    assert (es + [e])[..|es|] == es;
  }

  function EntriesAdded(es: seq<Entry>, step: nat): nat
    requires step >= 1
  {
    if es == [] then 0
    else
      var e := es[|es| - 1];
      EntriesAdded(es[..|es| - 1], step) + (if e.Folder? then VideosAdded(FolderVideos(e), step) else 0)
  }

  /** A label folder always leaves a ledger behind; a missing one is created
      with the header, and its data rows grow by exactly the rows of its videos,
      as many as the reported count. */
  lemma FolderLedger(fs: FileSystem, datasetDir: string, e: Entry, step: nat)
    requires step >= 1 && e.Folder?
    requires var path := CsvPath(datasetDir, e.name); path !in fs || HasHeader(fs, path, LmHeaderRow())
    ensures var path := CsvPath(datasetDir, e.name);
      var after := EntryEffect(fs, datasetDir, e, step);
      && HasHeader(after, path, LmHeaderRow())
      && DataRows(after, path) == DataRows(fs, path) + VideosRows(FolderVideos(e), step)
      && |DataRows(after, path)| == |DataRows(fs, path)| + VideosAdded(FolderVideos(e), step)
  {
    var path := CsvPath(datasetDir, e.name);
    var rows := VideosRows(FolderVideos(e), step);
    var start := HeaderIfAbsent(fs, path, LmHeaderRow());
    assert HasHeader(start, path, LmHeaderRow());
    assert DataRows(start, path) == DataRows(fs, path);
    if rows != [] {
      AppendKeepsLedger(start, path, LmHeaderRow(), rows);
    }
    VideosAddedIsRows(FolderVideos(e), step);
  }

  /** The inner loop of `process_all`: one label's video files in order, each
      appending its rows to the label's ledger. */
  method ProcessFolder(disk: Disk, csvPath: Path, videoFiles: seq<Video>, step: nat) returns (added: nat)
    requires step >= 1
    modifies disk
    ensures added == VideosAdded(videoFiles, step)
    ensures disk.files == AppendedToLedger(old(disk.files), csvPath, VideosRows(videoFiles, step))
  {
    ghost var fsFolder := disk.files;
    added := 0;
    var j := 0;
    while j < |videoFiles|
      invariant 0 <= j <= |videoFiles|
      invariant added == VideosAdded(videoFiles[..j], step)
      invariant disk.files == AppendedToLedger(fsFolder, csvPath, VideosRows(videoFiles[..j], step))
    {
      assert videoFiles[..j + 1][..j] == videoFiles[..j];
      var n := ProcessVideoFile(disk, csvPath, videoFiles[j], step);
      AppendedToLedgerConcat(fsFolder, csvPath, VideosRows(videoFiles[..j], step), VideoRows(videoFiles[j], step));
      added := added + n;
      j := j + 1;
    }
    assert videoFiles[..j] == videoFiles;
  }

  /** One entry of `videos_proc/`: a label folder gets its ledger and its
      videos' rows; anything else is skipped. */
  method ProcessEntry(disk: Disk, datasetDir: string, e: Entry, step: nat) returns (added: nat)
    requires step >= 1
    modifies disk
    ensures added == if e.Folder? then VideosAdded(FolderVideos(e), step) else 0
    ensures disk.files == EntryEffect(old(disk.files), datasetDir, e, step)
  {
    if !e.Folder? {
      return 0;
    }
    var csvPath := CsvPath(datasetDir, e.name);
    EnsureCsvWithHeader(disk, csvPath);
    var videoFiles := SortBy(VideoFiles(e.files), VideoName);
    added := ProcessFolder(disk, csvPath, videoFiles, step);
  }

  /** `process_all`: label folders in sorted order, each one's video files in
      sorted order; the returned `total_added` is the sum of the per-video counts. */
  method ProcessAll(disk: Disk, entries: seq<Entry>, datasetDir: string, step: nat) returns (totalAdded: nat)
    requires step >= 1
    modifies disk
    ensures totalAdded == EntriesAdded(SortBy(entries, EntryName), step)
    ensures disk.files == EntriesEffect(old(disk.files), datasetDir, SortBy(entries, EntryName), step)
  {
    var sortedEntries := SortBy(entries, EntryName);
    totalAdded := ProcessEntries(disk, datasetDir, sortedEntries, step);
  }

  /** The script's entry point: `process_all()` with its defaults, the
      ledgers under `dataset_landmarks/` and every third frame. */
  method ProcessAllDefaults(disk: Disk, entries: seq<Entry>) returns (totalAdded: nat)
    modifies disk
    ensures totalAdded == EntriesAdded(SortBy(entries, EntryName), FrameStep)
    ensures disk.files == EntriesEffect(old(disk.files), DatasetDir, SortBy(entries, EntryName), FrameStep)
  {
    totalAdded := ProcessAll(disk, entries, DatasetDir, FrameStep);
  }

  /** With the default step a video of T frames gives at most ceil(T / 3) rows. */
  lemma DefaultVideoRowsBound(v: Video)
    ensures |VideoRows(v, FrameStep)| <= (|v.frames| + 2) / 3
  {
    VideoRowsBound(v, FrameStep);
  }

  /** The `for` loop of `process_all` over the entries, in the order given. */
  method ProcessEntries(disk: Disk, datasetDir: string, es: seq<Entry>, step: nat) returns (totalAdded: nat)
    requires step >= 1
    modifies disk
    ensures totalAdded == EntriesAdded(es, step)
    ensures disk.files == EntriesEffect(old(disk.files), datasetDir, es, step)
  {
    ghost var fs0 := disk.files;
    totalAdded := 0;
    var i := 0;
    while i < |es|
      invariant 0 <= i <= |es|
      invariant totalAdded == EntriesAdded(es[..i], step)
      invariant disk.files == EntriesEffect(fs0, datasetDir, es[..i], step)
    {
      var e := es[i];
      ghost var done := es[..i];
      assert es[..i + 1] == done + [e];
      EntriesSnoc(fs0, datasetDir, done, e, step);
      var added := ProcessEntry(disk, datasetDir, e, step);
      totalAdded := totalAdded + added;
      i := i + 1;
    }
    assert es[..i] == es;
  }
}
