/** The first capture script (scr/capturas_landmarks.py): the gesture name is
    read as typed, `dataset_landmarks/<name>.csv` is truncated and given a
    63-column header, and while the camera is open every detected hand of
    every frame becomes one row of bare coordinates, until a read fails or 'q'
    is pressed. Camera frames, the estimator and the keyboard are inputs. */
module Capturas {
  import opened Ledger
  import opened CapturePolicy

  const DataDir: string := "dataset_landmarks"
  /** The estimator is asked for at most this many hands per frame. */
  const MaxNumHands: nat := 1
  const KeyQ: int := 113

  /** `os.path.join(DATA_DIR, f"{gesture_name}.csv")`, the name unstripped. */
  function CsvPath(gestureName: string): Path {
    DataDir + "/" + gestureName + ".csv"
  }

  /** `x0, y0, z0, ..., x20, y20, z20`: no time or capture-type columns. */
  function Header(): Row {
    TextRow(CoordColumns(Short, LandmarkCount))
  }

  /** The header has 63 names: `x<i>, y<i>, z<i>` for each landmark `i` in order. */
  lemma HeaderLayout()
    ensures |Header()| == 63
    ensures forall i, a :: 0 <= i < LandmarkCount && 0 <= a < 3 ==> Header()[3 * i + a] == Text(ColumnName(Short, i, a))
  {
    forall i, a | 0 <= i < LandmarkCount && 0 <= a < 3
      ensures Header()[3 * i + a] == Text(ColumnName(Short, i, a))
    {
      CoordColumnsAt(Short, LandmarkCount, i, a);
    }
  }

  /** One frame read: whether `cap.read()` succeeded, the hands detected, and
      the raw `cv2.waitKey` code. */
  datatype Tick = Tick(read: bool, hands: seq<Hand>, key: int)

  /** The row of one hand: its 63 coordinates as `csv.writer` writes floats. */
  function HandRow(hand: Hand): (r: Row)
    ensures |r| == 63
    ensures forall i, a :: 0 <= i < LandmarkCount && 0 <= a < 3 ==> r[3 * i + a] == Num(Axis(hand[i], a), Repr)
  {
    var r := NumCells(Coords(hand), Repr);
    assert forall i, a :: 0 <= i < LandmarkCount && 0 <= a < 3 ==> r[3 * i + a] == Num(Axis(hand[i], a), Repr) by {
      forall i, a | 0 <= i < LandmarkCount && 0 <= a < 3
        ensures r[3 * i + a] == Num(Axis(hand[i], a), Repr)
      {
        CoordsAt(hand, i, a);
      }
    }
    r
  }

  /** The rows of one frame: one per detected hand, in detection order. */
  function HandRows(hands: seq<Hand>): (r: seq<Row>)
    ensures |r| == |hands|
    ensures forall i :: 0 <= i < |hands| ==> r[i] == HandRow(hands[i])
  {
    seq(|hands|, i requires 0 <= i < |hands| => HandRow(hands[i]))
  }

  predicate QuitKey(key: int) {
    KeyCode(key) == KeyQ
  }

  /** The rows written while the camera stays open: every hand of every frame
      up to the first failed read, including the frame on which 'q' is pressed. */
  function Recorded(ticks: seq<Tick>): seq<Row>
    decreases |ticks|
  {
    if ticks == [] || !ticks[0].read then []
    else HandRows(ticks[0].hands) + (if QuitKey(ticks[0].key) then [] else Recorded(ticks[1..]))
  }

  /** The script: the file is truncated to the header whatever it held; rows
      follow only when the camera opened. */
  function Session(fs: FileSystem, gestureName: string, cameraOpens: bool, ticks: seq<Tick>): FileSystem {
    Written(fs, CsvPath(gestureName), [Header()] + (if cameraOpens then Recorded(ticks) else []))
  }

  /** With at most one hand per frame there are at most as many rows as frames. */
  lemma {:induction false} RecordedBound(ticks: seq<Tick>)
    requires forall k :: 0 <= k < |ticks| ==> |ticks[k].hands| <= MaxNumHands
    ensures |Recorded(ticks)| <= |ticks|
    decreases |ticks|
  {
    if ticks != [] && ticks[0].read && !QuitKey(ticks[0].key) {
      RecordedBound(ticks[1..]);
    }
  }

  /** Every recorded line is a full hand: 63 coordinate fields. */
  lemma {:induction false} RecordedRowsAreHands(ticks: seq<Tick>)
    ensures forall r :: r in Recorded(ticks) ==> |r| == 63
    decreases |ticks|
  {
    if ticks != [] && ticks[0].read && !QuitKey(ticks[0].key) {
      RecordedRowsAreHands(ticks[1..]);
    }
  }

  /** Running the script again for the same name discards the earlier session. */
  lemma SecondSessionErasesFirst(fs: FileSystem, gestureName: string, o1: bool, t1: seq<Tick>, o2: bool, t2: seq<Tick>)
    ensures Session(Session(fs, gestureName, o1, t1), gestureName, o2, t2)[CsvPath(gestureName)]
         == Session(fs, gestureName, o2, t2)[CsvPath(gestureName)]
  {
  }

  /** `for hand_landmarks in results.multi_hand_landmarks: csv_writer.writerow(row)` */
  method WriteHands(disk: Disk, path: Path, hands: seq<Hand>)
    modifies disk
    ensures disk.files == AppendedEach(old(disk.files), path, HandRows(hands))
  {
    ghost var fs0 := disk.files;
    var j := 0;
    while j < |hands|
      invariant 0 <= j <= |hands|
      invariant disk.files == AppendedEach(fs0, path, HandRows(hands[..j]))
    {
      var row := AppendCoords([], hands[j], Repr);
      assert HandRows(hands[..j + 1]) == HandRows(hands[..j]) + [row];
      AppendedEachConcat(fs0, path, HandRows(hands[..j]), [row]);
      disk.Append(path, [row]);
      j := j + 1;
    }
    assert hands[..j] == hands;
  }

  /** The loop on the file itself: each frame read appends its hands' rows. */
  function RecordRun(fs: FileSystem, path: Path, ticks: seq<Tick>): FileSystem
    decreases |ticks|
  {
    if ticks == [] || !ticks[0].read then fs
    else
      var fs1 := AppendedEach(fs, path, HandRows(ticks[0].hands));
      if QuitKey(ticks[0].key) then fs1 else RecordRun(fs1, path, ticks[1..])
  }

  /** Appending frame by frame adds exactly the recorded rows, in order. */
  lemma {:induction false} RecordRunAppends(fs: FileSystem, path: Path, ticks: seq<Tick>)
    ensures RecordRun(fs, path, ticks) == AppendedEach(fs, path, Recorded(ticks))
    decreases |ticks|
  {
    if ticks != [] && ticks[0].read {
      var rows := HandRows(ticks[0].hands);
      if QuitKey(ticks[0].key) {
        assert Recorded(ticks) == rows + [];
        assert rows + [] == rows;
      } else {
        var fs1 := AppendedEach(fs, path, rows);
        RecordRunAppends(fs1, path, ticks[1..]);
        AppendedEachConcat(fs, path, rows, Recorded(ticks[1..]));
      }
    }
  }

  /** `while cap.isOpened():` over the frames read. */
  method RecordLoop(disk: Disk, path: Path, ticks: seq<Tick>)
    modifies disk
    ensures disk.files == AppendedEach(old(disk.files), path, Recorded(ticks))
  {
    ghost var fs0 := disk.files;
    var i := 0;
    while i < |ticks|
      invariant 0 <= i <= |ticks|
      invariant RecordRun(fs0, path, ticks) == RecordRun(disk.files, path, ticks[i..])
    {
      var t := ticks[i];
      if !t.read {
        break;
      }
      assert ticks[i..][1..] == ticks[i + 1..];
      WriteHands(disk, path, t.hands);
      if QuitKey(t.key) {
        break;
      }
      i := i + 1;
    }
    RecordRunAppends(fs0, path, ticks);
  }

  /** The script from the prompt to the end of the loop. */
  method Capture(disk: Disk, gestureName: string, cameraOpens: bool, ticks: seq<Tick>)
    modifies disk
    ensures disk.files == Session(old(disk.files), gestureName, cameraOpens, ticks)
  {
    ghost var fs0 := disk.files;
    var csvPath := CsvPath(gestureName);
    var headers := BuildHeader([], Short);
    assert headers == CoordColumns(Short, LandmarkCount);
    disk.Write(csvPath, [TextRow(headers)]);
    if !cameraOpens {
      assert [Header()] + [] == [Header()];
      return;
    }
    RecordLoop(disk, csvPath, ticks);
    if Recorded(ticks) == [] {
      assert [Header()] + Recorded(ticks) == [Header()];
    }
  }
}
