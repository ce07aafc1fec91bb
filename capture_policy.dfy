/** The interactive capture scripts' timing rules: the wall-clock auto-capture
    timer, checked once per detected hand, and the "seconds left" counters they
    display, and the row an interactive capture writes. Clock readings, time
    stamps and key codes are inputs. */
module CapturePolicy {
  import opened Ledger

  /** `current_time - last_auto_time >= capture_interval` */
  predicate Due(last: real, interval: real, now: real) {
    now - last >= interval
  }

  /** The timer after the per-hand loop of one frame: the hands' clock readings
      are taken in detection order and the timer moves to a reading exactly when
      that reading is due. */
  function TimerAfter(last: real, interval: real, times: seq<real>): real {
    if times == [] then last
    else
      var before := TimerAfter(last, interval, times[..|times| - 1]);
      var now := times[|times| - 1];
      if Due(before, interval, now) then now else before
  }

  /** The positions, in detection order, of the hands that the loop auto-captures. */
  function Fired(last: real, interval: real, times: seq<real>): (r: seq<nat>)
    ensures forall k :: 0 <= k < |r| ==> r[k] < |times|
    ensures forall j, k :: 0 <= j < k < |r| ==> r[j] < r[k]
  {
    if times == [] then []
    else
      var init := times[..|times| - 1];
      Fired(last, interval, init)
        + (if Due(TimerAfter(last, interval, init), interval, times[|times| - 1]) then [|times| - 1] else [])
  }

  /** The timer rests at the clock reading of the last auto capture, and is
      untouched when nothing fired. */
  lemma {:induction false} TimerIsLastFire(last: real, interval: real, times: seq<real>)
    ensures var f := Fired(last, interval, times);
      TimerAfter(last, interval, times) == if f == [] then last else times[f[|f| - 1]]
  {
    if times != [] {
      var init := times[..|times| - 1];
      TimerIsLastFire(last, interval, init);
      var f := Fired(last, interval, init);
      if f != [] {
        assert times[f[|f| - 1]] == init[f[|f| - 1]];
      }
    }
  }

  /** Auto captures are spaced: the first comes at least `interval` after the
      timer's start, and each later one at least `interval` after the previous. */
  lemma {:induction false} FireSpacing(last: real, interval: real, times: seq<real>)
    ensures var f := Fired(last, interval, times);
      (f != [] ==> times[f[0]] - last >= interval)
      && forall k :: 0 <= k < |f| - 1 ==> times[f[k + 1]] - times[f[k]] >= interval
  {
    if times != [] {
      var init := times[..|times| - 1];
      var f0 := Fired(last, interval, init);
      var f := Fired(last, interval, times);
      FireSpacing(last, interval, init);
      TimerIsLastFire(last, interval, init);
      assert forall k :: 0 <= k < |f0| ==> times[f0[k]] == init[f0[k]];
      if |f| > |f0| {
        assert f == f0 + [|times| - 1];
      } else {
        assert f == f0;
      }
    }
  }

  /** While no reading is due against the timer's start, nothing fires and the
      timer stays where it was. */
  lemma {:induction false} NothingDueNothingFires(last: real, interval: real, times: seq<real>)
    requires forall k :: 0 <= k < |times| ==> !Due(last, interval, times[k])
    ensures Fired(last, interval, times) == []
    ensures TimerAfter(last, interval, times) == last
  {
    if times != [] {
      NothingDueNothingFires(last, interval, times[..|times| - 1]);
    }
  }

  /** Each hand is captured at most once: no more fires than readings. */
  lemma {:induction false} FiredAtMostOnce(last: real, interval: real, times: seq<real>)
    ensures |Fired(last, interval, times)| <= |times|
  {
    if times != [] {
      FiredAtMostOnce(last, interval, times[..|times| - 1]);
    }
  }

  /** A hand whose reading is already due (for example after a stretch of frames
      without hands, which never reset the timer) is captured at once: it is the
      first hand the loop saves. */
  lemma {:induction false} OverdueFiresFirst(last: real, interval: real, times: seq<real>)
    requires times != [] && Due(last, interval, times[0])
    ensures var f := Fired(last, interval, times); f != [] && f[0] == 0
  {
    if |times| > 1 {
      var init := times[..|times| - 1];
      assert init[0] == times[0];
      OverdueFiresFirst(last, interval, init);
    } else {
      assert times[..0] == [];
    }
  }

  /** With one hand in the frame: it is captured iff its reading is due, and the
      timer moves to that reading iff it is captured. */
  lemma OneHand(last: real, interval: real, now: real)
    ensures Fired(last, interval, [now]) == if Due(last, interval, now) then [0] else []
    ensures TimerAfter(last, interval, [now]) == if Due(last, interval, now) then now else last
  {
    assert [now][..0] == [];
  }

  // ---------------------------------------------------------------------------
  // Countdowns
  // ---------------------------------------------------------------------------

  /** Python's `int(x)` on a float: truncation toward zero. */
  function Trunc(x: real): int {
    if x >= 0.0 then x.Floor else -((-x).Floor)
  }

  /** Truncation moves toward zero by less than one. */
  lemma TruncBounds(x: real)
    ensures var r := Trunc(x);
      && (0.0 <= x ==> r as real <= x < r as real + 1.0)
      && (x < 0.0 ==> r as real - 1.0 < x <= r as real)
  {
  }

  /** `max(0, limit - int(elapsed))`: whole seconds left on a countdown of `limit`
      seconds, never negative. */
  function ClampedCountdown(limit: int, elapsed: real): nat {
    var v := limit - Trunc(elapsed);
    if v < 0 then 0 else v
  }

  /** Once time has started, the countdown shows 0 exactly when the limit is
      reached, and otherwise the time left rounded up to a whole second. */
  lemma ClampedCountdownBounds(limit: int, elapsed: real)
    requires 0.0 <= elapsed
    ensures var r := ClampedCountdown(limit, elapsed);
      && (r == 0 <==> elapsed >= limit as real)
      && (r > 0 ==> limit as real - elapsed <= r as real < limit as real - elapsed + 1.0)
  {
    TruncBounds(elapsed);
  }

  /** `int(max(0, interval - elapsed))`: clamped first, then truncated. */
  function ClampedThenTruncated(interval: real, elapsed: real): nat {
    var v := if interval - elapsed > 0.0 then interval - elapsed else 0.0;
    Trunc(v)
  }

  /** The countdown shows 0 exactly when less than a second is left, and
      otherwise the time left rounded down to a whole second. */
  lemma ClampedThenTruncatedBounds(interval: real, elapsed: real)
    ensures var r := ClampedThenTruncated(interval, elapsed);
      && (r == 0 <==> interval - elapsed < 1.0)
      && (r > 0 ==> r as real <= interval - elapsed < r as real + 1.0)
  {
    TruncBounds(if interval - elapsed > 0.0 then interval - elapsed else 0.0);
  }

  /** The timer and the fired positions after one more hand of the frame. */
  lemma FiredNext(last: real, interval: real, times: seq<real>, k: nat)
    requires k < |times|
    ensures var before := TimerAfter(last, interval, times[..k]);
      && Fired(last, interval, times[..k + 1])
         == Fired(last, interval, times[..k]) + (if Due(before, interval, times[k]) then [k] else [])
      && TimerAfter(last, interval, times[..k + 1])
         == if Due(before, interval, times[k]) then times[k] else before
  {
    assert times[..k + 1][..k] == times[..k];
  }

  // ---------------------------------------------------------------------------
  // Rows of the interactive scripts
  // ---------------------------------------------------------------------------

  /** One detected hand during the per-hand loop: its landmarks, the clock
      reading `current_time` taken for it, and the `time.strftime` text its row
      would carry. */
  datatype Sighting = Sighting(hand: Hand, now: real, stamp: string)

  /** The clock readings of the hands, in detection order. */
  function Times(ss: seq<Sighting>): (r: seq<real>)
    ensures |r| == |ss|
    ensures forall i :: 0 <= i < |ss| ==> r[i] == ss[i].now
  {
    seq(|ss|, i requires 0 <= i < |ss| => ss[i].now)
  }

  /** `[stamp, capture_type] + [lm.x, lm.y, lm.z for each landmark]`, the
      coordinates written as `csv.writer` writes floats. */
  function CaptureRow(stamp: string, captureType: string, hand: Hand): (r: Row)
    ensures |r| == 65
    ensures r[0] == Text(stamp) && r[1] == Text(captureType)
    ensures forall i, a :: 0 <= i < LandmarkCount && 0 <= a < 3 ==> r[2 + 3 * i + a] == Num(Axis(hand[i], a), Repr)
  {
    var r := [Text(stamp), Text(captureType)] + NumCells(Coords(hand), Repr);
    assert forall i, a :: 0 <= i < LandmarkCount && 0 <= a < 3 ==> r[2 + 3 * i + a] == Num(Axis(hand[i], a), Repr) by {
      forall i, a | 0 <= i < LandmarkCount && 0 <= a < 3
        ensures r[2 + 3 * i + a] == Num(Axis(hand[i], a), Repr)
      {
        CoordsAt(hand, i, a);
      }
    }
    r
  }

  /** The "auto" rows of the hands at positions `idx`, in that order. */
  function AutoRows(ss: seq<Sighting>, idx: seq<nat>): (r: seq<Row>)
    requires forall j :: 0 <= j < |idx| ==> idx[j] < |ss|
    ensures |r| == |idx|
    ensures forall j :: 0 <= j < |idx| ==> r[j] == CaptureRow(ss[idx[j]].stamp, "auto", ss[idx[j]].hand)
  {
    seq(|idx|, j requires 0 <= j < |idx| => CaptureRow(ss[idx[j]].stamp, "auto", ss[idx[j]].hand))
  }

  /** The ledger after the per-hand loop has looked at the first `k` hands of a
      frame: one "auto" row per fired hand, appended one at a time. */
  function AutoFiles(fs: FileSystem, path: Path, last: real, interval: real, ss: seq<Sighting>, k: nat): FileSystem
    requires k <= |ss|
  {
    AppendedEach(fs, path, AutoRows(ss, Fired(last, interval, Times(ss)[..k])))
  }

  /** Looking at hand `k` appends its row exactly when its reading is due. */
  lemma AutoFilesNext(fs: FileSystem, path: Path, last: real, interval: real, ss: seq<Sighting>, k: nat)
    requires k < |ss|
    ensures var times := Times(ss);
      var before := TimerAfter(last, interval, times[..k]);
      AutoFiles(fs, path, last, interval, ss, k + 1)
        == if Due(before, interval, ss[k].now)
           then AppendedEach(AutoFiles(fs, path, last, interval, ss, k), path, [CaptureRow(ss[k].stamp, "auto", ss[k].hand)])
           else AutoFiles(fs, path, last, interval, ss, k)
  {
    var times := Times(ss);
    var f := Fired(last, interval, times[..k]);
    FiredNext(last, interval, times, k);
    assert times[k] == ss[k].now;
    if Due(TimerAfter(last, interval, times[..k]), interval, ss[k].now) {
      assert Fired(last, interval, times[..k + 1]) == f + [k];
      assert AutoRows(ss, f + [k]) == AutoRows(ss, f) + [CaptureRow(ss[k].stamp, "auto", ss[k].hand)];
      AppendedEachConcat(fs, path, AutoRows(ss, f), [CaptureRow(ss[k].stamp, "auto", ss[k].hand)]);
    } else {
      assert Fired(last, interval, times[..k + 1]) == f;
    }
  }

  /** `cv2.waitKey(1) & 0xFF`: the low byte of the key code (no key, -1, gives 255). */
  function KeyCode(raw: int): (k: int)
    ensures 0 <= k < 256
    ensures 0 <= raw < 256 ==> k == raw
    ensures (raw - k) % 256 == 0
  {
    raw % 256
  }
}
