/** The clip-cutting script (scr/videos_descargados_landmarks.py): each source
    video's table pairs the letters A to Z with one cut each; for every entry
    the letter's output folder is listed, the next free `clip_<N>.mp4` number
    is found, and the cuts are written under consecutive numbers. The listing
    of a folder is an input; the video decoding and encoding are not modelled. */
module ClipTrimming {
  import opened Text

  // ---------------------------------------------------------------------------
  // convertir_a_segundos
  // ---------------------------------------------------------------------------

  /** The values a time may be given as: a Python `int` (or `bool`), a `float`, a `str`. */
  datatype Value = IntV(i: int) | FloatV(x: real) | StrV(s: string)

  /** Seconds, whole or fractional. */
  datatype Seconds = Whole(n: int) | Fractional(x: real)

  /** `convertir_a_segundos(t)`: numbers pass through, `"M:S"` is `M * 60 + S`,
      any other string is read by `int()`. `None` stands for the `ValueError`
      raised by a string with more than one `:` or with a field `int()` refuses. */
  function ToSeconds(t: Value): (r: Option<Seconds>)
    ensures t.IntV? ==> r == Some(Whole(t.i))
    ensures t.FloatV? ==> r == Some(Fractional(t.x))
    ensures t.StrV? && ':' in t.s && |Split(t.s, ':')| != 2 ==> r.None?
    ensures t.StrV? && ':' !in t.s ==> (r.Some? <==> ParseInt(t.s).Some?)
    ensures t.StrV? && ':' !in t.s && r.Some? ==> r.value == Whole(ParseInt(t.s).value)
  {
    match t
    case IntV(i) => Some(Whole(i))
    case FloatV(x) => Some(Fractional(x))
    case StrV(s) => if ':' in s then MinutesSeconds(Split(s, ':')) else AsWhole(ParseInt(s))
  }

  /** `minutos, segundos = t.split(":")` then `int(minutos) * 60 + int(segundos)`. */
  function MinutesSeconds(parts: seq<string>): Option<Seconds> {
    if |parts| != 2 then None
    else Combine(ParseInt(parts[0]), ParseInt(parts[1]))
  }

  function Combine(m: Option<int>, sec: Option<int>): Option<Seconds> {
    if m.Some? && sec.Some? then Some(Whole(m.value * 60 + sec.value)) else None
  }

  function AsWhole(n: Option<int>): Option<Seconds> {
    if n.Some? then Some(Whole(n.value)) else None
  }

  /** A string with one `:` is converted from its two fields. */
  lemma ToSecondsOfParts(s: string, x: string, y: string, m: int, sec: int)
    requires ':' in s && Split(s, ':') == [x, y]
    requires ParseInt(x) == Some(m) && ParseInt(y) == Some(sec)
    ensures ToSeconds(StrV(s)) == Some(Whole(m * 60 + sec))
  {
    assert MinutesSeconds(Split(s, ':')) == Combine(Some(m), Some(sec));
  }

  /** A plain integer written out is read back by `int(t)`. */
  lemma ToSecondsOfInt(n: int)
    ensures ToSeconds(StrV(IntToString(n))) == Some(Whole(n))
  {
    var s := IntToString(n);
    assert ':' !in s;
    ParseIntOfIntToString(n);
  }

  /** A decimal fraction written as text is refused: `int("1.5")` raises. */
  lemma FractionTextRejected()
    ensures ToSeconds(StrV("1.5")).None?
  {
    var s := "1.5";
    assert ':' !in s;
    assert TrimLeft(s) == s;
    assert TrimRight(s) == s;
    assert !WellFormedDigits(s) by {
      assert !IsDigit(s[1]) && s[1] != '_';
    }
  }

  /** Writing minutes and seconds as `"M:S"` and converting gives back `M * 60 + S`. */
  lemma MinutesSecondsRoundTrip(m: int, sec: int)
    ensures ToSeconds(StrV(IntToString(m) + ":" + IntToString(sec))) == Some(Whole(m * 60 + sec))
  {
    var a, b := IntToString(m), IntToString(sec);
    var s := a + ":" + b;
    assert s == a + [':'] + b;
    assert s[|a|] == ':';
    SplitTwo(a, b, ':');
    ParseIntOfIntToString(m);
    ParseIntOfIntToString(sec);
    ToSecondsOfParts(s, a, b, m, sec);
  }

  /** A time with two `:` (hours, minutes, seconds) is refused: the unpacking
      into minutes and seconds raises. */
  lemma HoursRejected(h: string, m: string, sec: string)
    requires ':' !in h && ':' !in m && ':' !in sec
    ensures ToSeconds(StrV(h + ":" + m + ":" + sec)).None?
  {
    var s := h + ":" + m + ":" + sec;
    assert s == h + [':'] + (m + [':'] + sec);
    SplitHead(h, m + [':'] + sec, ':');
    SplitHead(m, sec, ':');
    assert s[|h|] == ':';
  }

  // ---------------------------------------------------------------------------
  // siguiente_indice_clip
  // ---------------------------------------------------------------------------

  /** `f.startswith("clip_") and f.endswith(".mp4")` */
  predicate IsClipName(f: string) {
    StartsWith(f, "clip_") && EndsWith(f, ".mp4")
  }

  /** `int(f.replace("clip_", "").replace(".mp4", ""))`, `None` when it raises. */
  function ClipNumber(f: string): Option<int> {
    ParseInt(Replace(Replace(f, "clip_", ""), ".mp4", ""))
  }

  /** The clip files of a listing, in listing order. */
  function Existing(listing: seq<string>): (r: seq<string>)
    ensures forall f :: f in r ==> IsClipName(f) && f in listing
    ensures forall f :: f in listing && IsClipName(f) ==> f in r
    decreases |listing|
  {
    if listing == [] then []
    else
      var init := listing[..|listing| - 1];
      var f := listing[|listing| - 1];
      Existing(init) + (if IsClipName(f) then [f] else [])
  }

  /** `int(...)` tried on each name, in order. */
  function Parsed(names: seq<string>): seq<Option<int>> {
    seq(|names|, k requires 0 <= k < |names| => ClipNumber(names[k]))
  }

  /** The values that are present, in order: the `try`/`except: pass` keeps
      the numbers that parse and skips the rest. */
  function Somes(xs: seq<Option<int>>): seq<int>
    decreases |xs|
  {
    if xs == [] then []
    else
      var last := xs[|xs| - 1];
      Somes(xs[..|xs| - 1]) + (if last.Some? then [last.value] else [])
  }

  /** A number is kept exactly when it is present. */
  lemma {:induction false} SomesMembership(xs: seq<Option<int>>, n: int)
    ensures n in Somes(xs) <==> Some(n) in xs
    decreases |xs|
  {
    if xs != [] {
      var init := xs[..|xs| - 1];
      SomesMembership(init, n);
      assert xs == init + [xs[|xs| - 1]];
    }
  }

  lemma SomesSnoc(xs: seq<Option<int>>, i: int)
    requires 0 <= i < |xs|
    ensures Somes(xs[..i + 1]) == Somes(xs[..i]) + (if xs[i].Some? then [xs[i].value] else [])
  {
    assert xs[..i + 1][..i] == xs[..i];
  }

  /** `numeros`: the numbers of the clip names that parse. */
  function Numbers(names: seq<string>): seq<int> {
    Somes(Parsed(names))
  }

  /** A name whose number parses contributes it to `numeros`. */
  lemma NumberOfName(names: seq<string>, k: int)
    requires 0 <= k < |names| && ClipNumber(names[k]).Some?
    ensures ClipNumber(names[k]).value in Numbers(names)
  {
    var ps := Parsed(names);
    SomesMembership(ps, ClipNumber(names[k]).value);
    assert ps[k] == ClipNumber(names[k]);
  }

  /** Every number in `numeros` comes from some name. */
  lemma NumberSource(names: seq<string>, n: int)
    requires n in Numbers(names)
    ensures exists k :: 0 <= k < |names| && ClipNumber(names[k]) == Some(n)
  {
    var ps := Parsed(names);
    SomesMembership(ps, n);
    var k :| 0 <= k < |ps| && ps[k] == Some(n);
    assert ClipNumber(names[k]) == Some(n);
  }

  /** `max(xs)` */
  function MaxOf(xs: seq<int>): (m: int)
    requires xs != []
    ensures m in xs && forall x :: x in xs ==> x <= m
    decreases |xs|
  {
    if |xs| == 1 then xs[0]
    else
      var init := xs[..|xs| - 1];
      var m0 := MaxOf(init);
      assert forall x :: x in xs ==> x in init || x == xs[|xs| - 1];
      if xs[|xs| - 1] > m0 then xs[|xs| - 1] else m0
  }

  /** The number `siguiente_indice_clip` returns for a folder listing: 1 when no
      clip file is there, otherwise one more than the largest number that
      parses. `None` stands for the `ValueError` of `max([])`, raised when there
      are clip files but none of their numbers parses. */
  function NextClipIndex(listing: seq<string>): Option<int> {
    var existentes := Existing(listing);
    if existentes == [] then Some(1)
    else
      var numeros := Numbers(existentes);
      if numeros == [] then None else Some(MaxOf(numeros) + 1)
  }

  /** The next number is 1 for a folder without clip files; otherwise it is
      found exactly when some clip number parses, and then it is one more than
      a number there and larger than all of them. */
  lemma NextClipIndexBounds(listing: seq<string>)
    ensures var r := NextClipIndex(listing);
      var ns := Numbers(Existing(listing));
      && (Existing(listing) == [] ==> r == Some(1))
      && (Existing(listing) != [] ==> (r.None? <==> ns == []))
      && (r.Some? ==> forall n :: n in ns ==> n < r.value)
      && (r.Some? && ns != [] ==> r.value - 1 in ns)
  {
  }

  /** The number returned is larger than the number of every clip file already
      in the folder, so it names no existing clip. */
  lemma NextClipIndexFresh(listing: seq<string>, f: string)
    requires NextClipIndex(listing).Some?
    requires f in listing && IsClipName(f) && ClipNumber(f).Some?
    ensures ClipNumber(f).value < NextClipIndex(listing).value
  {
    var ex := Existing(listing);
    var k :| 0 <= k < |ex| && ex[k] == f;
    NumberOfName(ex, k);
    NextClipIndexBounds(listing);
  }

  /** The `for f in existentes` loop of `siguiente_indice_clip`. */
  method CollectNumbers(existentes: seq<string>) returns (numeros: seq<int>)
    ensures numeros == Numbers(existentes)
  {
    ghost var parsed := Parsed(existentes);
    numeros := [];
    var i := 0;
    while i < |existentes|
      invariant 0 <= i <= |existentes|
      invariant numeros == Somes(parsed[..i])
    {
      var f := existentes[i];
      var n := ClipNumber(f);
      SomesSnoc(parsed, i);
      assert parsed[i] == n;
      if n.Some? {
        numeros := numeros + [n.value];
      }
      i := i + 1;
    }
    assert parsed[..i] == parsed;
  }

  /** `siguiente_indice_clip(folder)` over the folder's listing. */
  method SiguienteIndiceClip(listing: seq<string>) returns (r: Option<int>)
    ensures r == NextClipIndex(listing)
  {
    var existentes := Existing(listing);
    if existentes == [] {
      return Some(1);
    }
    var numeros := CollectNumbers(existentes);
    if numeros == [] {
      return None;
    }
    r := Some(MaxOf(numeros) + 1);
  }

  // ---------------------------------------------------------------------------
  // recortar_video
  // ---------------------------------------------------------------------------

  /** `f"clip_{indice_clip}.mp4"` */
  function ClipName(i: int): string {
    "clip_" + IntToString(i) + ".mp4"
  }

  /** A clip name is a clip file and reads back as its own number. */
  lemma ClipNameParses(i: int)
    ensures IsClipName(ClipName(i))
    ensures ClipNumber(ClipName(i)) == Some(i)
  {
    var d := IntToString(i);
    var f := ClipName(i);
    assert f == "clip_" + (d + ".mp4");
    assert f[..5] == "clip_";
    assert f[|f| - 4..] == ".mp4";
    assert f[5..] == d + ".mp4";
    assert forall k :: 0 <= k < |d + ".mp4"| ==> (d + ".mp4")[k] != 'c';
    ReplaceAbsent(d + ".mp4", "clip_", "");
    assert Replace(f, "clip_", "") == d + ".mp4";
    ReplaceAtEnd(d, ".mp4", "");
    assert d + "" == d;
    ParseIntOfIntToString(i);
  }

  /** Different numbers give different names. */
  lemma ClipNameInjective(i: int, j: int)
    requires i != j
    ensures ClipName(i) != ClipName(j)
  {
    ClipNameParses(i);
    ClipNameParses(j);
  }

  /** The names of `n` cuts numbered from `start` on. */
  function ClipNames(start: int, n: nat): (r: seq<string>)
    ensures |r| == n && forall k :: 0 <= k < n ==> r[k] == ClipName(start + k)
  {
    seq(n, k requires 0 <= k < n => ClipName(start + k))
  }

  /** One cut of a source video, in seconds. */
  datatype Cut = Cut(start: int, end: int)

  /** A clip to write: its name in the folder and the cut it holds. */
  datatype Clip = Clip(name: string, cut: Cut)

  /** The clips `recortar_video` writes into a folder with the given listing:
      the cuts in order under consecutive numbers from `siguiente_indice_clip`. */
  function Clips(listing: seq<string>, cuts: seq<Cut>): (r: Option<seq<Clip>>)
    ensures r.None? <==> NextClipIndex(listing).None?
    ensures r.Some? ==> r.value == Numbered(NextClipIndex(listing).value, cuts)
  {
    match NextClipIndex(listing)
    case None => None
    case Some(first) => Some(Numbered(first, cuts))
  }

  /** A name numbered from the next index on is not in the folder yet. */
  lemma ClipNameFresh(listing: seq<string>, first: int, i: int)
    requires NextClipIndex(listing) == Some(first) && first <= i
    ensures ClipName(i) !in listing
  {
    ClipNameParses(i);
    if ClipName(i) in listing {
      NextClipIndexFresh(listing, ClipName(i));
    }
  }

  /** The `k`-th clip numbered from `first` is named for `first + k`. */
  lemma NumberedName(first: int, cuts: seq<Cut>, k: int)
    requires 0 <= k < |cuts|
    ensures Numbered(first, cuts)[k].name == ClipName(first + k)
  {
    var cs := Numbered(first, cuts);
    assert Names(cs)[k] == ClipNames(first, |cuts|)[k];
  }

  /** The new clips never reuse a name already in the folder, nor each other's. */
  lemma ClipsFresh(listing: seq<string>, first: int, cuts: seq<Cut>)
    requires NextClipIndex(listing) == Some(first)
    ensures var cs := Numbered(first, cuts);
      (forall k :: 0 <= k < |cs| ==> cs[k].name !in listing)
      && (forall j, k :: 0 <= j < k < |cs| ==> cs[j].name != cs[k].name)
  {
    var cs := Numbered(first, cuts);
    forall k | 0 <= k < |cs|
      ensures cs[k].name !in listing
    {
      NumberedName(first, cuts, k);
      ClipNameFresh(listing, first, first + k);
    }
    ClipsDistinct(first, cuts);
  }

  /** Clips numbered one after another all have different names. */
  lemma ClipsDistinct(first: int, cuts: seq<Cut>)
    ensures var cs := Numbered(first, cuts);
      forall j, k :: 0 <= j < k < |cs| ==> cs[j].name != cs[k].name
  {
    var cs := Numbered(first, cuts);
    forall j, k | 0 <= j < k < |cs|
      ensures cs[j].name != cs[k].name
    {
      NumberedName(first, cuts, j);
      NumberedName(first, cuts, k);
      ClipNameInjective(first + j, first + k);
    }
  }

  /** The names of clips. */
  function Names(cs: seq<Clip>): (r: seq<string>)
    ensures |r| == |cs| && forall k :: 0 <= k < |cs| ==> r[k] == cs[k].name
  {
    seq(|cs|, k requires 0 <= k < |cs| => cs[k].name)
  }

  /** Every number among the clip files after the cuts is either an old one,
      below `first`, or one of the new ones. */
  lemma NumbersAfterCuts(listing: seq<string>, first: int, n: nat, x: int)
    requires NextClipIndex(listing) == Some(first)
    requires x in Numbers(Existing(listing + ClipNames(first, n)))
    ensures x < first + n
  {
    var names := ClipNames(first, n);
    var ex := Existing(listing + names);
    NumberSource(ex, x);
    var k :| 0 <= k < |ex| && ClipNumber(ex[k]) == Some(x);
    var f := ex[k];
    assert f in listing + names;
    if f in listing {
      NextClipIndexFresh(listing, f);
    } else {
      NewNameNumbered(first, n, f);
    }
  }

  /** A new clip name carries one of the new numbers. */
  lemma NewNameNumbered(first: int, n: nat, f: string)
    requires f in ClipNames(first, n)
    ensures ClipNumber(f).Some? && first <= ClipNumber(f).value < first + n
  {
    var j :| 0 <= j < n && ClipNames(first, n)[j] == f;
    ClipNameParses(first + j);
  }

  /** The last new clip's number is among the clip numbers after the cuts. */
  lemma LastCutNumbered(listing: seq<string>, first: int, n: nat)
    requires n > 0
    ensures first + n - 1 in Numbers(Existing(listing + ClipNames(first, n)))
  {
    var names := ClipNames(first, n);
    var f := names[n - 1];
    ClipNameParses(first + n - 1);
    assert f in listing + names;
    var ex := Existing(listing + names);
    assert f in ex;
    var k :| 0 <= k < |ex| && ex[k] == f;
    NumberOfName(ex, k);
  }

  /** Once `n` clips are written from `first` on, the next run continues where
      this one ended: the folder's next number is `first + n`. */
  lemma CutsContinue(listing: seq<string>, first: int, n: nat)
    requires NextClipIndex(listing) == Some(first) && n > 0
    ensures NextClipIndex(listing + ClipNames(first, n)) == Some(first + n)
  {
    var after := listing + ClipNames(first, n);
    var top := first + n - 1;
    assert top in Numbers(Existing(after)) by {
      LastCutNumbered(listing, first, n);
    }
    assert forall x :: x in Numbers(Existing(after)) ==> x <= top by {
      forall x | x in Numbers(Existing(after))
        ensures x <= top
      {
        NumbersAfterCuts(listing, first, n, x);
      }
    }
    NextClipIndexOfMax(after, top);
  }

  /** When `top` is the largest clip number of a listing, the next number is
      `top + 1`. */
  lemma NextClipIndexOfMax(listing: seq<string>, top: int)
    requires top in Numbers(Existing(listing))
    requires forall x :: x in Numbers(Existing(listing)) ==> x <= top
    ensures NextClipIndex(listing) == Some(top + 1)
  {
    var ex := Existing(listing);
    var ns := Numbers(ex);
    assert Parsed([]) == [];
    MaxOfIs(ns, top);
  }

  /** The largest element is what `max` returns. */
  lemma MaxOfIs(xs: seq<int>, top: int)
    requires top in xs && forall x :: x in xs ==> x <= top
    ensures MaxOf(xs) == top
  {
  }

  /** The listings after `os.makedirs(folder, exist_ok=True)`: a missing
      folder is created empty, an existing one is left as it is. */
  function Made(listings: map<string, seq<string>>, folder: string): (r: map<string, seq<string>>)
    ensures folder in r
    ensures folder in listings ==> r == listings
    ensures folder !in listings ==> r == listings[folder := []]
  {
    if folder in listings then listings else listings[folder := []]
  }

  /** The listings after writing the clips into an existing `folder`. */
  function Stored(listings: map<string, seq<string>>, folder: string, cs: seq<Clip>): map<string, seq<string>>
    requires folder in listings
  {
    listings[folder := listings[folder] + Names(cs)]
  }

  /** The folders the script writes into: each one's listing. */
  class Library {
    var listings: map<string, seq<string>>

    constructor (initial: map<string, seq<string>>)
      ensures listings == initial
    {
      listings := initial;
    }

    /** `os.makedirs(folder, exist_ok=True)` */
    method MakeDirs(folder: string)
      modifies this
      ensures listings == Made(old(listings), folder)
    {
      if folder !in listings {
        listings := listings[folder := []];
      }
    }

    /** `clip.write_videofile(output_path)`: the folder gains the file. */
    method AddFile(folder: string, name: string)
      requires folder in listings
      modifies this
      ensures listings == old(listings)[folder := old(listings[folder]) + [name]]
    {
      listings := listings[folder := listings[folder] + [name]];
    }
  }

  /** The clips of `cuts` numbered from `first` on. */
  function Numbered(first: int, cuts: seq<Cut>): (r: seq<Clip>)
    ensures |r| == |cuts| && Names(r) == ClipNames(first, |cuts|)
    ensures forall k :: 0 <= k < |r| ==> r[k].cut == cuts[k]
  {
    seq(|cuts|, k requires 0 <= k < |cuts| => Clip(ClipName(first + k), cuts[k]))
  }

  /** The loop of `recortar_video`: `indice_clip` counts up from `first`, one
      file per cut. */
  method WriteClips(lib: Library, folder: string, first: int, cuts: seq<Cut>) returns (written: seq<Clip>)
    requires folder in lib.listings
    modifies lib
    ensures written == Numbered(first, cuts)
    ensures lib.listings == Stored(old(lib.listings), folder, written)
  {
    ghost var listing := lib.listings[folder];
    var indiceClip := first;
    written := [];
    var k := 0;
    assert listing + Names(written) == listing;
    while k < |cuts|
      invariant 0 <= k <= |cuts|
      invariant indiceClip == first + k
      invariant written == Numbered(first, cuts[..k])
      invariant lib.listings == old(lib.listings)[folder := listing + Names(written)]
    {
      var name := ClipName(indiceClip);
      indiceClip := indiceClip + 1;
      lib.AddFile(folder, name);
      assert Names(written + [Clip(name, cuts[k])]) == Names(written) + [name];
      assert listing + Names(written) + [name] == listing + (Names(written) + [name]);
      written := written + [Clip(name, cuts[k])];
      k := k + 1;
    }
    assert cuts[..k] == cuts;
  }

  /** `recortar_video(input_path, output_folder, cuts)` on a folder that
      exists: `None` when the video does not open (`opens` is false) or
      `siguiente_indice_clip` raises, and then nothing is written. */
  method RecortarVideo(lib: Library, opens: bool, folder: string, cuts: seq<Cut>) returns (clips: Option<seq<Clip>>)
    requires folder in lib.listings
    modifies lib
    ensures !opens ==> clips.None?
    ensures opens ==> clips == Clips(old(lib.listings[folder]), cuts)
    ensures clips.None? ==> lib.listings == old(lib.listings)
    ensures clips.Some? ==> lib.listings == Stored(old(lib.listings), folder, clips.value)
  {
    if !opens {
      return None;
    }
    var next := SiguienteIndiceClip(lib.listings[folder]);
    if next.None? {
      return None;
    }
    var written := WriteClips(lib, folder, next.value, cuts);
    clips := Some(written);
  }

  // ---------------------------------------------------------------------------
  // The tables and main
  // ---------------------------------------------------------------------------

  /** One entry of `videos_a_procesar`. */
  datatype Item = Item(filename: string, letter: string, cuts: seq<Cut>)

  const Alphabet: string := "ABCDEFGHIJKLMNOPQRSTUVWXYZ"

  /** `zip(letters, ranges)`: one entry per letter, cut to the shorter of the two. */
  function Zip(filename: string, letters: string, ranges: seq<Cut>): (r: seq<Item>)
    ensures |r| == if |letters| < |ranges| then |letters| else |ranges|
    ensures forall k :: 0 <= k < |r| ==> r[k] == Item(filename, [letters[k]], [ranges[k]])
  {
    var n := if |letters| < |ranges| then |letters| else |ranges|;
    seq(n, k requires 0 <= k < n => Item(filename, [letters[k]], [ranges[k]]))
  }

  const LscCuts: seq<Cut> := [
    Cut(0, 3), Cut(4, 7), Cut(8, 9), Cut(11, 13), Cut(14, 17), Cut(18, 21),
    Cut(22, 24), Cut(26, 28), Cut(29, 30), Cut(31, 32), Cut(35, 37), Cut(38, 40),
    Cut(45, 47), Cut(48, 51), Cut(57, 60), Cut(61, 63), Cut(65, 68), Cut(69, 71),
    Cut(76, 78), Cut(80, 82), Cut(83, 85), Cut(85, 87), Cut(88, 90), Cut(91, 93),
    Cut(95, 98), Cut(99, 101)]

  const LscF136Cuts: seq<Cut> := [
    Cut(12, 15), Cut(16, 20), Cut(23, 24), Cut(26, 28), Cut(30, 32), Cut(35, 38),
    Cut(45, 47), Cut(50, 54), Cut(57, 59), Cut(63, 64), Cut(67, 74), Cut(76, 79),
    Cut(83, 84), Cut(85, 92), Cut(101, 103), Cut(105, 109), Cut(111, 117),
    Cut(120, 122), Cut(123, 124), Cut(129, 131), Cut(133, 136), Cut(138, 139),
    Cut(140, 141), Cut(142, 143), Cut(144, 146), Cut(147, 149)]

  const MexicanCuts: seq<Cut> := [
    Cut(5, 7), Cut(8, 10), Cut(11, 12), Cut(13, 16), Cut(17, 19), Cut(20, 22),
    Cut(23, 26), Cut(26, 28), Cut(29, 31), Cut(32, 34), Cut(35, 37), Cut(38, 40),
    Cut(43, 46), Cut(47, 49), Cut(53, 56), Cut(56, 59), Cut(59, 61), Cut(62, 65),
    Cut(68, 70), Cut(71, 73), Cut(74, 76), Cut(77, 79), Cut(80, 82), Cut(83, 85),
    Cut(86, 88), Cut(89, 91)]

  const F135Cuts: seq<Cut> := [
    Cut(13, 19), Cut(20, 24), Cut(25, 31), Cut(32, 37), Cut(38, 43), Cut(44, 48),
    Cut(49, 54), Cut(55, 60), Cut(62, 66), Cut(67, 70), Cut(72, 77), Cut(78, 82),
    Cut(87, 92), Cut(93, 98), Cut(105, 109), Cut(110, 114), Cut(115, 119),
    Cut(120, 125), Cut(130, 136), Cut(137, 140), Cut(142, 146), Cut(148, 151),
    Cut(153, 156), Cut(157, 161), Cut(162, 166), Cut(167, 171)]

  const F136Cuts: seq<Cut> := [
    Cut(0, 3), Cut(4, 5), Cut(6, 8), Cut(9, 11), Cut(12, 15), Cut(16, 18),
    Cut(19, 21), Cut(23, 26), Cut(26, 29), Cut(30, 36), Cut(35, 37), Cut(38, 40),
    Cut(41, 43), Cut(46, 48), Cut(52, 55), Cut(56, 59), Cut(60, 63), Cut(64, 66),
    Cut(67, 70), Cut(71, 73), Cut(74, 76), Cut(77, 80), Cut(82, 83), Cut(85, 88),
    Cut(89, 91), Cut(92, 96)]

  /** The five source videos, each with its table of cuts, in script order. */
  const Tables: seq<(string, seq<Cut>)> := [
    ("Abecedario - Lengua de Se\U{F1}as Colombiana - LSC .webm", LscCuts),
    ("Abecedario en Lengua de Se\U{F1}as colombianas - LSC.f136.mp4", LscF136Cuts),
    ("Alfabeto de Lengua de Se\U{F1}as Mexicana.webm", MexicanCuts),
    ("El abecedario en lengua de se\U{F1}as colombiana.f135.mp4", F135Cuts),
    ("El Abecedario en lengua de se\U{F1}as colombiana.f136.mp4", F136Cuts)]

  /** The entries of the tables, one table after the other. */
  function Entries(tables: seq<(string, seq<Cut>)>): seq<Item>
    decreases |tables|
  {
    if tables == [] then [] else Zip(tables[0].0, Alphabet, tables[0].1) + Entries(tables[1..])
  }

  /** `videos_a_procesar` */
  function VideosToProcess(): seq<Item> {
    Entries(Tables)
  }

  predicate WellOrdered(cuts: seq<Cut>) {
    forall k :: 0 <= k < |cuts| ==> cuts[k].start < cuts[k].end
  }

  /** A table of the script: one cut per letter, each ending after it starts. */
  predicate LetterTable(cuts: seq<Cut>) {
    |cuts| == |Alphabet| && WellOrdered(cuts)
  }

  lemma LscCutsTable()
    ensures LetterTable(LscCuts)
  {
  }

  lemma LscF136CutsTable()
    ensures LetterTable(LscF136Cuts)
  {
  }

  lemma MexicanCutsTable()
    ensures LetterTable(MexicanCuts)
  {
  }

  lemma F135CutsTable()
    ensures LetterTable(F135Cuts)
  {
  }

  lemma F136CutsTable()
    ensures LetterTable(F136Cuts)
  {
  }

  /** Each letter's cut starts no earlier than the previous letter's ends. */
  predicate Sequential(cuts: seq<Cut>) {
    forall k :: 0 < k < |cuts| ==> cuts[k - 1].end <= cuts[k].start
  }

  /** Four of the tables cut the alphabet in order without overlap. */
  lemma LscCutsSequential()
    ensures Sequential(LscCuts)
  {
    assert forall k :: 0 < k < 13 ==> LscCuts[k - 1].end <= LscCuts[k].start;
    assert forall k :: 13 <= k < 26 ==> LscCuts[k - 1].end <= LscCuts[k].start;
  }

  lemma LscF136CutsSequential()
    ensures Sequential(LscF136Cuts)
  {
    assert forall k :: 0 < k < 13 ==> LscF136Cuts[k - 1].end <= LscF136Cuts[k].start;
    assert forall k :: 13 <= k < 26 ==> LscF136Cuts[k - 1].end <= LscF136Cuts[k].start;
  }

  lemma MexicanCutsSequential()
    ensures Sequential(MexicanCuts)
  {
    assert forall k :: 0 < k < 13 ==> MexicanCuts[k - 1].end <= MexicanCuts[k].start;
    assert forall k :: 13 <= k < 26 ==> MexicanCuts[k - 1].end <= MexicanCuts[k].start;
  }

  lemma F135CutsSequential()
    ensures Sequential(F135Cuts)
  {
    assert forall k :: 0 < k < 13 ==> F135Cuts[k - 1].end <= F135Cuts[k].start;
    assert forall k :: 13 <= k < 26 ==> F135Cuts[k - 1].end <= F135Cuts[k].start;
  }

  /** In the last table the cut for J (30 to 36 s) runs one second into the cut
      for K (35 to 37 s): both clips hold the second from 35 to 36. */
  lemma F136CutsOverlap()
    ensures !Sequential(F136Cuts)
    ensures F136Cuts[9] == Cut(30, 36) && F136Cuts[10] == Cut(35, 37) && Alphabet[9] == 'J' && Alphabet[10] == 'K'
  {
    assert F136Cuts[9].end > F136Cuts[10].start;
  }

  /** The `k`-th entry of the tables: for letter `k % 26`, with a single cut
      that ends after it starts. */
  predicate EntryShaped(item: Item, k: nat) {
    item.letter == [Alphabet[k % 26]] && |item.cuts| == 1 && item.cuts[0].start < item.cuts[0].end
  }

  /** One table gives one entry per letter, in alphabet order. */
  lemma ZipShaped(filename: string, cuts: seq<Cut>)
    requires LetterTable(cuts)
    ensures |Zip(filename, Alphabet, cuts)| == 26
    ensures forall k :: 0 <= k < 26 ==> EntryShaped(Zip(filename, Alphabet, cuts)[k], k)
  {
    var z := Zip(filename, Alphabet, cuts);
    forall k | 0 <= k < 26
      ensures EntryShaped(z[k], k)
    {
      assert k % 26 == k;
      assert z[k] == Item(filename, [Alphabet[k]], [cuts[k]]);
    }
  }

  /** Tables of one cut per letter give 26 entries each, shaped by position. */
  lemma {:induction false} EntriesShape(tables: seq<(string, seq<Cut>)>)
    requires forall t :: 0 <= t < |tables| ==> LetterTable(tables[t].1)
    ensures |Entries(tables)| == 26 * |tables|
    ensures forall k :: 0 <= k < |Entries(tables)| ==> EntryShaped(Entries(tables)[k], k)
    decreases |tables|
  {
    if tables != [] {
      var head := Zip(tables[0].0, Alphabet, tables[0].1);
      var tail := tables[1..];
      var rest := Entries(tail);
      assert Entries(tables) == head + rest;
      TailTables(tables);
      EntriesShape(tail);
      ZipShaped(tables[0].0, tables[0].1);
      ShapedConcat(head, rest);
    }
  }

  lemma TailTables(tables: seq<(string, seq<Cut>)>)
    requires tables != []
    requires forall t :: 0 <= t < |tables| ==> LetterTable(tables[t].1)
    ensures forall t :: 0 <= t < |tables[1..]| ==> LetterTable(tables[1..][t].1)
  {
    forall t | 0 <= t < |tables[1..]|
      ensures LetterTable(tables[1..][t].1)
    {
      assert tables[1..][t] == tables[t + 1];
    }
  }

  /** A table's 26 entries followed by entries shaped from 0 on are shaped
      from 0 on. */
  lemma ShapedConcat(head: seq<Item>, rest: seq<Item>)
    requires |head| == 26
    requires forall k :: 0 <= k < 26 ==> EntryShaped(head[k], k)
    requires forall k :: 0 <= k < |rest| ==> EntryShaped(rest[k], k)
    ensures forall k :: 0 <= k < |head + rest| ==> EntryShaped((head + rest)[k], k)
  {
    var all := head + rest;
    forall k | 0 <= k < |all|
      ensures EntryShaped(all[k], k)
    {
      if k < 26 {
        assert all[k] == head[k];
      } else {
        assert all[k] == rest[k - 26];
        ShapedShift(rest[k - 26], k);
      }
    }
  }

  lemma ShapedShift(item: Item, k: nat)
    requires k >= 26 && EntryShaped(item, k - 26)
    ensures EntryShaped(item, k)
  {
    assert (k - 26) % 26 == k % 26;
  }

  /** `videos_a_procesar` has 130 entries, each video's table covering the
      alphabet once, every cut ending after it starts. */
  lemma VideosToProcessShape()
    ensures |VideosToProcess()| == 130
    ensures forall k :: 0 <= k < 130 ==> EntryShaped(VideosToProcess()[k], k)
  {
    LscCutsTable();
    LscF136CutsTable();
    MexicanCutsTable();
    F135CutsTable();
    F136CutsTable();
    EntriesShape(Tables);
  }

  /** `os.path.join(OUTPUT_DIR, letter)` */
  function LetterFolder(outputDir: string, letter: string): string {
    outputDir + "/" + letter
  }

  /** The listings after `main` has handled the entries, and whether it got
      through them all: it stops at the first entry whose video does not open
      or whose folder makes `siguiente_indice_clip` raise. */
  function TrimAll(listings: map<string, seq<string>>, videos: set<string>, outputDir: string, items: seq<Item>): (map<string, seq<string>>, bool)
    decreases |items|
  {
    if items == [] then (listings, true)
    else
      var folder := LetterFolder(outputDir, items[0].letter);
      var made := Made(listings, folder);
      if items[0].filename !in videos then (made, false)
      else
        match Clips(made[folder], items[0].cuts)
        case None => (made, false)
        case Some(cs) => TrimAll(Stored(made, folder, cs), videos, outputDir, items[1..])
  }

  /** Every clip file in every folder has a number that parses. */
  predicate Tidy(listings: map<string, seq<string>>) {
    forall d, f :: d in listings && f in listings[d] && IsClipName(f) ==> ClipNumber(f).Some?
  }

  /** In a tidy folder the next number is always found. */
  lemma TidyNeverRaises(listing: seq<string>)
    requires forall f :: f in listing && IsClipName(f) ==> ClipNumber(f).Some?
    ensures NextClipIndex(listing).Some?
  {
    var ex := Existing(listing);
    NextClipIndexBounds(listing);
    if ex != [] {
      assert ex[0] in ex;
      NumberOfName(ex, 0);
    }
  }

  /** Creating a folder and writing clips into it keep every folder tidy. */
  lemma StoredTidy(listings: map<string, seq<string>>, folder: string, cs: seq<Clip>, first: int)
    requires Tidy(listings)
    requires Names(cs) == ClipNames(first, |cs|)
    ensures Tidy(Made(listings, folder))
    ensures Tidy(Stored(Made(listings, folder), folder, cs))
  {
    var made := Made(listings, folder);
    var after := Stored(made, folder, cs);
    forall d, f | d in after && f in after[d] && IsClipName(f)
      ensures ClipNumber(f).Some?
    {
      if d == folder && f !in made[folder] {
        assert f in Names(cs);
        NewNameNumbered(first, |cs|, f);
      }
    }
  }

  /** Starting from folders whose clip files all carry a number, with every
      video at hand, `main` gets through every entry without raising. */
  lemma {:induction false} TidyTrimAllFinishes(listings: map<string, seq<string>>, videos: set<string>, outputDir: string, items: seq<Item>)
    requires Tidy(listings)
    requires forall k :: 0 <= k < |items| ==> items[k].filename in videos
    ensures TrimAll(listings, videos, outputDir, items).1
    decreases |items|
  {
    if items != [] {
      var folder := LetterFolder(outputDir, items[0].letter);
      var made := Made(listings, folder);
      StoredTidy(listings, folder, [], 0);
      TidyNeverRaises(made[folder]);
      var first := NextClipIndex(made[folder]).value;
      var cs := Clips(made[folder], items[0].cuts).value;
      assert Names(cs) == ClipNames(first, |cs|);
      StoredTidy(listings, folder, cs, first);
      TidyTrimAllFinishes(Stored(made, folder, cs), videos, outputDir, items[1..]);
    }
  }

  /** `main()`: each entry's letter folder is created if missing and gets its
      clips; `videos` are the files of `INPUT_DIR` that open. */
  method TrimVideos(lib: Library, videos: set<string>, outputDir: string, items: seq<Item>) returns (finished: bool)
    modifies lib
    ensures lib.listings == TrimAll(old(lib.listings), videos, outputDir, items).0
    ensures finished == TrimAll(old(lib.listings), videos, outputDir, items).1
  {
    var i := 0;
    while i < |items|
      invariant 0 <= i <= |items|
      invariant TrimAll(old(lib.listings), videos, outputDir, items) == TrimAll(lib.listings, videos, outputDir, items[i..])
    {
      var item := items[i];
      var letterFolder := LetterFolder(outputDir, item.letter);
      assert items[i..][1..] == items[i + 1..];
      lib.MakeDirs(letterFolder);
      var clips := RecortarVideo(lib, item.filename in videos, letterFolder, item.cuts);
      if clips.None? {
        return false;
      }
      i := i + 1;
    }
    return true;
  }
}
