# Sign-language landmark capture, modelled in Dafny

The repository collects training data for a sign-language recogniser. Its
scripts read a camera or video files, ask a hand-pose estimator for the 21
landmarks of each detected hand, and append one CSV row per captured hand to
a per-label ledger (`dataset_landmarks/<label>.csv`). A separate script cuts
downloaded alphabet videos into numbered clips, one folder per letter.

This project models the bookkeeping of those scripts. The estimator, the
camera, the clock and the keyboard are inputs: a session is a sequence of
ticks, each with the hands detected, the clock reading and the key code. The
file system is a map from path to the sequence of CSV rows each file holds.

- `text.dfy` (module `Text`): the parts of Python's `str` the scripts use:
  `strip`, `lower`/`upper`, `replace`, `split`, `int()` and `str()` on
  integers, zero padding, with their round trips.
- `ledger.dfy` (module `Ledger`): CSV rows and fields, appending ("a") and
  writing ("w") files, the header written only when the file is absent, the
  65-column ledger header, and a `Disk` class that holds the files.
- `capture_policy.dfy` (module `CapturePolicy`): the wall-clock auto-capture
  timer checked hand by hand, the on-screen countdowns, the capture row, and
  `waitKey(1) & 0xFF`.
- `video_to_landmark.py` → `video_to_landmark.dfy` (module
  `VideoToLandmark`): preprocessing stage order and fallback, frame-step
  sampling, the first hand of each sampled frame as a "video" row, label
  folders in sorted order and the reported totals.
- `captura_landmarks_final.py` → `captura_final.dfy` (module `CapturaFinal`):
  the hybrid session with a resumed count; the `Session` class updates
  `session_saves`, `img_save_index` and `last_auto_time`; the count it
  reports is proved to match what a relaunch resumes from.
- `capturas_landmarks_v2.py` → `capturas_v2.dfy` (module `CapturasV2`): the
  shared ledger, automatic captures per hand and manual captures of every
  hand, proved append-only.
- `capturas_landmarks.py` → `capturas.dfy` (module `Capturas`): the ledger
  truncated to a 63-column header, then one row per detected hand.
- `captura_video_Landmarks.py` → `captura_video.dfy` (module `CapturaVideo`):
  label normalisation, the recording state machine with its 120-second
  ceiling, and one snapshot file per hand per recorded frame.
- `videos_descargados_landmarks.py` → `clip_trimming.dfy` (module
  `ClipTrimming`): `convertir_a_segundos`, the next free `clip_<N>.mp4`
  number, consecutive numbering of the cuts, and the five letter tables.

Each script's loop is modelled twice: as a pure step function (`Next`, `Run`)
over an explicit state, and as a class or method that updates that state in
place and is proved to follow the step function. The properties are lemmas
about the step functions.

Where the intended design and the code differ, the model follows the code:

- By design an automatic capture would save every detected hand once the
  interval has elapsed. The code checks the timer hand by hand, with a
  fresh clock reading per hand, and resets it after each save. So after one
  save in a frame, later hands of that frame are saved only if the interval
  has elapsed again (`CapturePolicy.Fired`, `CapturePolicy.FireSpacing`).
- By design the resumed count is 0 for a header-only or absent ledger. The code also gives 0 for an existing empty file, but writes no
  header to it, so the first saved row takes the header's place
  (`CapturaFinal.EmptyLedgerUndercounts`).
- The manual capture saves the first hand in `captura_landmarks_final.py`
  and every hand in `capturas_landmarks_v2.py`; each script is modelled as
  written.

## Model

| member | source | states |
|---|---|---|
| Text.DigitChar | scr/captura_video_Landmarks.py:141 | the character written for a digit is a digit that reads back as it |
| Text.Lower | scr/captura_video_Landmarks.py:58 | `str.lower()` keeps the length and lower-cases character by character |
| Text.Upper | scr/captura_video_Landmarks.py:141 | upper-casing keeps the length on the characters it models and upper-cases character by character |
| Text.UpperIdempotent | scr/captura_video_Landmarks.py:141 | upper-casing twice is upper-casing once |
| Text.UpperOfLabels | scr/captura_video_Landmarks.py:137-141 | the handedness labels "Left", "Right" and the fallback "Unknown" become "LEFT", "RIGHT", "UNKNOWN" |
| Text.LowerIdempotent | scr/captura_video_Landmarks.py:58 | lower-casing twice is lower-casing once |
| Text.LowerCharKeepsSpace | scr/captura_video_Landmarks.py:58 | lower-casing neither creates nor removes whitespace or the space character |
| Text.TrimLeftSpec | scr/captura_landmarks_final.py:34 | the left strip cuts only a whitespace prefix and stops at the first other character |
| Text.TrimRightSpec | scr/captura_landmarks_final.py:34 | the right strip cuts only a whitespace suffix and stops at the last other character |
| Text.StripSpec | scr/captura_video_Landmarks.py:54 | `strip()` leaves an infix of the input with only whitespace cut on either side and no whitespace at either end |
| Text.StripEnds | scr/captura_landmarks_final.py:34 | what `strip()` leaves neither starts nor ends with whitespace |
| Text.StripTrimmed | scr/captura_landmarks_final.py:34 | stripping a string without whitespace at its ends changes nothing |
| Text.StripNoSpace | scr/captura_video_Landmarks.py:54 | a string without whitespace strips to itself |
| Text.ReplaceAbsent | scr/videos_descargados_landmarks.py:152 | `replace` leaves a string without the pattern's first character unchanged |
| Text.ReplaceAtEnd | scr/videos_descargados_landmarks.py:152 | a pattern at the end of a string otherwise free of it is replaced there |
| Text.ReplaceCharRemoves | scr/captura_video_Landmarks.py:58 | replacing a character by a string without it removes the character entirely |
| Text.ReplaceCharPointwise | scr/captura_video_Landmarks.py:58 | replacing one character by another keeps the length and rewrites that character where it stands |
| Text.IndexOf | scr/videos_descargados_landmarks.py:138 | the first occurrence of a character, or the length when there is none |
| Text.Split | scr/videos_descargados_landmarks.py:138 | `split` always yields at least one field |
| Text.SplitTwo | scr/videos_descargados_landmarks.py:138 | splitting `a:b` with no `:` in either side yields exactly `[a, b]` |
| Text.SplitHead | scr/videos_descargados_landmarks.py:138 | a first field without the separator is split off whole and the rest is split on |
| Text.NatToString | scr/videos_descargados_landmarks.py:163 | `str(n)` of a natural number is a non-empty string of digits |
| Text.IntToString | scr/videos_descargados_landmarks.py:163 | `str(i)` is non-empty and holds only digits and `-` |
| Text.ZeroPad | scr/captura_video_Landmarks.py:141 | zero-padding yields at least the requested width, all digits |
| Text.DigitsValueOfNat | scr/videos_descargados_landmarks.py:152 | the digits of `str(n)` denote `n` |
| Text.DigitsValueOfZeros | scr/captura_landmarks_final.py:116 | leading zeros do not change the value of a digit string |
| Text.ZeroPadValue | scr/captura_landmarks_final.py:116 | the zero-padded rendering of `n` still denotes `n` |
| Text.WellFormedNat | scr/videos_descargados_landmarks.py:152 | `str(n)` is a well-formed integer literal with no surrounding whitespace |
| Text.ParseIntOfIntToString | scr/videos_descargados_landmarks.py:139 | `int(str(i)) == i` for every integer |
| Text.ParseIntOfNat | scr/videos_descargados_landmarks.py:152 | `int(str(n)) == n` for every natural number |
| Text.ParseIntOfNegative | scr/videos_descargados_landmarks.py:139 | `int("-" + str(n)) == -n` |
| Text.ParseIntNegativeForm | scr/videos_descargados_landmarks.py:139 | a stripped `-` followed by well-formed digits parses to their negated value |
| Text.ParseIntIgnoresSpaces | scr/videos_descargados_landmarks.py:139 | `int()` ignores whitespace other than the ASCII separators U+001C..U+001F around the number |
| Text.StripAround | scr/captura_landmarks_final.py:34 | stripping whitespace wrapped around a trimmed string gives that string back |
| Text.SeparatorStripsButDoesNotParse | scr/videos_descargados_landmarks.py:140 | `strip()` removes a leading U+001C, while `int()` raises on it |
| Ledger.Appended | scr/captura_landmarks_final.py:107-112 | opening in mode "a" creates a missing file, keeps what the file held as its prefix, adds exactly the rows after it, and touches no other file |
| Ledger.Written | scr/captura_video_Landmarks.py:47-50 | opening in mode "w" leaves the file holding exactly the rows written, whatever it held, and touches no other file |
| Ledger.AppendedEach | scr/capturas_landmarks_v2.py:94-95 | one `open(path, "a")` per row: no rows open nothing, otherwise the file gains exactly the rows |
| Ledger.AppendedEachConcat | scr/capturas_landmarks_v2.py:68-95 | appending two batches row by row is appending their concatenation |
| Ledger.HeaderIfAbsent | scr/captura_landmarks_final.py:61-68 | a missing file is created holding only the header; every existing file is left as it is |
| Ledger.AppendKeepsLedger | scr/captura_landmarks_final.py:107-112 | appending to a ledger keeps its header and its earlier data rows, and the new rows follow them |
| Ledger.FreshLedger | scr/captura_landmarks_final.py:61-112 | a header written on a missing file and then appended to gives a ledger whose data rows are exactly the appended rows |
| Ledger.WrittenAllNext | scr/captura_video_Landmarks.py:122-143 | the writes happen one after another, each on the files the earlier ones left |
| Ledger.WrittenAllCreates | scr/captura_video_Landmarks.py:47-50 | every write leaves a file at its path |
| Ledger.WrittenAllLastWins | scr/captura_video_Landmarks.py:47-50 | a write whose path no later write opens again decides that file's content |
| Ledger.WrittenAllKeepsOthers | scr/captura_video_Landmarks.py:47-50 | a file no write opens is left as it was |
| Ledger.Coords | scr/captura_landmarks_final.py:110-111 | the coordinates of `n` landmarks are `3n` values |
| Ledger.CoordsAt | scr/captura_landmarks_final.py:110-111 | value `3i + a` of the flattened coordinates is coordinate `a` of landmark `i` |
| Ledger.NumCells | scr/captura_landmarks_final.py:111-112 | each value becomes one CSV field, in order |
| Ledger.AppendCoords | scr/captura_landmarks_final.py:109-111 | the row built landmark by landmark keeps its prefix and has coordinate `a` of landmark `i` at field `prefix + 3i + a` |
| Ledger.CoordColumnsAt | scr/captura_landmarks_final.py:66-67 | column `3i + a` of the coordinate columns names coordinate `a` of landmark `i` |
| Ledger.CoordColumnsNext | scr/captura_landmarks_final.py:66-67 | one more landmark adds exactly its three columns at the end |
| Ledger.LmHeaderLayout | scr/captura_landmarks_final.py:64-67 | the ledger header has 65 names: `time`, `capture_type`, then `x<i>, y<i>, z<i>` for each of the 21 landmarks in order |
| Ledger.LmHeaderRow | scr/captura_landmarks_final.py:64-68 | the written header row has 65 fields beginning with `time` and `capture_type` |
| Ledger.TextRow | scr/captura_landmarks_final.py:68 | each header name becomes one CSV field, in order |
| Ledger.BuildHeader | scr/capturas_landmarks_v2.py:31-33 | the header built by the `for i in range(21)` loop is the prefix followed by the coordinate columns of the 21 landmarks |
| Ledger.Disk.Append | scr/capturas_landmarks_v2.py:47-52 | the files after `open(path, "a")` and the rows' `writerow` calls are those of its specification |
| Ledger.Disk.Write | scr/captura_video_Landmarks.py:47-50 | the files after `open(path, "w")` and the rows' `writerow` calls are those of its specification |
| CapturePolicy.Fired | scr/captura_landmarks_final.py:139-150 | the auto-captured hands are positions of the frame's hands, in strictly increasing detection order |
| CapturePolicy.TimerIsLastFire | scr/captura_landmarks_final.py:146-150 | after the per-hand loop the timer rests at the clock reading of the last auto capture, and is untouched when nothing fired |
| CapturePolicy.FireSpacing | scr/capturas_landmarks_v2.py:73-76 | the first auto capture comes at least the interval after the timer's start, and each later one at least the interval after the previous |
| CapturePolicy.NothingDueNothingFires | scr/captura_landmarks_final.py:145-146 | while no reading is due against the timer's start, nothing is captured and the timer stays |
| CapturePolicy.FiredAtMostOnce | scr/captura_landmarks_final.py:144-149 | each hand of a frame is auto-captured at most once |
| CapturePolicy.OverdueFiresFirst | scr/captura_landmarks_final.py:145-149 | a first hand whose reading is already due is always captured |
| CapturePolicy.OneHand | scr/captura_landmarks_final.py:145-150 | with one hand in the frame, it is captured exactly when its reading is due, and the timer moves to that reading exactly then |
| CapturePolicy.FiredNext | scr/captura_landmarks_final.py:139-150 | looking at one more hand captures it exactly when it is due against the current timer, and then resets the timer to its reading |
| CapturePolicy.TruncBounds | scr/capturas_landmarks_v2.py:80 | Python's `int()` on a float truncates toward zero by less than one |
| CapturePolicy.ClampedCountdownBounds | scr/capturas_landmarks_v2.py:80-83 | the countdown `max(0, limit - int(elapsed))` shows 0 exactly when the limit is reached, and otherwise the time left rounded up |
| CapturePolicy.ClampedThenTruncatedBounds | scr/captura_landmarks_final.py:156 | the countdown `int(max(0, interval - elapsed))` shows 0 exactly when less than a second is left, and otherwise the time left rounded down |
| CapturePolicy.Times | scr/captura_landmarks_final.py:145 | one clock reading per hand, in detection order |
| CapturePolicy.CaptureRow | scr/captura_landmarks_final.py:109-111 | a capture row has 65 fields: the time stamp, the capture type, then coordinate `a` of landmark `i` at field `2 + 3i + a`, matching the header |
| CapturePolicy.AutoRows | scr/captura_landmarks_final.py:149 | the automatic rows are "auto" rows of the captured hands, in capture order |
| CapturePolicy.AutoFilesNext | scr/captura_landmarks_final.py:145-150 | looking at one more hand appends its row exactly when its reading is due |
| CapturePolicy.KeyCode | scr/captura_landmarks_final.py:174 | `waitKey(1) & 0xFF` is a byte, equal to the raw code for a byte and congruent to it modulo 256 |
| VideoToLandmark.Attempt | scr/video_to_landmark.py:72-80 | a stage under `try/except: pass` yields its output, or its input unchanged when it raises |
| VideoToLandmark.PreprocessFrame | scr/video_to_landmark.py:67-83 | without denoising a frame is equalised (when that succeeds) and then resized |
| VideoToLandmark.PreprocessStageOrder | scr/video_to_landmark.py:67-83 | with every stage succeeding the order is denoise, equalise, resize |
| VideoToLandmark.PreprocessDenoiseFails | scr/video_to_landmark.py:71-83 | a denoiser that raises leaves the frame to equalisation and resizing as if denoising were off |
| VideoToLandmark.PreprocessAllFail | scr/video_to_landmark.py:67-83 | when both optional stages raise, the frame is only resized |
| VideoToLandmark.PreprocessEqualiseFails | scr/video_to_landmark.py:67-83 | with denoising on, a denoised frame whose equalisation raises is resized as denoised |
| VideoToLandmark.LandmarkRow | scr/video_to_landmark.py:99 | a row holds the time text, the capture type, then each landmark value with nine decimals, in order |
| VideoToLandmark.AppendedToLedgerWrites | scr/video_to_landmark.py:86-102 | a non-empty batch is what `ensure_csv_with_header` followed by appends leaves |
| VideoToLandmark.AppendedToLedgerLayout | scr/video_to_landmark.py:86-102 | no rows leave the files alone; otherwise the ledger gets the rows after its old lines, or after the header when it was missing, and no other file changes |
| VideoToLandmark.AppendedToLedgerConcat | scr/video_to_landmark.py:94-102 | appending in two batches is appending their concatenation |
| VideoToLandmark.EnsureCsvWithHeader | scr/video_to_landmark.py:86-92 | a missing ledger is created holding only the header; an existing one is left as it is |
| VideoToLandmark.AppendLandmarkRow | scr/video_to_landmark.py:94-102 | the row is appended after the ledger's lines, or after a fresh header when the ledger was missing |
| VideoToLandmark.SampledMembers | scr/video_to_landmark.py:129-132 | the processed frame indices are exactly the multiples of `frame_step` below the frame count |
| VideoToLandmark.SampledCount | scr/video_to_landmark.py:129-132 | `ceil(T / frame_step)` frames of `T` are processed |
| VideoToLandmark.SampledAt | scr/video_to_landmark.py:129-132 | the `j`-th processed frame is frame `j * frame_step` |
| VideoToLandmark.Hits | scr/video_to_landmark.py:141 | the frames that give rows are among the processed ones and each shows a hand |
| VideoToLandmark.HitsMembers | scr/video_to_landmark.py:129-141 | a frame gives a row exactly when it is processed and shows a hand |
| VideoToLandmark.HitsAll | scr/video_to_landmark.py:141 | when every processed frame shows a hand, every processed frame gives a row |
| VideoToLandmark.RowsOf | scr/video_to_landmark.py:141-154 | one row per frame that gives one, in frame order, built from the frame's first hand |
| VideoToLandmark.LandmarkList | scr/video_to_landmark.py:145-147 | the loop flattens the hand's landmarks into their 63 coordinates in order |
| VideoToLandmark.ProcessedRowsAreHits | scr/video_to_landmark.py:124-164 | read frame by frame, the rows are those of the processed frames that show a hand, in frame order |
| VideoToLandmark.ProcessVideoFile | scr/video_to_landmark.py:105-169 | the ledger gains exactly the video's rows and the returned count is their number |
| VideoToLandmark.ProcessFrame | scr/video_to_landmark.py:125-164 | one loop iteration appends the frame's row exactly when it is processed and shows a hand, and reports how many it added |
| VideoToLandmark.UnopenedVideoAddsNothing | scr/video_to_landmark.py:106-109 | a video that does not open adds no row |
| VideoToLandmark.VideoRowsBound | scr/video_to_landmark.py:124-164 | a video of `T` frames adds at most `ceil(T / frame_step)` rows, and exactly that many when it opens and every frame shows a hand |
| VideoToLandmark.DefaultVideoRowsBound | scr/video_to_landmark.py:33 | with `FRAME_STEP = 3` a video of `T` frames adds at most `ceil(T / 3)` rows |
| VideoToLandmark.Suffix | scr/video_to_landmark.py:188 | a suffix is empty or a dot-led ending of the name shorter than the name |
| VideoToLandmark.LastDot | scr/video_to_landmark.py:188 | the position of the last dot in the name, or -1 when there is none |
| VideoToLandmark.VideoFiles | scr/video_to_landmark.py:188 | the video files of a folder are exactly its files with a video suffix, in any case |
| VideoToLandmark.LexLeTotal | scr/video_to_landmark.py:188 | any two names are comparable in the order `sorted` uses |
| VideoToLandmark.LexLeTrans | scr/video_to_landmark.py:188 | that order is transitive |
| VideoToLandmark.Insert | scr/video_to_landmark.py:188 | inserting into a sorted sequence keeps it sorted and adds exactly the element |
| VideoToLandmark.SortBy | scr/video_to_landmark.py:188 | `sorted` yields a sorted permutation of its input |
| VideoToLandmark.VideosAddedIsRows | scr/video_to_landmark.py:195-202 | the sum of the counts `process_video_file` returns is the number of rows appended |
| VideoToLandmark.EntriesSnoc | scr/video_to_landmark.py:180-202 | one more entry applies its effect after the earlier ones and adds its folder's count to the total |
| VideoToLandmark.FolderLedger | scr/video_to_landmark.py:180-202 | a label folder always leaves a ledger with the header, and its data rows grow by exactly the rows of its videos, as many as the reported count |
| VideoToLandmark.ProcessFolder | scr/video_to_landmark.py:195-202 | the folder's videos append their rows in order and the added counts sum to their number |
| VideoToLandmark.ProcessEntry | scr/video_to_landmark.py:181-202 | a non-folder entry changes nothing and adds 0; a folder gets its ledger and its videos' rows |
| VideoToLandmark.ProcessAll | scr/video_to_landmark.py:171-204 | the entries are handled in sorted name order and the total is the sum of their folders' counts |
| VideoToLandmark.ProcessAllDefaults | scr/video_to_landmark.py:207-211 | `process_all()` with its defaults: the ledgers under `dataset_landmarks/`, every third frame, entries in sorted order, the total their counts' sum |
| VideoToLandmark.ProcessEntries | scr/video_to_landmark.py:180-202 | the loop over the entries applies their effects in order and sums their counts |
| CapturaFinal.GestureName | scr/captura_landmarks_final.py:34-37 | the name is refused exactly when the stripped answer is empty; an accepted name is exactly the stripped answer, non-empty with no blank at either end, and an answer with no blanks is taken as typed |
| CapturaFinal.ImgPathInjective | scr/captura_landmarks_final.py:116 | two image paths of one gesture are equal only when their save indices are equal |
| CapturaFinal.ImgPathDistinct | scr/captura_landmarks_final.py:116 | different save indices give different image paths |
| CapturaFinal.ExistingCount | scr/captura_landmarks_final.py:47-54 | the resumed count is the number of data rows after the header line, and 0 when the ledger is missing |
| CapturaFinal.CountExisting | scr/captura_landmarks_final.py:47-54 | counting the file's lines minus one, clamped at zero, yields that resumed count |
| CapturaFinal.SavedKeepsCount | scr/captura_landmarks_final.py:100-120 | a save keeps `existing_count + session_saves` equal to the ledger's data rows and the images numbered from `existing_count + 1`, and appends exactly the one capture row |
| CapturaFinal.AfterAutoKeepsCount | scr/captura_landmarks_final.py:139-151 | the automatic captures of a frame keep that invariant and append exactly the rows of the hands the timer lets through, in detection order |
| CapturaFinal.NextKeepsCount | scr/captura_landmarks_final.py:126-184 | one iteration of the main loop keeps that invariant |
| CapturaFinal.NextSavesBound | scr/captura_landmarks_final.py:144-160 | a frame adds at most one auto save per hand plus one manual save, so at most two with `max_num_hands = 1` |
| CapturaFinal.RunKeepsCount | scr/captura_landmarks_final.py:125-184 | the whole loop keeps that invariant, whatever frames and keys arrive |
| CapturaFinal.ImagesDistinct | scr/captura_landmarks_final.py:115-118 | no two images saved in a session share a file name |
| CapturaFinal.RunWithoutImages | scr/captura_landmarks_final.py:115-118 | with `SAVE_IMGS_ON_MANUAL = False` a session writes no image and keeps the image index |
| CapturaFinal.EmptyLedgerUndercounts | scr/captura_landmarks_final.py:47-68 | an existing but empty ledger gets no header, so after one save the session reports 1 while a relaunch would resume from 0 |
| CapturaFinal.LaunchResumable | scr/captura_landmarks_final.py:34-193 | when the session finishes, the total it reports is exactly the count the next launch resumes from, provided the ledger was missing or had a first line |
| CapturaFinal.NamedResumable | scr/captura_landmarks_final.py:39-193 | with an open camera the script always reaches its final report, and that report matches the resumed count of a relaunch |
| CapturaFinal.LaunchNamed | scr/captura_landmarks_final.py:34-39 | an accepted name leads to the rest of the script under that name |
| CapturaFinal.NamedClosed | scr/captura_landmarks_final.py:61-86 | a camera that does not open ends the script with only the ledger header written |
| CapturaFinal.LaunchEarlyExits | scr/captura_landmarks_final.py:34-86 | an empty name ends the script without touching any file; an unopened camera leaves only the header of a new ledger |
| CapturaFinal.WriteHeaderIfAbsent | scr/captura_landmarks_final.py:61-68 | the header is written, column by column, only when the ledger does not exist; an existing file is left as it is |
| CapturaFinal.Session.constructor | scr/captura_landmarks_final.py:56-92 | a session starts with no saves, the image index at `existing_count + 1` and the timer at the start time |
| CapturaFinal.Session.SaveLandmarksToCsv | scr/captura_landmarks_final.py:100-120 | one row appended to the ledger, an image only for a manual capture with a frame while images are enabled, `session_saves` up by one |
| CapturaFinal.Session.AutoCaptures | scr/captura_landmarks_final.py:139-151 | the per-hand loop saves each hand seen once the interval has elapsed since the last automatic save, resetting the timer each time |
| CapturaFinal.Session.Frame | scr/captura_landmarks_final.py:127-184 | one iteration: the automatic saves, the countdown and total shown on screen, SPACE saving the first hand, ESC or 'q' quitting |
| CapturaFinal.Session.Loop | scr/captura_landmarks_final.py:126-184 | the loop runs until a failed read or a quit key, with the state given by the loop specification |
| CapturaFinal.RunSession | scr/captura_landmarks_final.py:83-193 | the session leaves the files of the loop specification and reports `existing_count + session_saves` |
| CapturaFinal.Capture | scr/captura_landmarks_final.py:34-196 | the whole script, from the prompt to the final report, has the files and outcome of its specification |
| CapturaFinal.CaptureNamed | scr/captura_landmarks_final.py:39-193 | the script after the name is accepted: resumed count, header, camera check, session |
| CapturasV2.ManualRows | scr/capturas_landmarks_v2.py:92-96 | SPACE yields one "manual" row per detected hand, in detection order, each holding that hand's coordinates |
| CapturasV2.AppendedEachGrows | scr/capturas_landmarks_v2.py:45-52 | appending capture rows keeps the ledger append-only: its earlier lines stay its prefix and every added line is a 65-field capture row |
| CapturasV2.NextGrows | scr/capturas_landmarks_v2.py:58-98 | one iteration keeps the ledger append-only, and with SPACE it gains exactly a manual row for each hand after the automatic rows |
| CapturasV2.RunGrows | scr/capturas_landmarks_v2.py:57-98 | the whole loop keeps the ledger append-only |
| CapturasV2.SessionAppendOnly | scr/capturas_landmarks_v2.py:28-98 | after a session the ledger exists, what it held before is still its beginning, a new ledger starts with the header, and every later line is a capture row |
| CapturasV2.Capturer.constructor | scr/capturas_landmarks_v2.py:39 | the timer starts at the given time with the files as they are |
| CapturasV2.Capturer.SaveLandmarks | scr/capturas_landmarks_v2.py:45-52 | exactly one capture row appended to the shared ledger |
| CapturasV2.Capturer.AutoCapture | scr/capturas_landmarks_v2.py:67-77 | the per-hand loop saves each hand seen once the interval has elapsed since the last automatic save, resetting the timer each time |
| CapturasV2.Capturer.ManualCapture | scr/capturas_landmarks_v2.py:92-96 | SPACE appends the manual rows of every detected hand |
| CapturasV2.Capturer.Frame | scr/capturas_landmarks_v2.py:58-98 | one iteration: the automatic saves, the countdown shown (whole seconds left, never negative), SPACE saving every hand, ESC quitting |
| CapturasV2.Capturer.Loop | scr/capturas_landmarks_v2.py:57-98 | the loop runs until a failed read or ESC, with the state given by the loop specification |
| CapturasV2.Capture | scr/capturas_landmarks_v2.py:24-98 | the whole script leaves the files of its specification |
| Capturas.HeaderLayout | scr/capturas_landmarks.py:24-28 | the header has 63 names, `x<i>, y<i>, z<i>` for each of the 21 landmarks in order, with no time or capture-type column |
| Capturas.HandRow | scr/capturas_landmarks.py:59-61 | a hand's row holds its 63 coordinates, field `3i + a` being coordinate `a` of landmark `i` |
| Capturas.HandRows | scr/capturas_landmarks.py:53-64 | one row per detected hand, in detection order |
| Capturas.RecordedBound | scr/capturas_landmarks.py:36-64 | with the estimator limited to one hand per frame, a session writes at most one row per frame |
| Capturas.RecordedRowsAreHands | scr/capturas_landmarks.py:59-64 | every recorded line is a full hand of 63 coordinate fields |
| Capturas.SecondSessionErasesFirst | scr/capturas_landmarks.py:20-28 | since the ledger is opened for writing, the ledger after a second session for the same name is what that session alone would leave |
| Capturas.WriteHands | scr/capturas_landmarks.py:53-64 | the rows of every hand of a frame are appended in order |
| Capturas.RecordRunAppends | scr/capturas_landmarks.py:42-71 | appending frame by frame adds exactly the recorded rows, in order |
| Capturas.RecordLoop | scr/capturas_landmarks.py:42-71 | the loop, until a failed read or 'q', appends exactly the recorded rows |
| Capturas.Capture | scr/capturas_landmarks.py:17-77 | the whole script truncates the ledger to its header and then holds the recorded rows, whatever it held before |
| CapturaVideo.NormaliseLabel | scr/captura_video_Landmarks.py:54-58 | the letter is refused exactly when the stripped answer is empty; an accepted letter is as long as the stripped answer, holds no space, has no blank at either end and is already lower case, and each character is the stripped answer's character, a space turned into `_`, lower-cased |
| CapturaVideo.Underscored | scr/captura_video_Landmarks.py:58 | replacing spaces by `_` and lower-casing a stripped letter keeps its length, leaves no space and no blank at either end, and yields a lower-case letter whose every character is the original's, `_` for a space, lower-cased |
| CapturaVideo.NormaliseLabelIdempotent | scr/captura_video_Landmarks.py:54-58 | a normalised letter is a fixed point: normalising it again gives the same letter |
| CapturaVideo.HandTag | scr/captura_video_Landmarks.py:137-143 | the tag is "UNKNOWN" without a classification, and otherwise the upper-cased first label, of the same length |
| CapturaVideo.SnapshotPathFrameInjective | scr/captura_video_Landmarks.py:141-142 | within one take, snapshots of different frames never share a file name |
| CapturaVideo.SnapshotPathTagInjective | scr/captura_video_Landmarks.py:141-142 | within one frame, hands with different tags never share a file name |
| CapturaVideo.SnapshotHeaderLayout | scr/captura_video_Landmarks.py:39-41 | the snapshot header has 66 columns: `frame`, `timestamp`, `hand`, then `landmark_<i>_x/y/z` for each of the 21 landmarks in order |
| CapturaVideo.SnapshotRowLayout | scr/captura_video_Landmarks.py:43-45 | a snapshot row lines up with that header: the frame number, the time with six decimals, the tag, then each coordinate of landmark `i` at column `3 + 3i + a` with six decimals |
| CapturaVideo.SaveLandmarksCsv | scr/captura_video_Landmarks.py:33-50 | the snapshot file is created or replaced and holds exactly the header and the one row |
| CapturaVideo.SnapshotWrites | scr/captura_video_Landmarks.py:122-144 | a frame's snapshot writes come one per detection, in detection order, each at that detection's path with its header and row |
| CapturaVideo.SnapshotsContent | scr/captura_video_Landmarks.py:122-144 | every detection leaves a file; one whose tag no later detection of the frame shares keeps exactly its own header and row; files at no detection's path are untouched |
| CapturaVideo.SameTagOverwrites | scr/captura_video_Landmarks.py:141-144 | two hands with the same tag in one frame are counted twice but leave one file, holding the second hand's snapshot |
| CapturaVideo.WriteSnapshots | scr/captura_video_Landmarks.py:121-144 | the snapshots of a frame are written in detection order and each is counted |
| CapturaVideo.NextCounts | scr/captura_video_Landmarks.py:111-168 | a frame of a running take counts one file per hand and takes the next frame number; 's' outside a take restarts the numbering; an idle frame without 's' changes nothing |
| CapturaVideo.CeilingEndsTake | scr/captura_video_Landmarks.py:111-168 | the frame on which 120 seconds have elapsed is still processed and counted, and the take ends with it unless that frame's key is 's' |
| CapturaVideo.IdleRunChangesNothing | scr/captura_video_Landmarks.py:100-173 | while no take runs and 's' is never pressed, the loop writes nothing and no counter moves |
| CapturaVideo.TakeFramesDistinct | scr/captura_video_Landmarks.py:141-156 | a processed frame advances the frame number within the take, so the same hand in the next frame gets a new file |
| CapturaVideo.LaunchEarlyExits | scr/captura_video_Landmarks.py:54-65 | an empty letter ends the script before the camera; an unopened camera ends it too; neither writes a file |
| CapturaVideo.Recorder.constructor | scr/captura_video_Landmarks.py:75-80 | the loop starts not recording, at frame 0, with no file saved |
| CapturaVideo.Recorder.ProcessFrame | scr/captura_video_Landmarks.py:111-156 | the ceiling check, the snapshots and the frame count of a take, and the seconds left shown as `max(0, 120 - int(elapsed))` |
| CapturaVideo.Recorder.Frame | scr/captura_video_Landmarks.py:101-173 | one iteration: the take's frame, then 's' starting a take or 'q' quitting |
| CapturaVideo.Recorder.Loop | scr/captura_video_Landmarks.py:100-173 | the loop runs until a failed read or 'q', with the state given by the loop specification |
| CapturaVideo.Record | scr/captura_video_Landmarks.py:52-181 | the whole script leaves the files and reports the count of its specification |
| ClipTrimming.ToSeconds | scr/videos_descargados_landmarks.py:134-140 | numbers pass through unchanged; a string with `:` that does not split into exactly two fields raises; a string without `:` is converted exactly when `int()` accepts it, to that integer |
| ClipTrimming.ToSecondsOfParts | scr/videos_descargados_landmarks.py:137-139 | a string split at its one `:` into fields that parse as M and S gives M * 60 + S seconds |
| ClipTrimming.MinutesSecondsRoundTrip | scr/videos_descargados_landmarks.py:137-139 | writing any M and S as `"M:S"` and converting gives back M * 60 + S |
| ClipTrimming.ToSecondsOfInt | scr/videos_descargados_landmarks.py:140 | an integer written out without `:` is read back by `int(t)` |
| ClipTrimming.FractionTextRejected | scr/videos_descargados_landmarks.py:140 | the text `"1.5"` raises, since `int()` refuses a decimal fraction |
| ClipTrimming.HoursRejected | scr/videos_descargados_landmarks.py:138 | an `"H:M:S"` time raises instead of being read as hours |
| ClipTrimming.Existing | scr/videos_descargados_landmarks.py:143-146 | the clip files are exactly the listed names that start with `clip_` and end with `.mp4` |
| ClipTrimming.NextClipIndexBounds | scr/videos_descargados_landmarks.py:142-155 | the next number is 1 for a folder without clip files; otherwise it is found exactly when some clip number parses, and then it is one more than a parsed number and larger than all of them |
| ClipTrimming.NextClipIndexFresh | scr/videos_descargados_landmarks.py:142-155 | the next number exceeds the number of every clip file already in the folder |
| ClipTrimming.NextClipIndexOfMax | scr/videos_descargados_landmarks.py:155 | when the largest parsed number is `top`, the next number is `top + 1` |
| ClipTrimming.CollectNumbers | scr/videos_descargados_landmarks.py:149-154 | the loop keeps, in listing order, the numbers of the clip files whose number parses and skips the others |
| ClipTrimming.SiguienteIndiceClip | scr/videos_descargados_landmarks.py:142-155 | the method returns the next number of its specification, or signals the `max([])` error |
| ClipTrimming.ClipNameParses | scr/videos_descargados_landmarks.py:145-163 | a generated name `clip_<i>.mp4` is recognised as a clip file and its number parses back to `i` |
| ClipTrimming.ClipNameInjective | scr/videos_descargados_landmarks.py:163 | different numbers give different clip names |
| ClipTrimming.ClipNames | scr/videos_descargados_landmarks.py:162-164 | the names written for `n` cuts are `clip_<first + k>.mp4` for each `k` in order |
| ClipTrimming.Clips | scr/videos_descargados_landmarks.py:157-167 | trimming a video fails exactly when the next number cannot be found, and otherwise writes the cuts in order under consecutive numbers |
| ClipTrimming.ClipNameFresh | scr/videos_descargados_landmarks.py:160-163 | a name numbered from the next index on is not in the folder yet |
| ClipTrimming.ClipsFresh | scr/videos_descargados_landmarks.py:160-167 | the new clips never overwrite a file already in the folder, nor each other |
| ClipTrimming.ClipsDistinct | scr/videos_descargados_landmarks.py:162-164 | clips numbered one after another all have different names |
| ClipTrimming.Numbered | scr/videos_descargados_landmarks.py:162-167 | one clip per cut, in cut order, named by consecutive numbers |
| ClipTrimming.NumbersAfterCuts | scr/videos_descargados_landmarks.py:142-167 | after the cuts are written, no clip number in the folder reaches `first + n` |
| ClipTrimming.NewNameNumbered | scr/videos_descargados_landmarks.py:163 | each new name carries a number from `first` to `first + n - 1` |
| ClipTrimming.LastCutNumbered | scr/videos_descargados_landmarks.py:163-164 | the last new clip's number `first + n - 1` is among the folder's clip numbers |
| ClipTrimming.CutsContinue | scr/videos_descargados_landmarks.py:142-167 | after `n` cuts the next run on the same folder continues at `first + n`, so reruns append rather than overwrite |
| ClipTrimming.Library.constructor | scr/videos_descargados_landmarks.py:175-176 | the folders start with the given listings |
| ClipTrimming.Library.MakeDirs | scr/videos_descargados_landmarks.py:189 | a missing folder is created empty and an existing one is left as it is |
| ClipTrimming.Library.AddFile | scr/videos_descargados_landmarks.py:167 | the folder gains the written file and no other folder changes |
| ClipTrimming.WriteClips | scr/videos_descargados_landmarks.py:162-167 | the loop writes exactly the numbered clips and the folder gains their names in order |
| ClipTrimming.RecortarVideo | scr/videos_descargados_landmarks.py:157-169 | a video that does not open, or a folder whose next number cannot be found, writes nothing; otherwise the folder gains the clips of its specification |
| ClipTrimming.Zip | scr/videos_descargados_landmarks.py:20-35 | `zip` yields one entry per letter, cut to the shorter of letters and ranges, each with its letter and single cut |
| ClipTrimming.LscCutsTable | scr/videos_descargados_landmarks.py:26-34 | the first table has one cut per letter, each ending after it starts |
| ClipTrimming.LscF136CutsTable | scr/videos_descargados_landmarks.py:54-62 | the second table has one cut per letter, each ending after it starts |
| ClipTrimming.MexicanCutsTable | scr/videos_descargados_landmarks.py:75-83 | the third table has one cut per letter, each ending after it starts |
| ClipTrimming.F135CutsTable | scr/videos_descargados_landmarks.py:96-104 | the fourth table has one cut per letter, each ending after it starts |
| ClipTrimming.F136CutsTable | scr/videos_descargados_landmarks.py:117-125 | the fifth table has one cut per letter, each ending after it starts |
| ClipTrimming.LscCutsSequential | scr/videos_descargados_landmarks.py:28-34 | the first table cuts the alphabet in order without overlap |
| ClipTrimming.LscF136CutsSequential | scr/videos_descargados_landmarks.py:56-62 | the second table cuts the alphabet in order without overlap |
| ClipTrimming.MexicanCutsSequential | scr/videos_descargados_landmarks.py:77-83 | the third table cuts the alphabet in order without overlap |
| ClipTrimming.F135CutsSequential | scr/videos_descargados_landmarks.py:98-104 | the fourth table cuts the alphabet in order without overlap |
| ClipTrimming.F136CutsOverlap | scr/videos_descargados_landmarks.py:121 | in the fifth table the cut for J (30 to 36 s) overlaps the cut for K (35 to 37 s) |
| ClipTrimming.ZipShaped | scr/videos_descargados_landmarks.py:20-35 | one table gives 26 entries, one per letter in alphabet order, each with one well-ordered cut |
| ClipTrimming.EntriesShape | scr/videos_descargados_landmarks.py:15-128 | tables of one cut per letter give 26 entries each, the `k`-th for letter `k % 26` with a single well-ordered cut |
| ClipTrimming.VideosToProcessShape | scr/videos_descargados_landmarks.py:15-128 | the script's list has 130 entries, the `k`-th for letter `k % 26`, each with one cut that ends after it starts |
| ClipTrimming.TidyNeverRaises | scr/videos_descargados_landmarks.py:147-155 | in a folder whose clip files all carry a number, the next number is always found |
| ClipTrimming.StoredTidy | scr/videos_descargados_landmarks.py:167-189 | creating a folder and writing numbered clips into it keep every clip number parseable |
| ClipTrimming.TidyTrimAllFinishes | scr/videos_descargados_landmarks.py:175-193 | starting from folders whose clip files all carry a number, with every video at hand, the script gets through every entry |
| ClipTrimming.TrimVideos | scr/videos_descargados_landmarks.py:175-193 | the script's loop leaves the listings of its specification and stops at the first entry that fails |

## Left out

- Hand detection, camera and video decoding, drawing, `imshow` and `waitKey` are foreign calls: the hands of a frame, whether a read succeeds, whether a camera or video opens, and the key code are inputs.
- Pixel operations (`fastNlMeansDenoisingColored`, `equalizeHist`, colour conversion, `resize`, `flip`) are opaque functions on an opaque frame type; only their order and the `try/except` fallback are modelled.
- Float values and their text: a coordinate or time field is `Num(value, format)` with the format (`str()`, six or nine decimals) named but not rendered; rounding is not modelled.
- Clocks (`time.time`, `strftime`, `datetime`) are inputs: each detected hand carries its clock reading and its time stamp, each tick its display time.
- The estimator's confidence thresholds and `max_num_hands` are configuration; the one-hand limit appears only as a hypothesis, in `Capturas.RecordedBound` and `CapturaFinal.NextSavesBound`.
- `scr/deteccion_tiempo_real.py` (model inference) and `scr/landmarks.py` (camera preview) are not part of this model.
- Directories: `os.makedirs` of the data and output folders, and of the ledger's parent folder, are not modelled; paths are strings joined with `/`, and `INPUT_DIR`/`OUTPUT_DIR` are parameters.
- The `.mp4` preview written by `cv2.VideoWriter`, the debug frames of `video_to_landmark.py`, and image contents are left out. Image file names in `captura_landmarks_final.py` are modelled; the pixels written are not.
- Progress bars, `print`, `input` prompts and the final reports on the console are left out; the reported totals are returned values.
- `KeyboardInterrupt` handling in `captura_landmarks_final.py` and the `finally` clean-up are left out; an interrupted session is a shorter sequence of ticks.
- CSV buffering and flushing are not modelled: every row is on disk once written.
- moviepy's `subclip` and `write_videofile` are reduced to "the folder gains `clip_<N>.mp4`"; a cut that ends beyond the video's duration, which moviepy rejects, is not modelled.
- Text.Lower: `str.lower()` is modelled on ASCII and Latin-1 letters only, because full Unicode case mapping (which can change a string's length) is outside the model.
- Text.Upper: modelled on a-z and U+00E0..U+00FE except U+00F7; `str.upper()` also maps U+00DF to "SS" (the length changes), U+00FF to U+0178 and U+00B5 to U+039C, which the model leaves unchanged. The scripts only upper-case the estimator's handedness label or "Unknown".
- Text.ParseInt: `int()` is modelled on ASCII digits, an optional sign and single underscores; Python's acceptance of other Unicode decimal digits is not modelled.
- ClipTrimming.ToSeconds: `convertir_a_segundos` is never called by the script; inputs other than `int`, `float` and `str` are not modelled.
- VideoToLandmark.SortBy: `sorted()` over paths is modelled as code-point order on the names, which is pathlib's order on POSIX systems; on Windows pathlib compares case-folded names (`a.mp4` before `B.mp4`), so ledger rows would be appended in a different order there.
- Ledger.Appended: a file is a sequence of whole rows, so a ledger whose last line lacks its line break cannot be represented; on such a file the first appended row would be joined to the last line.
- CapturePolicy.ClampedCountdownBounds: requires a non-negative elapsed time, because a clock running backwards is outside the model.
- CapturasV2.ManualRows: all manual rows of one key press carry one time stamp, whereas the script reads the clock for each row; the stamps differ only when a second boundary falls between two rows.
- CapturaVideo.Recorder.ProcessFrame: the countdown is stated only for frames of a running take, the only frames on which the script shows it.
- VideoToLandmark.ProcessVideoFile: a video that opens but stops decoding part way is a video with fewer frames; the frame count reported by `CAP_PROP_FRAME_COUNT` and the frame rate only feed the progress bar and are left out.
