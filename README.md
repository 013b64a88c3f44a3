# RobusDraw playback core in Dafny

RobusDraw drives a drawing robot from a text file on an SD card. Each
drawing file has three parts:

- an info section: name, width, height and point count;
- a settings section: the follow tuning;
- after a `DRAWING_START` line, one waypoint per line: `x y COLOUR boundary`.

This project models the parts of the firmware that carry the logic:

- **The colour catalogue** (`src/PencilColor.cpp`), in module `PencilColors`.
  It covers colour names, parsing colours from text, and the colour-servo
  angle of each colour.
- **The string helpers** `startsWith`, `indexOf`, `substring` and `split`, and
  C's `atoi` (module `Text`). `startsWith`, `indexOf` and `atoi` are
  functions. `substring` and `split` are loops, and they are methods proved
  against the functions that specify them.
- **`getFileNextLine`** (module `LineReader`). The drawing file is its
  character content and a cursor. `NextLine` is which line one call reads
  and where the cursor ends up. `LinesFrom` is every line that repeated
  calls read.
- **The header scan of `loadDrawing`** (module `Header`).
  - The first loop is a fold, `ScanHeader`, of one step function, `Step`.
  - `LoadVerdict` proves that the loops succeed exactly on files that are
    `Accepted`. A file is accepted when some prefix of its lines closes both
    sections (each after its latest start tag) and a `DRAWING_START` line
    follows that prefix.
  - The key lines and their precedence are covered by one lemma per key.
- **The playback values and rules** (module `Drawing`).
  - The lifecycle predicates and transitions: load, start, pause, resume,
    stop and restart.
  - The colour change, with its settling time.
  - The decoding of a point line.
- **The engine itself** (module `Playback`). The globals of `RobusDraw.cpp`
  become the fields of class `Engine`. Every operation becomes a method:
  - `loadDrawing` and its two loops;
  - `getFileNextLine`;
  - `loadNextPoint`, `setPencilColor`, `setPencilDown` and `timeout`;
  - the lifecycle operations;
  - `update`.

  The servo and motion calls the engine makes are appended to `log`, so
  each method's contract states the exact commands it issues. The position
  query of `update` (`getPosition`) leaves no trace: the distance test it
  feeds is the `reached` input.
- **The SD-card presence notifier** (`src/SDState.cpp`): class
  `SdState.CardMonitor`. What it guarantees over any run of refreshes is
  proved about a pure reference, `Refreshes`. The listener is called at most
  once per reading. It is never given UNKNOWN, never given the same state
  twice in a row, and last given the final state.

The outside world becomes inputs:

| outside world | model |
|---|---|
| `SD.exists`, `SD.open` | `found`, `opens` and the file's `content` |
| `SD.begin` | `present` |
| `millis()` | `now` |
| the `dist(...) < precision` test of `update` | `reached` |
| floats produced by `atof` | kept symbolic, as `Atof(text)` |

### Behaviour of the code worth knowing

- **A missing path.** `loadDrawing` on a path that does not exist returns
  false before anything is reset (`src/RobusDraw.cpp:82-85`). A drawing
  loaded before stays loaded, and `Playback.Engine.LoadDrawing` states
  `unchanged(this)` for that case.
- **No media check.** `isDrawingLoaded` is `state.loaded` only
  (`src/RobusDraw.cpp:251-253`). It does not consult the media-presence
  signal.
- **Start while paused.** A paused drawing satisfies the guard of
  `startDrawing` (`src/RobusDraw.cpp:201-208`). Starting it sends the point
  index back to 0 without rewinding the file (`Drawing.StartWhilePaused`).
- **The last character of a file is lost.** `getFileNextLine` tests
  `available() == 0` after each `read()` (`src/RobusDraw.cpp:317-324`). It
  therefore drops the last character of a file that does not end in a
  newline (`LineReader.LastCharacterLost`).
- **The three checks.** The checks at the end of `loadDrawing`
  (`src/RobusDraw.cpp:181-196`) each only return false. The model joins
  them in one conjunction.

## Model

| member | source | states |
|---|---|---|
| PencilColors.ToString | src/PencilColor.cpp:3-18 | Every colour's name is one of the five catalogue names. |
| PencilColors.FromString | src/PencilColor.cpp:20-35 | A colour other than NONE comes from exactly its own name. Any text outside the catalogue gives NONE. |
| PencilColors.ToAngle | src/PencilColor.cpp:37-52 | Servo angles lie in 0..130, and the angle is 0 exactly for NONE. |
| PencilColors.NameRoundTrip | src/PencilColor.cpp:3-35 | Parsing a colour's name gives the colour back. |
| PencilColors.ColorRoundTrip | src/PencilColor.cpp:3-35 | A known name survives name, then colour, then name. Any other text comes back as "NONE". |
| PencilColors.LowerCaseIsUnknown | src/PencilColor.cpp:20-35 | Matching is case-sensitive. |
| PencilColors.SharedAngle | src/PencilColor.cpp:37-52 | Two colours share an angle exactly when they are equal or are BLACK and BLUE. |
| Text.StartsWith | src/RobusDraw.cpp:327-339 | startsWith as a function: false when `start` is longer than the text, else a character-by-character comparison. `Text.StartsWithMeaning` is its partner. |
| Text.StartsWithMeaning | src/RobusDraw.cpp:327-339 | startsWith holds if and only if the text is long enough and its prefix equals `start`. |
| Text.IndexOf | src/RobusDraw.cpp:341-348 | The result is -1 or an index into the text. |
| Text.IndexOfMeaning | src/RobusDraw.cpp:341-348 | -1 exactly when the character is absent. Otherwise the index of its first occurrence. |
| Text.Substring | src/RobusDraw.cpp:350-356 | The copy is the text from `index` to the end, or empty when `index` is past the end. |
| Text.Split | src/RobusDraw.cpp:358-366 | The loop yields exactly `Words(str)`, the tokens strtok yields with delimiter " ". |
| Text.WordsAreTokens | src/RobusDraw.cpp:358-366 | Every token is non-empty and holds no space. |
| Text.WordsSeparated | src/RobusDraw.cpp:358-366 | A space separates tokens. Repeated, leading and trailing spaces add no empty token. |
| Text.WordsOfJoined | src/RobusDraw.cpp:291-298 | Four space-free words joined by spaces split back into those four words. |
| Text.Atoi | src/RobusDraw.cpp:133 | C's atoi: leading white space, an optional sign, then the run of decimal digits. `Text.AtoiOfDecimal` and `Text.AtoiOfNegative` are its round trips. |
| Text.AtoiOfDecimal | src/RobusDraw.cpp:133 | atoi reads back a number written in decimal, whatever non-digit text follows it. |
| Text.AtoiOfNegative | src/RobusDraw.cpp:133 | atoi reads back a negative number written with a minus sign. |
| LineReader.LineStop | src/RobusDraw.cpp:317-324 | The reading loop stops at the line's '\n' or at the file's last character, with no '\n' before the stop. |
| LineReader.LineStopIsFirst | src/RobusDraw.cpp:317-324 | The stop is the first such position. |
| LineReader.NextLine | src/RobusDraw.cpp:314-325 | The line read holds no '\n' and the cursor advances. At the end of the file the line is empty and nothing is consumed. |
| LineReader.NextLineOfTerminated | src/RobusDraw.cpp:314-325 | A line ended by '\n' is read whole and its '\n' is consumed. |
| LineReader.NextLineOfUnterminated | src/RobusDraw.cpp:317-324 | The unterminated last line loses its final character. |
| LineReader.LastCharacterLost | src/RobusDraw.cpp:319 | A file holding just "DRAWING_START" reads as "DRAWING_STAR". |
| LineReader.NulFreeMeaning | src/RobusDraw.cpp:110-112 | The NUL-free condition on a line buffer means that no NUL occurs in the line. |
| Header.ValueOf | src/RobusDraw.cpp:121-124 | The value of a key line starts two characters after its first '=', or is empty past the end. `Header.ValueOfKeyLine` and `Header.ValueWithoutEquals` state its two cases. |
| Header.ApplyInfoKey | src/RobusDraw.cpp:126-134 | The first of name, width, height and pointsCount that the line starts with gets the line's value. `Header.NameLine` to `Header.PointsCountLine`, and `Header.UnknownKeyIgnored`, are its lemmas. |
| Header.ApplySettingsKey | src/RobusDraw.cpp:154-160 | The same rule for the three settings keys, in the source's order. `Header.AngularScaleLine` to `Header.TightnessLine` are its lemmas. |
| Header.Step | src/RobusDraw.cpp:114-166 | One pass of the first loop: open, fill and close the info section, then the settings section. `Header.StepOutsideSections`, `Header.StepInsideInfo`, `Header.StepInsideSettings` and `Header.StepFlags` are its lemmas. |
| Header.ScanHeader | src/RobusDraw.cpp:109-167 | The first loop leaves a suffix of the lines. It stops early only with both sections extracted. |
| Header.SectionFlagsMeaning | src/RobusDraw.cpp:115-140 | A section is being read exactly when its latest start tag is still open. It is extracted exactly when that tag was closed. |
| Header.DoneMeaning | src/RobusDraw.cpp:109-167 | Both sections are extracted exactly when the lines complete the header. |
| Header.ScanFlags | src/RobusDraw.cpp:109-167 | The early-stopping loop ends with the flags of the lines it has read. |
| Header.HeaderPrefixDone | src/RobusDraw.cpp:109-167 | The first loop ends with both sections extracted if and only if the lines it read complete the header. |
| Header.HeaderPrefixShortest | src/RobusDraw.cpp:109-167 | No shorter prefix completes the header. |
| Header.LoadVerdict | src/RobusDraw.cpp:109-194 | Both loops succeed if and only if the file is accepted. |
| Header.LinesUntil | src/RobusDraw.cpp:169-179 | The second loop reads up to and including the first DRAWING_START, or every line when there is none. |
| Header.LinesUntilAt | src/RobusDraw.cpp:169-179 | It stops right after the first DRAWING_START. |
| Header.StepOutsideSections | src/RobusDraw.cpp:114-166 | Outside both sections, a line that is no start tag changes nothing. |
| Header.StepInsideInfo | src/RobusDraw.cpp:120-135 | Inside the info section, a line only updates the field its key names. |
| Header.StepInsideSettings | src/RobusDraw.cpp:148-161 | Inside the settings section, a line only updates the field its key names. |
| Header.ValueWithoutEquals | src/RobusDraw.cpp:121-124 | Without '=', the value starts at the line's second character. |
| Header.ValueOfKeyLine | src/RobusDraw.cpp:121-124 | The value of `key = value` is `value`. |
| Header.NameLine | src/RobusDraw.cpp:126-127 | A `name = v` line sets the name to v. |
| Header.WidthLine | src/RobusDraw.cpp:128-129 | A `width = v` line sets the width from v. |
| Header.HeightLine | src/RobusDraw.cpp:130-131 | A `height = v` line sets the height from v. |
| Header.PointsCountLine | src/RobusDraw.cpp:132-133 | A `pointsCount = n` line sets the point count to n. |
| Header.AngularScaleLine | src/RobusDraw.cpp:154-155 | A `followAngularVelocityScale = v` line sets that setting. |
| Header.VelocityLine | src/RobusDraw.cpp:156-157 | A `followVelocity = v` line sets that setting. It is not taken as the longer key. |
| Header.VelocityIsNotAngularScale | src/RobusDraw.cpp:154-157 | The two keys beginning "follow" are told apart. |
| Header.TightnessLine | src/RobusDraw.cpp:158-159 | A `curveTightness = v` line sets that setting. |
| Header.UnknownKeyIgnored | src/RobusDraw.cpp:126-160 | A line that starts with no key changes no field. |
| Drawing.PencilAngle | src/RobusDraw.cpp:54-57 | The down angle exactly when the pen goes down, the up angle exactly when it goes up. |
| Drawing.IsLoaded | src/RobusDraw.cpp:251-253 | isDrawingLoaded is the loaded flag alone. Its partners are `Drawing.LoadedPhases` and `Drawing.UnloadedIsIdle`. |
| Drawing.IsRunning | src/RobusDraw.cpp:243-245 | isDrawingRunning: drawing and loaded. |
| Drawing.IsFinished | src/RobusDraw.cpp:247-249 | isDrawingFinished: the point index has reached pointsCount - 1, and loaded. |
| Drawing.IsPaused | src/RobusDraw.cpp:239-241 | isDrawingPaused: loaded, neither running nor finished. `Drawing.LoadedPhases` proves the three phases exhaustive. |
| Drawing.Start | src/RobusDraw.cpp:201-208 | startDrawing on values: under its guard, running from point 0 with the pen out of the line. `Drawing.StartEffect` is its partner. |
| Drawing.Pause | src/RobusDraw.cpp:225-229 | pauseDrawing on values. `Drawing.PauseEffect` and `Drawing.PauseResumeRoundTrip` are its partners. |
| Drawing.Resume | src/RobusDraw.cpp:219-223 | resumeDrawing on values. `Drawing.ResumeEffect` is its partner. |
| Drawing.Stop | src/RobusDraw.cpp:231-237 | stopDrawing on values: unloaded, idle, at point 0. `Drawing.StopEffect` is its partner. |
| Drawing.CanRestart | src/RobusDraw.cpp:209-210 | The guard of restartDrawing: loaded and not paused. `Drawing.RestartGuard` is its partner. |
| Drawing.Advance | src/RobusDraw.cpp:280-302 | One loadNextPoint on the state: the pen flag toggles after a boundary point, and the index grows by one. `Drawing.AdvanceAllEffect` is its partner. |
| Drawing.DecodePoint | src/RobusDraw.cpp:288-301 | The point a line decodes to, or the resident point when the line has fewer than four tokens. `Drawing.DecodeRecord`, `Drawing.DecodeWrittenPoint` and `Drawing.DecodeShortLine` are its partners. |
| Drawing.NewColor | src/RobusDraw.cpp:59-71 | The colour recorded by setPencilColor: the target when the angle changes, else the current one. `Drawing.ColorRequestSettles` is its partner. |
| Drawing.SettleTime | src/RobusDraw.cpp:64-65 | The wait: the angle distance in whole steps of the between-angle, times the change time. `Drawing.SettleTimeSymmetric` and `Drawing.SettleTimeBound` are its partners. |
| Drawing.ColorCommands | src/RobusDraw.cpp:62-68 | One colour-servo command exactly when the angle changes to a colour other than NONE. `Drawing.BlackBlueIsFree` and `Drawing.NoneIsRecordedOnly` are its partners. |
| Drawing.LoadedPhases | src/RobusDraw.cpp:239-253 | A loaded drawing is paused, running with points left, or finished. Paused excludes the other two. |
| Drawing.UnloadedIsIdle | src/RobusDraw.cpp:239-253 | An unloaded drawing is neither running, paused nor finished. |
| Drawing.StartEffect | src/RobusDraw.cpp:201-208 | start acts exactly when its guard holds. It then runs from point 0 with the pen out of the line. |
| Drawing.ShortDrawingNeverStarts | src/RobusDraw.cpp:247-249 | A drawing of at most one point is finished once loaded and never starts. |
| Drawing.StartWhilePaused | src/RobusDraw.cpp:201-208 | Starting a paused drawing resets its point index. |
| Drawing.PauseEffect | src/RobusDraw.cpp:225-229 | pause acts exactly on a running, unfinished drawing and leaves it paused. |
| Drawing.ResumeEffect | src/RobusDraw.cpp:219-223 | resume acts exactly on a paused drawing and leaves it running. |
| Drawing.PauseResumeRoundTrip | src/RobusDraw.cpp:219-229 | Pausing and then resuming returns to the same state. |
| Drawing.StopEffect | src/RobusDraw.cpp:231-237 | stop always unloads, keeps the colour and is idempotent. |
| Drawing.RestartGuard | src/RobusDraw.cpp:209-210 | restart is accepted exactly on a loaded drawing that is running or finished. |
| Drawing.AdvanceAllEffect | src/RobusDraw.cpp:280-302 | Over a run of points, the index grows by one per point. The pen flag toggles once per boundary point. |
| Drawing.StartedRunFinishes | src/RobusDraw.cpp:201-208 | A started drawing stays running. It is finished after exactly pointsCount - 1 points. |
| Drawing.FinishedWhileRunning | src/RobusDraw.cpp:247-249 | Running and finished hold together after the last advance. |
| Drawing.ColorRequestSettles | src/RobusDraw.cpp:59-71 | After a request, the recorded colour sits at the target angle. Repeating the request does nothing. |
| Drawing.BlackBlueIsFree | src/RobusDraw.cpp:59-71 | Switching between BLACK and BLUE neither moves the servo nor waits. |
| Drawing.NoneIsRecordedOnly | src/RobusDraw.cpp:59-71 | NONE is recorded, with no servo command and no timeout. |
| Drawing.SettleTimeSymmetric | src/RobusDraw.cpp:64-65 | The settling time is the same in both directions. |
| Drawing.SettleTimeBound | src/RobusDraw.cpp:64-65 | No settling time exceeds the NONE-to-GREEN swing. |
| Drawing.DecodeRecord | src/RobusDraw.cpp:288-301 | `x y name flag` decodes to its own fields, with the boundary flag set exactly for "true". |
| Drawing.DecodeWrittenPoint | src/RobusDraw.cpp:291-298 | A point written with its colour's name reads back that colour and flag. |
| Drawing.DecodeShortLine | src/RobusDraw.cpp:293-301 | A line of fewer than four tokens keeps the resident point. |
| Playback.ReadInfoLine | src/RobusDraw.cpp:114-140 | The info flags open, get filled and close as one scan step says. |
| Playback.ReadInfoKey | src/RobusDraw.cpp:126-134 | The key chain sets the field `ApplyInfoKey` names. |
| Playback.ReadSettingsLine | src/RobusDraw.cpp:142-166 | The settings flags open, get filled and close as one scan step says. |
| Playback.ReadSettingsKey | src/RobusDraw.cpp:154-160 | The key chain sets the field `ApplySettingsKey` names. |
| Playback.LoopsOutcome | src/RobusDraw.cpp:181-198 | The two loops and the three checks give the read outcome. |
| Playback.Engine.constructor | src/RobusDraw.cpp:266-273 | All globals are zero-initialised, with the settings at NaN. |
| Playback.Engine.GetDrawingName | src/RobusDraw.cpp:38-40 | Only the stored name changes, to the argument. |
| Playback.Engine.SetPencilDown | src/RobusDraw.cpp:54-57 | One pen-servo command at the posture's angle. |
| Playback.Engine.Timeout | src/RobusDraw.cpp:309-312 | The deadline is now + time, with the given posture. |
| Playback.Engine.SetPencilColor | src/RobusDraw.cpp:59-71 | New colour, timeout and servo commands as the colour-change rule says. |
| Playback.Engine.CloseFile | src/RobusDraw.cpp:100 | Nothing more is read from a closed file. |
| Playback.Engine.GetFileNextLine | src/RobusDraw.cpp:314-325 | Returns `NextLine`'s line and leaves the cursor after it. |
| Playback.Engine.LoadNextPoint | src/RobusDraw.cpp:279-307 | Outside its guard nothing changes. Inside it, the line is decoded, the state advances, and colour and timeout follow the new point. |
| Playback.Engine.ReadPoint | src/RobusDraw.cpp:285-301 | The resident point becomes the decoding of the next line. |
| Playback.Engine.LoadDrawing | src/RobusDraw.cpp:81-199 | A missing path changes nothing. A failed open resets and closes. An opened file loads if and only if it is `Accepted`, with the outcome `LoadedFrom` describes. The point, timeout and log are outside its frame. |
| Playback.LoadedFrom | src/RobusDraw.cpp:93-198 | After an opened load: the verdict is `Accepted`'s, state, info and settings are the header loop's, the file stays open, at the first point line on success and at its end on failure. |
| Playback.Engine.LoadOpened | src/RobusDraw.cpp:93-198 | The reset and the reading of an opened file end as `LoadedFrom` says. |
| Playback.Engine.ResetForLoad | src/RobusDraw.cpp:93-100 | The state and settings are reset and the old file is closed. |
| Playback.Engine.OpenDrawing | src/RobusDraw.cpp:101-198 | Reads the header and skips to DRAWING_START, with the outcome `ReadOutcome` describes. The file stays open, and a failed load leaves the cursor at its end. |
| Playback.Engine.ReadHeader | src/RobusDraw.cpp:109-167 | The first loop ends in the state and at the lines of `ScanHeader`. |
| Playback.Engine.ReadHeaderLine | src/RobusDraw.cpp:110-166 | One pass is one `Step` over the next line. |
| Playback.Engine.SkipToDrawingStart | src/RobusDraw.cpp:169-179 | Found if and only if DRAWING_START remains. If found, the cursor is right after the first one, otherwise at the end of the file. |
| Playback.Engine.StartDrawing | src/RobusDraw.cpp:201-208 | The state is `Start`'s. The pen is lifted exactly when the guard holds. |
| Playback.Engine.RestartDrawing | src/RobusDraw.cpp:209-217 | Refused while not permitted. Otherwise the same content is reloaded and started: state, info, settings, the open flag, the cursor (after DRAWING_START on success, at the end on failure) and the one pen command. |
| Playback.Engine.ResumeDrawing | src/RobusDraw.cpp:219-223 | The state is `Resume`'s. |
| Playback.Engine.PauseDrawing | src/RobusDraw.cpp:225-229 | The state is `Pause`'s. |
| Playback.Engine.StopDrawing | src/RobusDraw.cpp:231-237 | The state is `Stop`'s and the file is closed. |
| Playback.Engine.Update | src/RobusDraw.cpp:12-36 | Each branch of the tick: the exact commands issued, and the state after it. The index stays in range. |
| SdState.ExactlyOneHolds | src/SDState.cpp:52-70 | Exactly one of the three card queries holds. |
| SdState.RefreshReadsCard | src/SDState.cpp:23-30 | After a refresh the state is the reading's, never UNKNOWN. |
| SdState.RefreshNotifiesOnChange | src/SDState.cpp:23-30 | The listener gets the new state exactly when it differs. Otherwise it is not called. |
| SdState.SecondRefreshSilent | src/SDState.cpp:23-30 | A second refresh with the same reading never notifies. |
| SdState.RefreshOnce | src/SDState.cpp:23-30 | One refresh on values: the reading's state, and one notification exactly when it differs. `SdState.RefreshReadsCard` and `SdState.RefreshNotifiesOnChange` are its partners. |
| SdState.RefreshesEndAtLastReading | src/SDState.cpp:23-30 | After a run of refreshes the state is the last reading's. |
| SdState.RefreshesAlternate | src/SDState.cpp:23-30 | At most one call per reading, never UNKNOWN, no state twice in a row, and the last call gives the final state. |
| SdState.CardMonitor.constructor | src/SDState.cpp:78-93 | Pin 0, state UNKNOWN, no listener. |
| SdState.CardMonitor.RegisterCard | src/SDState.cpp:13-15 | Only the chip-select pin changes. |
| SdState.CardMonitor.Refresh | src/SDState.cpp:23-30 | State and listener calls as `RefreshOnce`. Each call sees the old state still stored. |
| SdState.CardMonitor.SetListener | src/SDState.cpp:36-38 | Only the listener changes. |
| SdState.CardMonitor.GetCardState | src/SDState.cpp:44-46 | The stored state. |
| SdState.CardMonitor.IsCardPresent | src/SDState.cpp:52-54 | The stored state is PRESENT. `SdState.ExactlyOneHolds` is the partner of the three queries. |
| SdState.CardMonitor.IsCardNotPresent | src/SDState.cpp:60-62 | The stored state is NOT_PRESENT. |
| SdState.CardMonitor.IsCardStateUnknown | src/SDState.cpp:68-70 | The stored state is UNKNOWN. |

## Left out

- `initialize` and the card side of `SDState::refresh` (`SERVO_Enable`, `SD.begin`): hardware I/O. Their results are inputs (`present`).
- `main.cpp`, the outer menu loop: it is not part of this model.
- `getProgress`: floating-point division.
- `setPrecision`, `getPrecision` and the `dist < precision` test of `update`: floating point. The test is the `reached` input.
- `getDrawingWidth`, `getDrawingHeight`, `getDrawingSize`, `getDrawingInfo`, `getDrawingSettings` and `getLoadedPoint`: plain field reads of the `Engine` fields.
- `RobusPosition` and `RobusMovement`: external subsystems. Their calls are recorded as `Command`s.
- `Serial.println` diagnostics: output only.
- Floating-point values: `atof` is kept symbolic as `Atof(text)`, and `fabs` is applied to whole numbers.
- Playback.Engine.Timeout: `millis() + time` is an unbounded sum. The wrap-around of `unsigned long` is not modelled.
- Text.Atoi: overflow of `int` is undefined in C and is not modelled.
- Header.ApplyInfoKey: the `name[20]` buffer is not modelled, so a name of 20 characters or more (an overflow in C) is stored whole. The same holds for `Playback.Engine.GetDrawingName`.
- Playback.Engine.LoadDrawing: a line of 50 characters or more, or one with a NUL inside, overruns or truncates the C buffer. `LoadFits` requires that no line the loops read is like that.
- Playback.Engine.LoadNextPoint: `PointLineFits` requires that the point line fits its 100-character buffer, has no NUL and has at most the 8 tokens the token array holds.
- Playback.Engine.RestartDrawing: `state.drawingFile.name()` is read after `loadDrawing` has reset `state`. The model reloads the stored content, with `found` and `opens` as inputs.
- SdState.CardMonitor.Refresh: calling an unset listener is undefined, so a change of state requires a listener.
- `UNKNOWN` as a colour name (`default:` branches of `src/PencilColor.cpp`): it is unreachable for the five enumerators, which are the only values of `PencilColor`.
- The `color` field of the drawing state: it is not declared in `src/RobusDraw.h`. `DrawingState.color` models the field `setPencilColor` reads and writes, zero-initialised to BLACK.
- File handles: `SD.open` on a new path while an old one is open is modelled as a replacement. No descriptor is leaked or shared.
- Buffers are modelled as `string` values. Pointer aliasing between `line` and the `tokens` strtok writes into is not modelled.
