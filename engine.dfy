/** The drawing playback engine: the module-level globals of RobusDraw
    (state, info, settings, loadedPoint, timeoutState and the open drawing
    file) as the fields of one object, and its operations as methods.

    The drawing file is its content, a cursor (the index of the next
    character read() returns) and whether it is open; a closed file reads
    as if at its end.  The servo, position and movement calls the engine
    makes are appended to `log`, except the position query of update:
    its distance test is the `reached` argument, so getPosition leaves no
    trace.  The clock is the `now` argument. */
module Playback {
  import opened PencilColors
  import opened Text
  import opened LineReader
  import opened Header
  import opened Drawing

  /** Every line loadDrawing reads from `content` (the header, then up to
      the DRAWING_START line) fits its 50-character buffer. */
  predicate LoadFits(content: string, info: DrawingInfo)
  {
    HeaderFits(content, 0, StartScan(info))
  }

  /** The lines the first loop reads from `c` on, in scan state `s`, fit,
      and so do the lines the second loop then reads. */
  predicate HeaderFits(content: string, c: nat, s: Scan)
    requires c <= |content|
    decreases |content| - c
  {
    if Done(s) then SkipFits(content, c)
    else if c == |content| then true
    else
      var next := NextLine(content, c);
      FitsBuffer(next.line, 50) && HeaderFits(content, next.next, Step(s, next.line))
  }

  /** The lines the second loop reads from `c` on, up to and including
      the first DRAWING_START, fit. */
  predicate SkipFits(content: string, c: nat)
    requires c <= |content|
    decreases |content| - c
  {
    c == |content| ||
    var next := NextLine(content, c);
    FitsBuffer(next.line, 50) && (next.line == DRAWING_START_TAG || SkipFits(content, next.next))
  }

  /** Before the first loop stops, its next line fits ... */
  lemma HeaderFitsStep(content: string, c: nat, s: Scan)
    requires c < |content| && !Done(s) && HeaderFits(content, c, s)
    ensures FitsBuffer(NextLine(content, c).line, 50)
  {
  }

  /** One pass of the first loop before it stops: the scan of the lines
      left goes on from the step over the line read, at the cursor `c'`
      and in the scan state `s'` after the line ... */
  lemma HeaderStep(content: string, c: nat, s: Scan, c': nat, s': Scan)
    requires c < |content| && !Done(s)
    requires c' == NextLine(content, c).next && s' == Step(s, NextLine(content, c).line)
    ensures c' <= |content| && ScanHeader(s', LinesFrom(content, c')) == ScanHeader(s, LinesFrom(content, c))
  {
    LinesFromNext(content, c);
  }

  /** ... and the lines it reads after that one fit. */
  lemma HeaderFitsAfter(content: string, c: nat, s: Scan, c': nat, s': Scan)
    requires c < |content| && !Done(s) && HeaderFits(content, c, s)
    requires c' == NextLine(content, c).next && s' == Step(s, NextLine(content, c).line)
    ensures c' <= |content| && HeaderFits(content, c', s')
  {
  }

  /** When the first loop stops, what is left is the rest of the lines,
      and the second loop's lines fit. */
  lemma HeaderEnd(content: string, c: nat, s: Scan)
    requires c <= |content| && HeaderFits(content, c, s) && (Done(s) || c == |content|)
    ensures ScanHeader(s, LinesFrom(content, c)) == ScanEnd(s, LinesFrom(content, c))
    ensures SkipFits(content, c)
  {
  }

  /** Before DRAWING_START, the second loop's next line fits, and so do
      the lines after it. */
  lemma SkipFitsStep(content: string, c: nat)
    requires c < |content| && SkipFits(content, c)
    ensures var next := NextLine(content, c);
      FitsBuffer(next.line, 50) && (next.line != DRAWING_START_TAG ==> SkipFits(content, next.next))
  {
  }

  /** The next point line fits its 100-character buffer and has at most
      the eight tokens the token array holds. */
  predicate PointLineFits(content: string, cursor: nat)
    requires cursor <= |content|
  {
    var line := NextLine(content, cursor).line;
    FitsBuffer(line, 100) && |Words(line)| <= 8
  }

  /** The info part of one pass of loadDrawing's first loop: the start
      tag opens the section and forgets an earlier extraction, a line read
      while the section is open sets the field of its key, and the end tag
      closes an open section and marks it extracted. */
  method ReadInfoLine(line: string, readingInfo: bool, infoExtracted: bool, info: DrawingInfo)
    returns (readingInfo': bool, infoExtracted': bool, info': DrawingInfo)
    ensures var started := Open((readingInfo, infoExtracted), line, INFO_START_TAG);
      && (readingInfo', infoExtracted') == Close(started, line, INFO_END_TAG)
      && info' == if started.0 then ApplyInfoKey(info, line) else info
  {
    readingInfo', infoExtracted', info' := readingInfo, infoExtracted, info;
    if line == INFO_START_TAG {
      readingInfo' := true;
      infoExtracted' := false;
    }
    if readingInfo' {
      var index := IndexOf(line, '=') + 2;
      var substr := Substring(line, index);
      info' := ReadInfoKey(info', line, substr);
    }
    if readingInfo' && line == INFO_END_TAG {
      readingInfo' := false;
      infoExtracted' := true;
    }
  }

  /** The field of the first info key, in the order name, width, height,
      pointsCount, that `line` starts with, set from `substr`.  This is the
      chain as the loop runs it, on the value already copied out;
      `ApplyInfoKey` is the same rule as a function, for the proofs. */
  method ReadInfoKey(info: DrawingInfo, line: string, substr: string) returns (info': DrawingInfo)
    requires substr == ValueOf(line)
    ensures info' == ApplyInfoKey(info, line)
  {
    info' := info;
    if StartsWith("name", line) {
      info' := info'.(name := substr);
    } else if StartsWith("width", line) {
      info' := info'.(width := Atof(substr));
    } else if StartsWith("height", line) {
      info' := info'.(height := Atof(substr));
    } else if StartsWith("pointsCount", line) {
      info' := info'.(pointsCount := Atoi(substr));
    }
  }

  /** The settings part of one pass of loadDrawing's first loop. */
  method ReadSettingsLine(line: string, readingSettings: bool, settingsExtracted: bool, settings: DrawingSettings)
    returns (readingSettings': bool, settingsExtracted': bool, settings': DrawingSettings)
    ensures var started := Open((readingSettings, settingsExtracted), line, SETTINGS_START_TAG);
      && (readingSettings', settingsExtracted') == Close(started, line, SETTINGS_END_TAG)
      && settings' == if started.0 then ApplySettingsKey(settings, line) else settings
  {
    readingSettings', settingsExtracted', settings' := readingSettings, settingsExtracted, settings;
    if line == SETTINGS_START_TAG {
      readingSettings' := true;
      settingsExtracted' := false;
    }
    if readingSettings' {
      var index := IndexOf(line, '=') + 2;
      var substr := Substring(line, index);
      settings' := ReadSettingsKey(settings', line, substr);
    }
    if readingSettings' && line == SETTINGS_END_TAG {
      readingSettings' := false;
      settingsExtracted' := true;
    }
  }

  /** The field of the first settings key, in the order
      followAngularVelocityScale, followVelocity, curveTightness, that
      `line` starts with, set from `substr`.  As with ReadInfoKey, the
      function `ApplySettingsKey` is the rule this chain implements. */
  method ReadSettingsKey(settings: DrawingSettings, line: string, substr: string) returns (settings': DrawingSettings)
    requires substr == ValueOf(line)
    ensures settings' == ApplySettingsKey(settings, line)
  {
    settings' := settings;
    if StartsWith("followAngularVelocityScale", line) {
      settings' := settings'.(followAngularVelocityScale := Atof(substr));
    } else if StartsWith("followVelocity", line) {
      settings' := settings'.(followVelocity := Atof(substr));
    } else if StartsWith("curveTightness", line) {
      settings' := settings'.(curveTightness := Atof(substr));
    }
  }

  /** Reading a line from the file takes the first of the lines the file
      still holds, which is line `read` of `lines`. */
  lemma ReadLineAt(content: string, c: nat, lines: seq<string>, read: nat)
    requires c < |content| && read <= |lines| && LinesFrom(content, c) == lines[read..]
    ensures var next := NextLine(content, c);
      && read < |lines| && lines[read] == next.line
      && LinesFrom(content, next.next) == lines[read + 1..]
  {
    LinesFromNext(content, c);
    var next := NextLine(content, c);
    Uncons(lines, read, next.line, LinesFrom(content, next.next));
  }

  lemma Uncons(lines: seq<string>, read: nat, first: string, tail: seq<string>)
    requires read <= |lines| && lines[read..] == [first] + tail
    ensures read < |lines| && lines[read] == first && lines[read + 1..] == tail
  {
    assert lines[read..][0] == first;
    assert lines[read..][1..] == lines[read + 1..];
  }

  /** One pass of loadDrawing's second loop, on the lines: the line read
      is the next of `rest`, and when it is DRAWING_START the loop has read
      exactly the lines up to the first one. */
  lemma SkipStep(rest: seq<string>, skipped: nat, line: string)
    requires skipped < |rest| && rest[skipped] == line
    requires DRAWING_START_TAG !in rest[..skipped]
    ensures skipped < LinesUntil(rest, DRAWING_START_TAG)
    ensures line == DRAWING_START_TAG ==> LinesUntil(rest, DRAWING_START_TAG) == skipped + 1
    ensures line != DRAWING_START_TAG ==> DRAWING_START_TAG !in rest[..skipped + 1]
  {
    TakeOneMore(rest, skipped);
    TagNotBefore(rest, skipped);
    if line == DRAWING_START_TAG {
      LinesUntilAt(rest, DRAWING_START_TAG, skipped);
    }
  }

  lemma TakeOneMore(rest: seq<string>, k: nat)
    requires k < |rest|
    ensures rest[..k + 1] == rest[..k] + [rest[k]]
  {
  }

  /** With no DRAWING_START among the first `skipped` lines, the second
      loop reads more than `skipped` lines. */
  lemma TagNotBefore(rest: seq<string>, skipped: nat)
    requires skipped < |rest| && DRAWING_START_TAG !in rest[..skipped]
    ensures skipped < LinesUntil(rest, DRAWING_START_TAG)
  {
    assert forall j :: 0 <= j < skipped ==> rest[j] == rest[..skipped][j];
  }

  /** The scan state after one line, assembled from its two sections. */
  lemma StepOfSections(s: Scan, line: string, infoPart: (bool, bool, DrawingInfo), settingsPart: (bool, bool, DrawingSettings))
    requires var started := Open((s.readingInfo, s.infoExtracted), line, INFO_START_TAG);
      && (infoPart.0, infoPart.1) == Close(started, line, INFO_END_TAG)
      && infoPart.2 == if started.0 then ApplyInfoKey(s.info, line) else s.info
    requires var started := Open((s.readingSettings, s.settingsExtracted), line, SETTINGS_START_TAG);
      && (settingsPart.0, settingsPart.1) == Close(started, line, SETTINGS_END_TAG)
      && settingsPart.2 == if started.0 then ApplySettingsKey(s.settings, line) else s.settings
    ensures Scan(infoPart.0, infoPart.1, settingsPart.0, settingsPart.1, infoPart.2, settingsPart.2) == Step(s, line)
  {
  }

  /** An engine state after loadDrawing has read `content`, starting from
      drawing info `before`: the verdict is that of Accepted, the state,
      info and settings are what the header loop leaves, and the file
      stays open, at the first point line when the load succeeded and at
      its end when it failed. */
  ghost predicate LoadedFrom(content: string, before: DrawingInfo, ok: bool, state: DrawingState, info: DrawingInfo,
                             settings: DrawingSettings, file: string, cursor: nat, fileOpen: bool)
  {
    var lines := LinesFrom(content, 0);
    && (ok <==> Accepted(lines))
    && file == content && fileOpen && cursor <= |file|
    && ReadOutcome(lines, before, ok, state, info, settings, LinesFrom(file, cursor))
    && (!ok ==> cursor == |file|)
  }

  /** What LoadedFrom says, one fact at a time, in the form RestartDrawing
      states it. */
  lemma LoadedFromParts(content: string, before: DrawingInfo, ok: bool, state: DrawingState, info: DrawingInfo,
                        settings: DrawingSettings, file: string, cursor: nat, fileOpen: bool)
    requires LoadedFrom(content, before, ok, state, info, settings, file, cursor, fileOpen)
    ensures var lines := LinesFrom(content, 0);
      var r := ScanHeader(StartScan(before), lines);
      && ok == Accepted(lines)
      && info == r.scan.info && settings == r.scan.settings && state == FreshState(ok)
      && file == content && fileOpen && cursor <= |file|
      && (ok ==> LinesFrom(file, cursor) == r.rest[LinesUntil(r.rest, DRAWING_START_TAG)..])
      && (!ok ==> cursor == |file|)
  { }

  /** The two loops of loadDrawing together: the scan of the header
      followed by the search for DRAWING_START in the lines it leaves, and
      the three checks, give the outcome of reading the drawing. */
  lemma LoopsOutcome(lines: seq<string>, before: DrawingInfo, infoExtracted: bool, settingsExtracted: bool,
                     found: bool, info: DrawingInfo, settings: DrawingSettings, rest: seq<string>, remaining: seq<string>,
                     atEnd: bool)
    requires var r := ScanHeader(StartScan(before), lines);
      && infoExtracted == r.scan.infoExtracted && settingsExtracted == r.scan.settingsExtracted
      && info == r.scan.info && settings == r.scan.settings && rest == r.rest
    requires found <==> DRAWING_START_TAG in rest
    requires found ==> remaining == rest[LinesUntil(rest, DRAWING_START_TAG)..]
    requires !found ==> atEnd
    ensures var ok := infoExtracted && settingsExtracted && found;
      ReadOutcome(lines, before, ok, FreshState(ok), info, settings, remaining)
    ensures !(infoExtracted && settingsExtracted && found) ==> atEnd
  {
  }

  class Engine {
    var state: DrawingState
    var info: DrawingInfo
    var settings: DrawingSettings
    var loadedPoint: DrawingPoint
    var timeoutState: TimeoutState

    var file: string
    var cursor: nat
    var fileOpen: bool

    var log: seq<Command>

    /** Degrees of colour-servo travel per settling step. */
    const betweenAngle: nat
    /** Milliseconds of settling per step. */
    const changeTime: nat

    ghost predicate Valid()
      reads this
    {
      cursor <= |file| && betweenAngle > 0
    }

    /** The point index stays within the drawing: at its start, or at most
        at the last point. */
    predicate IndexInRange()
      reads this
    {
      state.pointIndex == 0 || state.pointIndex <= info.pointsCount - 1
    }

    /** Every global zero-initialised, the settings at NaN. */
    constructor (betweenAngle: nat, changeTime: nat)
      requires betweenAngle > 0
      ensures Valid()
      ensures this.betweenAngle == betweenAngle && this.changeTime == changeTime
      ensures state == EmptyState && info == EmptyInfo && settings == DefaultSettings
      ensures loadedPoint == EmptyPoint && timeoutState == EmptyTimeout
      ensures file == [] && cursor == 0 && !fileOpen && log == []
    {
      this.betweenAngle := betweenAngle;
      this.changeTime := changeTime;
      state := EmptyState;
      info := EmptyInfo;
      settings := DefaultSettings;
      loadedPoint := EmptyPoint;
      timeoutState := EmptyTimeout;
      file := [];
      cursor := 0;
      fileOpen := false;
      log := [];
    }

    predicate IsDrawingLoaded()
      reads this
    {
      IsLoaded(state)
    }

    predicate IsDrawingRunning()
      reads this
    {
      IsRunning(state)
    }

    predicate IsDrawingFinished()
      reads this
    {
      IsFinished(state, info)
    }

    predicate IsDrawingPaused()
      reads this
    {
      IsPaused(state, info)
    }

    /** The guard of update's drawing branch. */
    predicate Drawable(now: int)
      reads this
    {
      IsDrawingLoaded() && IsDrawingRunning() && !IsDrawingFinished() && !InTimeout(timeoutState, now)
    }

    /** getDrawingName copies its argument into the stored name: the
        arguments of its strcpy are the other way round from a getter's. */
    method GetDrawingName(name: string)
      modifies this`info
      ensures info == old(info).(name := name)
    {
      info := info.(name := name);
    }

    // -------------------------------------------------------------------
    // Pen actuator

    method SetPencilDown(enabled: bool)
      modifies this`log
      ensures log == old(log) + [PencilServo(PencilAngle(enabled))]
    {
      var angle := if enabled then PENCIL_DOWN_ANGLE else PENCIL_UP_ANGLE;
      log := log + [PencilServo(angle)];
    }

    /** Arms the settling deadline `time` milliseconds after `now`,
        overwriting any earlier one. */
    method Timeout(time: nat, isPencilDown: bool, now: int)
      modifies this`timeoutState
      ensures timeoutState == TimeoutState(now + time, isPencilDown)
    {
      timeoutState := TimeoutState(now + time, isPencilDown);
    }

    method SetPencilColor(color: PencilColor, now: int)
      requires Valid()
      modifies this`state, this`timeoutState, this`log
      ensures state == old(state).(color := NewColor(old(state).color, color))
      ensures timeoutState ==
        if ArmsTimeout(old(state).color, color)
        then TimeoutState(now + SettleTime(old(state).color, color, betweenAngle, changeTime), false)
        else old(timeoutState)
      ensures log == old(log) + ColorCommands(old(state).color, color)
    {
      var currentAngle := ToAngle(state.color);
      var targetAngle := ToAngle(color);
      if currentAngle != targetAngle {
        if color != NONE {
          var delta := targetAngle - currentAngle;
          var distance := (if delta < 0 then -delta else delta) / betweenAngle;
          assert distance * changeTime == SettleTime(state.color, color, betweenAngle, changeTime);
          Timeout(distance * changeTime, false, now);
          log := log + [ColorServo(targetAngle)];
        }
        state := state.(color := color);
      }
    }

    // -------------------------------------------------------------------
    // Drawing file

    /** drawingFile.close(): later reads find nothing. */
    method CloseFile()
      requires Valid()
      modifies this`cursor, this`fileOpen
      ensures Valid() && cursor == |file| && !fileOpen
    {
      cursor := |file|;
      fileOpen := false;
    }

    /** Reads characters into a buffer of `size` until a '\n' or until the
        file has nothing more available; the '\n', and the character after
        which nothing is available, are consumed but not stored. */
    method GetFileNextLine(size: nat) returns (line: string)
      requires Valid()
      requires |NextLine(file, cursor).line| < size
      modifies this`cursor
      ensures Valid()
      ensures line == NextLine(file, old(cursor)).line
      ensures cursor == NextLine(file, old(cursor)).next
    {
      ghost var start := cursor;
      ghost var stop := LineStop(file, start);
      line := [];
      var i := 0;
      while i < size
        invariant cursor == start + i && start + i <= stop
        invariant line == file[start..cursor]
      {
        var available := cursor < |file|;
        var c := if available then file[cursor] else '\U{FF}';
        if available {
          cursor := cursor + 1;
        }
        if c == '\n' || cursor == |file| {
          if available {
            LineStopIsFirst(file, start, start + i);
          }
          return;
        }
        line := line + [c];
        i := i + 1;
      }
      assert false;
    }

    /** Consumes the next point line: the pen flag toggles on the point
        that was resident, the new line's fields replace the resident
        point when it has at least four tokens, the index advances and the
        colour servo is asked for the point's colour.  Once the drawing is
        unloaded or every point is consumed, nothing happens. */
    method LoadNextPoint(now: int) returns (point: DrawingPoint)
      requires Valid()
      requires IsLoaded(state) && state.pointIndex < info.pointsCount ==> PointLineFits(file, cursor)
      modifies this`state, this`loadedPoint, this`cursor, this`timeoutState, this`log
      ensures Valid() && point == loadedPoint
      ensures !(IsLoaded(old(state)) && old(state).pointIndex < info.pointsCount) ==>
        state == old(state) && loadedPoint == old(loadedPoint) && cursor == old(cursor) &&
        timeoutState == old(timeoutState) && log == old(log)
      ensures IsLoaded(old(state)) && old(state).pointIndex < info.pointsCount ==>
        NextPointLoaded(now)
    {
      if IsDrawingLoaded() && state.pointIndex < info.pointsCount {
        if loadedPoint.isBoundary {
          state := state.(inLine := !state.inLine);
        }
        ReadPoint();
        state := state.(pointIndex := state.pointIndex + 1);
        SetPencilColor(loadedPoint.color, now);
      }
      point := loadedPoint;
    }

    /** The part of loadNextPoint that reads the next point line and, when
        it has at least four tokens, decodes it into the resident point. */
    method ReadPoint()
      requires Valid() && PointLineFits(file, cursor)
      modifies this`loadedPoint, this`cursor
      ensures Valid()
      ensures loadedPoint == DecodePoint(old(loadedPoint), NextLine(file, old(cursor)).line)
      ensures cursor == NextLine(file, old(cursor)).next
    {
      var line := GetFileNextLine(100);
      var tokens := Split(line);
      if |tokens| >= 4 {
        loadedPoint := DrawingPoint(Atof(tokens[0]), Atof(tokens[1]), FromString(tokens[2]), tokens[3] == "true");
      }
    }

    /** What loading one point does: the line at the old cursor is read and
        decoded, the state advances past the old resident point and takes
        the new point's colour, and a colour change arms its timeout. */
    twostate predicate NextPointLoaded(now: int)
      reads this
      requires old(cursor) <= |file| && betweenAngle > 0
    {
      var read := NextLine(file, old(cursor));
      var p := DecodePoint(old(loadedPoint), read.line);
      var from := old(state).color;
      && cursor == read.next
      && loadedPoint == p
      && state == Advance(old(state), old(loadedPoint)).(color := NewColor(from, p.color))
      && timeoutState == (if ArmsTimeout(from, p.color)
                          then TimeoutState(now + SettleTime(from, p.color, betweenAngle, changeTime), false)
                          else old(timeoutState))
      && log == old(log) + ColorCommands(from, p.color)
    }

    // -------------------------------------------------------------------
    // Loading

    /** Opens the drawing at a path that exists (`found`) and opens
        (`opens`) with content `content`, reads its header and skips to the
        first DRAWING_START line after it.  It succeeds exactly for
        accepted files; only then is the drawing loaded.  A path that does
        not exist leaves everything as it was.  The loaded point, the
        timeout and the log are outside the frame: no load touches them. */
    method LoadDrawing(found: bool, opens: bool, content: string) returns (ok: bool)
      requires Valid()
      requires found && opens ==> LoadFits(content, info)
      modifies this`state, this`info, this`settings, this`file, this`cursor, this`fileOpen
      ensures Valid()
      ensures !found ==> !ok && unchanged(this)
      ensures found && !opens ==>
        && !ok && state == EmptyState && settings == DefaultSettings && info == old(info)
        && file == old(file) && cursor == |file| && !fileOpen
      ensures found && opens ==> LoadedFrom(content, old(info), ok, state, info, settings, file, cursor, fileOpen)
    {
      ok := false;
      if found {
        if opens {
          ok := LoadOpened(content);
        } else {
          ResetForLoad();
        }
      }
    }

    /** loadDrawing once the file exists and opens: the reset, then the
        reading. */
    method LoadOpened(content: string) returns (ok: bool)
      requires Valid() && LoadFits(content, info)
      modifies this`state, this`info, this`settings, this`file, this`cursor, this`fileOpen
      ensures Valid() && LoadedFrom(content, old(info), ok, state, info, settings, file, cursor, fileOpen)
    {
      ResetForLoad();
      ok := OpenDrawing(content);
      LoadVerdict(old(info), LinesFrom(content, 0));
    }

    /** What loadDrawing does before it opens the file: the state and the
        settings are reset and the previous file is closed. */
    method ResetForLoad()
      requires Valid()
      modifies this`state, this`settings, this`cursor, this`fileOpen
      ensures Valid() && state == EmptyState && settings == DefaultSettings
      ensures cursor == |file| && !fileOpen
    {
      state := EmptyState;
      settings := DefaultSettings;
      CloseFile();
    }

    /** Opens `content` at its start and reads the drawing from it: the
        header loop, the search for DRAWING_START and the three checks,
        each of which fails the load. */
    method OpenDrawing(content: string) returns (ok: bool)
      requires Valid() && state == EmptyState && settings == DefaultSettings
      requires LoadFits(content, info)
      modifies this`state, this`info, this`settings, this`file, this`cursor, this`fileOpen
      ensures Valid() && file == content && fileOpen
      ensures ReadOutcome(LinesFrom(content, 0), old(info), ok, state, info, settings, LinesFrom(file, cursor))
      ensures !ok ==> cursor == |file|
    {
      file, cursor, fileOpen := content, 0, true;
      ghost var lines := LinesFrom(content, 0);
      ghost var before := info;
      ghost var rest := ScanHeader(StartScan(info), lines).rest;
      var infoExtracted, settingsExtracted := ReadHeader();
      var drawingHeaderFound := SkipToDrawingStart(rest);

      // The info, settings and DRAWING_START checks each fail the load.
      ok := infoExtracted && settingsExtracted && drawingHeaderFound;
      state := state.(loaded := ok);
      LoopsOutcome(lines, before, infoExtracted, settingsExtracted, drawingHeaderFound, info, settings, rest, LinesFrom(file, cursor),
                   cursor == |file|);
    }

    /** loadDrawing's first loop: reads lines while the file has more and
        one of the two sections is not yet extracted, opening, filling and
        closing the sections.  It ends in the state of the header scan. */
    method ReadHeader() returns (infoExtracted: bool, settingsExtracted: bool)
      requires Valid() && cursor == 0 && settings == DefaultSettings
      requires HeaderFits(file, 0, StartScan(info))
      modifies this`info, this`settings, this`cursor
      ensures Valid() && SkipFits(file, cursor)
      ensures var r := ScanHeader(StartScan(old(info)), LinesFrom(file, 0));
        && infoExtracted == r.scan.infoExtracted && settingsExtracted == r.scan.settingsExtracted
        && info == r.scan.info && settings == r.scan.settings
        && LinesFrom(file, cursor) == r.rest
    {
      var readingInfo, readingSettings := false, false;
      infoExtracted, settingsExtracted := false, false;
      ghost var final := ScanHeader(StartScan(old(info)), LinesFrom(file, 0));
      while cursor < |file| && (!settingsExtracted || !infoExtracted)
        invariant Valid()
        invariant ScanHeader(Scan(readingInfo, infoExtracted, readingSettings, settingsExtracted, info, settings), LinesFrom(file, cursor)) == final
        invariant HeaderFits(file, cursor, Scan(readingInfo, infoExtracted, readingSettings, settingsExtracted, info, settings))
        decreases |file| - cursor
      {
        ghost var before := Scan(readingInfo, infoExtracted, readingSettings, settingsExtracted, info, settings);
        ghost var start := cursor;
        HeaderFitsStep(file, cursor, before);
        readingInfo, infoExtracted, readingSettings, settingsExtracted :=
          ReadHeaderLine(readingInfo, infoExtracted, readingSettings, settingsExtracted);
        ghost var after := Scan(readingInfo, infoExtracted, readingSettings, settingsExtracted, info, settings);
        HeaderStep(file, start, before, cursor, after);
        HeaderFitsAfter(file, start, before, cursor, after);
      }
      HeaderEnd(file, cursor, Scan(readingInfo, infoExtracted, readingSettings, settingsExtracted, info, settings));
    }

    /** One pass of loadDrawing's first loop: reads the next line and
        takes the header scan one step over it. */
    method ReadHeaderLine(readingInfo: bool, infoExtracted: bool, readingSettings: bool, settingsExtracted: bool)
      returns (readingInfo': bool, infoExtracted': bool, readingSettings': bool, settingsExtracted': bool)
      requires Valid() && cursor < |file| && FitsBuffer(NextLine(file, cursor).line, 50)
      modifies this`info, this`settings, this`cursor
      ensures Valid() && cursor == NextLine(file, old(cursor)).next
      ensures Scan(readingInfo', infoExtracted', readingSettings', settingsExtracted', info, settings)
        == Step(Scan(readingInfo, infoExtracted, readingSettings, settingsExtracted, old(info), old(settings)), NextLine(file, old(cursor)).line)
    {
      ghost var before := Scan(readingInfo, infoExtracted, readingSettings, settingsExtracted, info, settings);
      var line := GetFileNextLine(50);
      readingInfo', infoExtracted', info := ReadInfoLine(line, readingInfo, infoExtracted, info);
      readingSettings', settingsExtracted', settings := ReadSettingsLine(line, readingSettings, settingsExtracted, settings);
      StepOfSections(before, line, (readingInfo', infoExtracted', info), (readingSettings', settingsExtracted', settings));
    }

    /** loadDrawing's second loop: reads lines until one is DRAWING_START
        or the file has no more. */
    method SkipToDrawingStart(ghost rest: seq<string>) returns (drawingHeaderFound: bool)
      requires Valid() && LinesFrom(file, cursor) == rest
      requires SkipFits(file, cursor)
      modifies this`cursor
      ensures Valid()
      ensures drawingHeaderFound <==> DRAWING_START_TAG in rest
      ensures drawingHeaderFound ==> LinesFrom(file, cursor) == rest[LinesUntil(rest, DRAWING_START_TAG)..]
      ensures !drawingHeaderFound ==> cursor == |file|
    {
      ghost var skipped: nat := 0;
      drawingHeaderFound := false;
      while cursor < |file|
        invariant Valid()
        invariant skipped <= |rest| && LinesFrom(file, cursor) == rest[skipped..]
        invariant DRAWING_START_TAG !in rest[..skipped]
        invariant !drawingHeaderFound && SkipFits(file, cursor)
        decreases |file| - cursor
      {
        ReadLineAt(file, cursor, rest, skipped);
        SkipStep(rest, skipped, NextLine(file, cursor).line);
        SkipFitsStep(file, cursor);
        var line := GetFileNextLine(50);
        if line == DRAWING_START_TAG {
          skipped := skipped + 1;
          drawingHeaderFound := true;
          break;
        }
        skipped := skipped + 1;
      }
      if !drawingHeaderFound {
        assert rest[..skipped] == rest;
      }
    }

    // -------------------------------------------------------------------
    // Lifecycle

    method StartDrawing()
      modifies this`state, this`log
      ensures state == Start(old(state), info)
      ensures log == old(log) + (if CanStart(old(state), info) then [PencilServo(PENCIL_UP_ANGLE)] else [])
    {
      if IsDrawingLoaded() && !IsDrawingFinished() && !IsDrawingRunning() {
        state := state.(drawing := true, inLine := false, pointIndex := 0);
        SetPencilDown(state.inLine);
      }
    }

    /** Closes the drawing file, loads the same content again from the
        start and starts it.  Refused while paused. */
    method RestartDrawing(found: bool, opens: bool)
      requires Valid()
      requires CanRestart(state, info) && found && opens ==> LoadFits(file, info)
      modifies this
      ensures Valid()
      ensures !old(CanRestart(state, info)) ==> unchanged(this)
      ensures old(CanRestart(state, info)) && !found ==>
        state == old(state) && info == old(info) && settings == old(settings) &&
        file == old(file) && cursor == |file| && !fileOpen &&
        loadedPoint == old(loadedPoint) && timeoutState == old(timeoutState) && log == old(log)
      ensures old(CanRestart(state, info)) && found ==>
        var lines := LinesFrom(old(file), 0);
        var r := ScanHeader(StartScan(old(info)), lines);
        var ok := opens && Accepted(lines);
        && info == (if opens then r.scan.info else old(info))
        && settings == (if opens then r.scan.settings else DefaultSettings)
        && state == Start(FreshState(ok), info)
        && file == old(file) && fileOpen == opens
        && (ok ==> LinesFrom(file, cursor) == r.rest[LinesUntil(r.rest, DRAWING_START_TAG)..])
        && (!ok ==> cursor == |file|)
        && loadedPoint == old(loadedPoint) && timeoutState == old(timeoutState)
        && log == old(log) + (if CanStart(FreshState(ok), info) then [PencilServo(PENCIL_UP_ANGLE)] else [])
    {
      if IsDrawingLoaded() && !IsDrawingPaused() {
        var content := file;
        CloseFile();
        var ok := LoadDrawing(found, opens, content);
        if found && opens {
          LoadedFromParts(content, old(info), ok, state, info, settings, file, cursor, fileOpen);
        }
        RestartGuard(old(state), old(info));
        StartDrawing();
      }
    }

    method ResumeDrawing()
      modifies this`state
      ensures state == Resume(old(state), info)
    {
      if IsDrawingPaused() {
        state := state.(drawing := true);
      }
    }

    method PauseDrawing()
      modifies this`state
      ensures state == Pause(old(state), info)
    {
      if !IsDrawingPaused() && !IsDrawingFinished() && IsDrawingLoaded() {
        state := state.(drawing := false);
      }
    }

    method StopDrawing()
      requires Valid()
      modifies this`state, this`cursor, this`fileOpen
      ensures Valid()
      ensures state == Stop(old(state)) && cursor == |file| && !fileOpen
    {
      state := state.(loaded := false, inLine := false, drawing := false, pointIndex := 0);
      CloseFile();
    }

    // -------------------------------------------------------------------
    // The tick

    /** One tick.  While the drawing is loaded, running, unfinished and no
        colour change is settling, the robot follows the resident point,
        and once it is `reached` the next point is loaded and becomes the
        target; the pen is set from the pen flag.  Otherwise following and
        movement stop and a settling timeout holds its pen posture.  The
        position subsystem is updated on every tick. */
    method Update(now: int, reached: bool)
      requires Valid()
      requires Drawable(now) && reached ==> PointLineFits(file, cursor)
      modifies this`state, this`loadedPoint, this`cursor, this`timeoutState, this`log
      ensures Valid()
      ensures !old(Drawable(now)) ==>
        state == old(state) && loadedPoint == old(loadedPoint) && cursor == old(cursor) &&
        timeoutState == old(timeoutState) &&
        log == old(log) + [StopFollowing, StopMovement] +
          (if InTimeout(old(timeoutState), now) then [PencilServo(PencilAngle(old(timeoutState).pencilDown))] else []) +
          [PositionUpdate]
      ensures old(Drawable(now)) && !reached ==>
        state == old(state) && loadedPoint == old(loadedPoint) && cursor == old(cursor) &&
        timeoutState == old(timeoutState) &&
        log == old(log) + [StartFollowing, PencilServo(PencilAngle(state.inLine)), PositionUpdate]
      ensures old(Drawable(now)) && reached ==>
        var p := DecodePoint(old(loadedPoint), NextLine(file, old(cursor)).line);
        && cursor == NextLine(file, old(cursor)).next
        && loadedPoint == p
        && state == Advance(old(state), old(loadedPoint)).(color := NewColor(old(state).color, p.color))
        && timeoutState == (if ArmsTimeout(old(state).color, p.color)
                            then TimeoutState(now + SettleTime(old(state).color, p.color, betweenAngle, changeTime), false)
                            else old(timeoutState))
        && log == old(log) + [StartFollowing] + ColorCommands(old(state).color, p.color) +
             [SetTarget(p.x, p.y), PencilServo(PencilAngle(state.inLine)), PositionUpdate]
      ensures old(IndexInRange()) ==> IndexInRange()
    {
      var inTimeout := InTimeout(timeoutState, now);
      if IsDrawingLoaded() && IsDrawingRunning() && !IsDrawingFinished() && !inTimeout {
        log := log + [StartFollowing];
        var point := loadedPoint;
        if reached && IsDrawingLoaded() && IsDrawingRunning() && !IsDrawingFinished() {
          point := LoadNextPoint(now);
          log := log + [SetTarget(point.x, point.y)];
        }
        SetPencilDown(state.inLine);
      } else {
        log := log + [StopFollowing, StopMovement];
        if inTimeout {
          SetPencilDown(timeoutState.pencilDown);
        }
      }
      log := log + [PositionUpdate];
    }
  }
}
