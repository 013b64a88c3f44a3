/** The values the playback engine keeps (the drawing state, the resident
    point, the colour-change timeout) and the pure rules behind its
    operations: the lifecycle predicates and transitions, the colour
    change with its settling time, and the decoding of a point line. */
module Drawing {
  import opened PencilColors
  import opened Text
  import opened Header

  /** Pen-lift servo angles for the two postures. */
  const PENCIL_UP_ANGLE := 83
  const PENCIL_DOWN_ANGLE := 100

  /** The playback state.  `color` is the colour the colour servo was last
      asked for; its zero-initialised value is BLACK, the first enum value. */
  datatype DrawingState = DrawingState(loaded: bool, pointIndex: nat, inLine: bool, drawing: bool, color: PencilColor)

  /** `state = {}`. */
  const EmptyState := DrawingState(false, 0, false, false, BLACK)

  /** The resident waypoint. */
  datatype DrawingPoint = DrawingPoint(x: FloatValue, y: FloatValue, color: PencilColor, isBoundary: bool)

  /** `loadedPoint = {}`. */
  const EmptyPoint := DrawingPoint(ZeroInit, ZeroInit, BLACK, false)

  /** A settling deadline and the pen posture to hold until it passes. */
  datatype TimeoutState = TimeoutState(time: int, pencilDown: bool)

  /** `timeoutState = {}`. */
  const EmptyTimeout := TimeoutState(0, false)

  predicate InTimeout(t: TimeoutState, now: int)
  {
    now < t.time
  }

  /** The calls the engine makes into the servo driver and the motion
      subsystems, in the order it makes them. */
  datatype Command =
    | PencilServo(angle: int)
    | ColorServo(angle: int)
    | StartFollowing
    | StopFollowing
    | SetTarget(x: FloatValue, y: FloatValue)
    | StopMovement
    | PositionUpdate

  /** The pen-lift angle setPencilDown commands. */
  function PencilAngle(down: bool): (a: int)
    ensures a == PENCIL_DOWN_ANGLE <==> down
    ensures a == PENCIL_UP_ANGLE <==> !down
  {
    if down then PENCIL_DOWN_ANGLE else PENCIL_UP_ANGLE
  }

  // ---------------------------------------------------------------------
  // Lifecycle

  predicate IsLoaded(s: DrawingState)
  {
    s.loaded
  }

  predicate IsRunning(s: DrawingState)
  {
    s.drawing && IsLoaded(s)
  }

  predicate IsFinished(s: DrawingState, info: DrawingInfo)
  {
    s.pointIndex >= info.pointsCount - 1 && IsLoaded(s)
  }

  predicate IsPaused(s: DrawingState, info: DrawingInfo)
  {
    !IsRunning(s) && !IsFinished(s, info) && IsLoaded(s)
  }

  /** The guard of startDrawing. */
  predicate CanStart(s: DrawingState, info: DrawingInfo)
  {
    IsLoaded(s) && !IsFinished(s, info) && !IsRunning(s)
  }

  function Start(s: DrawingState, info: DrawingInfo): DrawingState
  {
    if CanStart(s, info) then s.(drawing := true, inLine := false, pointIndex := 0) else s
  }

  function Pause(s: DrawingState, info: DrawingInfo): DrawingState
  {
    if !IsPaused(s, info) && !IsFinished(s, info) && IsLoaded(s) then s.(drawing := false) else s
  }

  function Resume(s: DrawingState, info: DrawingInfo): DrawingState
  {
    if IsPaused(s, info) then s.(drawing := true) else s
  }

  function Stop(s: DrawingState): DrawingState
  {
    s.(loaded := false, inLine := false, drawing := false, pointIndex := 0)
  }

  /** The guard of restartDrawing. */
  predicate CanRestart(s: DrawingState, info: DrawingInfo)
  {
    IsLoaded(s) && !IsPaused(s, info)
  }

  /** The state loadDrawing leaves after resetting it, loaded or not. */
  function FreshState(ok: bool): DrawingState
  {
    EmptyState.(loaded := ok)
  }

  /** What reading an opened drawing with lines `lines` leaves behind,
      when `before` was the info beforehand: success exactly when the
      header scan completes and a DRAWING_START line follows it; a fresh
      state, loaded on success; the info and settings the scan collected;
      and on success the lines `remaining` after that DRAWING_START line. */
  ghost predicate ReadOutcome(lines: seq<string>, before: DrawingInfo, ok: bool, state: DrawingState,
                              info: DrawingInfo, settings: DrawingSettings, remaining: seq<string>)
  {
    var r := ScanHeader(StartScan(before), lines);
    && (ok <==> Done(r.scan) && DRAWING_START_TAG in r.rest)
    && state == FreshState(ok) && info == r.scan.info && settings == r.scan.settings
    && (ok ==> remaining == r.rest[LinesUntil(r.rest, DRAWING_START_TAG)..])
  }

  /** What loading the next point does to the cursor and the pen flag:
      the flag toggles when the point that was resident until now is a
      boundary. */
  function Advance(s: DrawingState, previous: DrawingPoint): DrawingState
  {
    s.(pointIndex := s.pointIndex + 1, inLine := s.inLine != previous.isBoundary)
  }

  /** Once a drawing is loaded it is in exactly one of three phases:
      paused, running with points left, or finished (which may still be
      running). */
  lemma LoadedPhases(s: DrawingState, info: DrawingInfo)
    requires IsLoaded(s)
    ensures IsPaused(s, info) || (IsRunning(s) && !IsFinished(s, info)) || IsFinished(s, info)
    ensures IsPaused(s, info) ==> !IsRunning(s) && !IsFinished(s, info)
    ensures IsRunning(s) ==> !IsPaused(s, info)
  {
  }

  /** Nothing but a loaded drawing runs, pauses or finishes. */
  lemma UnloadedIsIdle(s: DrawingState, info: DrawingInfo)
    requires !IsLoaded(s)
    ensures !IsRunning(s) && !IsPaused(s, info) && !IsFinished(s, info)
  {
  }

  /** startDrawing acts exactly when its guard holds; it then runs the
      drawing from point 0 with the pen out of the line. */
  lemma StartEffect(s: DrawingState, info: DrawingInfo)
    ensures Start(s, info) != s <==> CanStart(s, info)
    ensures CanStart(s, info) ==>
      var t := Start(s, info);
      IsRunning(t) && !IsFinished(t, info) && t.pointIndex == 0 && !t.inLine && t.color == s.color
  {
  }

  /** A drawing of at most one point is finished as soon as it is loaded,
      so it can never be started. */
  lemma ShortDrawingNeverStarts(s: DrawingState, info: DrawingInfo)
    requires info.pointsCount <= 1
    ensures Start(s, info) == s
    ensures IsLoaded(s) ==> IsFinished(s, info)
  {
  }

  /** Starting a paused drawing sends it back to point 0 (the file is not
      rewound by this). */
  lemma StartWhilePaused(s: DrawingState, info: DrawingInfo)
    requires IsPaused(s, info)
    ensures Start(s, info) == s.(drawing := true, inLine := false, pointIndex := 0)
  {
  }

  /** pauseDrawing acts exactly on a running, unfinished drawing, and
      leaves it paused. */
  lemma PauseEffect(s: DrawingState, info: DrawingInfo)
    ensures Pause(s, info) != s <==> IsRunning(s) && !IsFinished(s, info)
    ensures IsRunning(s) && !IsFinished(s, info) ==> IsPaused(Pause(s, info), info)
  {
  }

  /** resumeDrawing acts exactly on a paused drawing. */
  lemma ResumeEffect(s: DrawingState, info: DrawingInfo)
    ensures Resume(s, info) != s <==> IsPaused(s, info)
    ensures IsPaused(s, info) ==> IsRunning(Resume(s, info)) && !IsFinished(Resume(s, info), info)
  {
  }

  /** Pausing and then resuming returns to the same running state: the
      point index and the pen flag are untouched. */
  lemma PauseResumeRoundTrip(s: DrawingState, info: DrawingInfo)
    requires IsRunning(s) && !IsFinished(s, info)
    ensures Resume(Pause(s, info), info) == s
  {
  }

  /** stopDrawing unloads unconditionally, keeps the colour and is
      idempotent. */
  lemma StopEffect(s: DrawingState, info: DrawingInfo)
    ensures var t := Stop(s);
      !IsLoaded(t) && !IsRunning(t) && !IsPaused(t, info) && !IsFinished(t, info) &&
      t.pointIndex == 0 && !t.inLine && t.color == s.color
    ensures Stop(Stop(s)) == Stop(s)
  {
  }

  /** restartDrawing is refused while paused but accepted on a running or
      a finished drawing. */
  lemma RestartGuard(s: DrawingState, info: DrawingInfo)
    ensures CanRestart(s, info) <==> IsLoaded(s) && (IsRunning(s) || IsFinished(s, info))
  {
  }

  /** The states the resident points `residents` lead to, one advance per
      point, starting from `s`. */
  function AdvanceAll(s: DrawingState, residents: seq<DrawingPoint>): DrawingState
  {
    if residents == [] then s else Advance(AdvanceAll(s, residents[..|residents| - 1]), residents[|residents| - 1])
  }

  /** The number of boundary points among `points`. */
  function Boundaries(points: seq<DrawingPoint>): nat
  {
    if points == [] then 0
    else Boundaries(points[..|points| - 1]) + (if points[|points| - 1].isBoundary then 1 else 0)
  }

  /** Over a run of advances the point index grows by one per point and the
      pen flag has toggled once per boundary point consumed, so two
      boundaries in a row put it back where it was. */
  lemma {:induction false} AdvanceAllEffect(s: DrawingState, residents: seq<DrawingPoint>)
    ensures var t := AdvanceAll(s, residents);
      t.pointIndex == s.pointIndex + |residents| &&
      (t.inLine <==> (s.inLine <==> Boundaries(residents) % 2 == 0)) &&
      t.loaded == s.loaded && t.drawing == s.drawing && t.color == s.color
    decreases |residents|
  {
    if residents != [] {
      AdvanceAllEffect(s, residents[..|residents| - 1]);
    }
  }

  /** A started drawing of N >= 2 points stays running throughout and is
      finished after exactly N - 1 advances. */
  lemma {:induction false} StartedRunFinishes(s: DrawingState, info: DrawingInfo, residents: seq<DrawingPoint>)
    requires CanStart(s, info)
    requires |residents| <= info.pointsCount - 1
    ensures var t := AdvanceAll(Start(s, info), residents);
      IsRunning(t) && (IsFinished(t, info) <==> |residents| == info.pointsCount - 1)
  {
    AdvanceAllEffect(Start(s, info), residents);
  }

  /** Running and finished hold together once the last point is reached:
      drawing stays set after the last advance. */
  lemma FinishedWhileRunning(s: DrawingState, info: DrawingInfo, previous: DrawingPoint)
    requires IsRunning(s) && s.pointIndex + 2 == info.pointsCount
    ensures IsRunning(Advance(s, previous)) && IsFinished(Advance(s, previous), info)
  {
  }

  // ---------------------------------------------------------------------
  // Colour change

  /** The two colours sit at different servo angles: a change is needed. */
  predicate ChangesAngle(current: PencilColor, target: PencilColor)
  {
    ToAngle(current) != ToAngle(target)
  }

  /** A change that moves the colour servo and arms a settling timeout. */
  predicate ArmsTimeout(current: PencilColor, target: PencilColor)
  {
    ChangesAngle(current, target) && target != NONE
  }

  /** The colour recorded after a request for `target`. */
  function NewColor(current: PencilColor, target: PencilColor): PencilColor
  {
    if ChangesAngle(current, target) then target else current
  }

  /** The whole number of steps of `betweenAngle` degrees in the angle
      difference between two colours. */
  function Steps(current: PencilColor, target: PencilColor, betweenAngle: nat): nat
    requires betweenAngle > 0
  {
    var delta := ToAngle(target) - ToAngle(current);
    (if delta < 0 then -delta else delta) / betweenAngle
  }

  /** The settling time of a change: its steps times `changeTime`
      milliseconds per step. */
  function SettleTime(current: PencilColor, target: PencilColor, betweenAngle: nat, changeTime: nat): nat
    requires betweenAngle > 0
  {
    Steps(current, target, betweenAngle) * changeTime
  }

  /** The servo command a colour request issues, if any. */
  function ColorCommands(current: PencilColor, target: PencilColor): seq<Command>
  {
    if ArmsTimeout(current, target) then [ColorServo(ToAngle(target))] else []
  }

  /** After a request the recorded colour sits at the requested angle, and
      asking again for the same colour changes nothing. */
  lemma ColorRequestSettles(current: PencilColor, target: PencilColor)
    ensures ToAngle(NewColor(current, target)) == ToAngle(target)
    ensures NewColor(NewColor(current, target), target) == NewColor(current, target)
    ensures !ChangesAngle(NewColor(current, target), target)
    ensures ColorCommands(NewColor(current, target), target) == []
  {
  }

  /** BLACK and BLUE share a servo angle: switching between them neither
      moves the servo nor waits. */
  lemma BlackBlueIsFree(betweenAngle: nat, changeTime: nat)
    requires betweenAngle > 0
    ensures !ChangesAngle(BLACK, BLUE) && !ChangesAngle(BLUE, BLACK)
    ensures NewColor(BLACK, BLUE) == BLACK && NewColor(BLUE, BLACK) == BLUE
    ensures SettleTime(BLACK, BLUE, betweenAngle, changeTime) == 0
  {
  }

  /** Requesting NONE records it without moving the servo or waiting. */
  lemma NoneIsRecordedOnly(current: PencilColor)
    requires current != NONE
    ensures NewColor(current, NONE) == NONE && !ArmsTimeout(current, NONE)
    ensures ColorCommands(current, NONE) == []
  {
  }

  /** The wait is the same in both directions. */
  lemma SettleTimeSymmetric(a: PencilColor, b: PencilColor, betweenAngle: nat, changeTime: nat)
    requires betweenAngle > 0
    ensures SettleTime(a, b, betweenAngle, changeTime) == SettleTime(b, a, betweenAngle, changeTime)
  {
  }

  /** No wait is longer than the one for the widest swing, from NONE
      (0 degrees) to GREEN (130 degrees). */
  lemma SettleTimeBound(a: PencilColor, b: PencilColor, betweenAngle: nat, changeTime: nat)
    requires betweenAngle > 0
    ensures SettleTime(a, b, betweenAngle, changeTime) <= SettleTime(NONE, GREEN, betweenAngle, changeTime)
  {
    StepsBound(a, b, betweenAngle);
    MulMonotone(Steps(a, b, betweenAngle), Steps(NONE, GREEN, betweenAngle), changeTime);
  }

  lemma StepsBound(a: PencilColor, b: PencilColor, betweenAngle: nat)
    requires betweenAngle > 0
    ensures Steps(a, b, betweenAngle) <= Steps(NONE, GREEN, betweenAngle)
  {
    var delta := ToAngle(b) - ToAngle(a);
    DivMonotone(if delta < 0 then -delta else delta, 130, betweenAngle);
  }

  lemma DivMonotone(x: nat, y: nat, d: nat)
    requires x <= y && d > 0
    ensures x / d <= y / d
  {
    var q, p := x / d, y / d;
    assert q * d <= x;
    assert y < p * d + d;
    assert q * d < (p + 1) * d;
  }

  lemma {:induction false} MulMonotone(x: nat, y: nat, m: nat)
    requires x <= y
    ensures x * m <= y * m
  {
    if m > 0 {
      MulMonotone(x, y, m - 1);
      assert x * m == x * (m - 1) + x;
      assert y * m == y * (m - 1) + y;
    }
  }

  // ---------------------------------------------------------------------
  // Point lines

  /** The resident point after reading `line`: the first four tokens give
      x, y, colour and boundary flag (boundary only for the exact token
      "true"); a line of fewer than four tokens leaves the previous point
      in place. */
  function DecodePoint(previous: DrawingPoint, line: string): DrawingPoint
  {
    var tokens := Words(line);
    if |tokens| >= 4 then
      DrawingPoint(Atof(tokens[0]), Atof(tokens[1]), FromString(tokens[2]), tokens[3] == "true")
    else previous
  }

  /** A point line `x y COLOUR flag` decodes to its own fields: the colour
      by name and the boundary flag exactly for the text "true". */
  lemma DecodeRecord(previous: DrawingPoint, x: string, y: string, name: string, flag: string)
    requires x != [] && y != [] && name != [] && flag != []
    requires ' ' !in x && ' ' !in y && ' ' !in name && ' ' !in flag
    ensures DecodePoint(previous, x + " " + y + " " + name + " " + flag)
      == DrawingPoint(Atof(x), Atof(y), FromString(name), flag == "true")
  {
    assert x + " " + y + " " + name + " " + flag == x + [' '] + y + [' '] + name + [' '] + flag;
    WordsOfJoined(x, y, name, flag);
  }

  /** A point written with a colour's own name reads back that colour. */
  lemma DecodeWrittenPoint(previous: DrawingPoint, x: string, y: string, c: PencilColor, boundary: bool)
    requires x != [] && y != [] && ' ' !in x && ' ' !in y
    ensures DecodePoint(previous, x + " " + y + " " + ToString(c) + " " + (if boundary then "true" else "false"))
      == DrawingPoint(Atof(x), Atof(y), c, boundary)
  {
    DecodeRecord(previous, x, y, ToString(c), if boundary then "true" else "false");
    NameRoundTrip(c);
  }

  /** A line with fewer than four tokens keeps the resident point. */
  lemma DecodeShortLine(previous: DrawingPoint, line: string)
    requires |Words(line)| < 4
    ensures DecodePoint(previous, line) == previous
  {
  }
}
