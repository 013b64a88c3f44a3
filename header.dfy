/** The header of a drawing file: the tag lines, the key lines of the info
    and settings sections, and the scan loadDrawing runs over them. */
module Header {
  import opened Text

  const INFO_START_TAG := "DRAWING_INFO_START"
  const INFO_END_TAG := "DRAWING_INFO_END"
  const SETTINGS_START_TAG := "SETTINGS_START"
  const SETTINGS_END_TAG := "SETTINGS_END"
  const DRAWING_START_TAG := "DRAWING_START"

  /** A floating-point field.  Its numeric value is not modelled: it is
      either still zero-initialised, the NAN a settings field starts with,
      or whatever atof makes of a text. */
  datatype FloatValue = ZeroInit | NotANumber | Atof(text: string)

  datatype DrawingInfo = DrawingInfo(name: string, width: FloatValue, height: FloatValue, pointsCount: int)

  datatype DrawingSettings = DrawingSettings(
    followAngularVelocityScale: FloatValue,
    followVelocity: FloatValue,
    curveTightness: FloatValue)

  /** `info = {}` at start-up. */
  const EmptyInfo := DrawingInfo("", ZeroInit, ZeroInit, 0)

  /** `settings = {}`: every field is NAN. */
  const DefaultSettings := DrawingSettings(NotANumber, NotANumber, NotANumber)

  /** The value of a key line: what follows the first '=' and the one
      character after it, that is, line[indexOf(line, '=') + 2..]. */
  function ValueOf(line: string): string
  {
    var index := IndexOf(line, '=') + 2;
    if index <= |line| then line[index..] else []
  }

  /** The info field named by the first key, in the order name, width,
      height, pointsCount, that the line starts with. */
  function ApplyInfoKey(info: DrawingInfo, line: string): DrawingInfo
  {
    var value := ValueOf(line);
    if StartsWith("name", line) then info.(name := value)
    else if StartsWith("width", line) then info.(width := Atof(value))
    else if StartsWith("height", line) then info.(height := Atof(value))
    else if StartsWith("pointsCount", line) then info.(pointsCount := Atoi(value))
    else info
  }

  /** The settings field named by the first key, in the order
      followAngularVelocityScale, followVelocity, curveTightness, that the
      line starts with. */
  function ApplySettingsKey(settings: DrawingSettings, line: string): DrawingSettings
  {
    var value := ValueOf(line);
    if StartsWith("followAngularVelocityScale", line) then settings.(followAngularVelocityScale := Atof(value))
    else if StartsWith("followVelocity", line) then settings.(followVelocity := Atof(value))
    else if StartsWith("curveTightness", line) then settings.(curveTightness := Atof(value))
    else settings
  }

  // ---------------------------------------------------------------------
  // The header scan

  /** The open/closed flags of one section: (reading, extracted). */
  type Flags = (bool, bool)

  /** A start tag opens the section and forgets an earlier extraction. */
  function Open(flags: Flags, line: string, start: string): Flags
  {
    if line == start then (true, false) else flags
  }

  /** An end tag closes an open section and marks it extracted. */
  function Close(flags: Flags, line: string, end: string): Flags
  {
    if flags.0 && line == end then (false, true) else flags
  }

  /** The state of loadDrawing's first loop. */
  datatype Scan = Scan(
    readingInfo: bool, infoExtracted: bool,
    readingSettings: bool, settingsExtracted: bool,
    info: DrawingInfo, settings: DrawingSettings)

  /** The scan state before the first line: the flags are down, settings
      are reset and info keeps what an earlier load left in it. */
  function StartScan(info: DrawingInfo): Scan
  {
    Scan(false, false, false, false, info, DefaultSettings)
  }

  /** Both sections have been closed: the first loop stops. */
  predicate Done(s: Scan)
  {
    s.infoExtracted && s.settingsExtracted
  }

  /** One pass of the first loop's body over a line. */
  function Step(s: Scan, line: string): Scan
  {
    var infoOpen := Open((s.readingInfo, s.infoExtracted), line, INFO_START_TAG);
    var info := if infoOpen.0 then ApplyInfoKey(s.info, line) else s.info;
    var infoFlags := Close(infoOpen, line, INFO_END_TAG);
    var settingsOpen := Open((s.readingSettings, s.settingsExtracted), line, SETTINGS_START_TAG);
    var settings := if settingsOpen.0 then ApplySettingsKey(s.settings, line) else s.settings;
    var settingsFlags := Close(settingsOpen, line, SETTINGS_END_TAG);
    Scan(infoFlags.0, infoFlags.1, settingsFlags.0, settingsFlags.1, info, settings)
  }

  /** The scan state and the unread lines when the first loop ends: it
      stops once both sections are extracted or the lines run out. */
  datatype ScanEnd = ScanEnd(scan: Scan, rest: seq<string>)

  function ScanHeader(s: Scan, lines: seq<string>): (r: ScanEnd)
    ensures |r.rest| <= |lines| && r.rest == lines[|lines| - |r.rest|..]
    ensures Done(r.scan) || r.rest == []
    decreases |lines|
  {
    if Done(s) || lines == [] then ScanEnd(s, lines)
    else
      var r := ScanHeader(Step(s, lines[0]), lines[1..]);
      assert lines[1..][|lines| - 1 - |r.rest|..] == lines[|lines| - |r.rest|..];
      r
  }

  // ---------------------------------------------------------------------
  // What the flags mean

  /** The index of the last occurrence of `tag` in `lines`, or -1. */
  function LastIndex(lines: seq<string>, tag: string): (i: int)
    ensures -1 <= i < |lines|
    ensures i == -1 <==> tag !in lines
    ensures 0 <= i ==> lines[i] == tag && tag !in lines[i + 1..]
  {
    if lines == [] then -1
    else if lines[|lines| - 1] == tag then |lines| - 1
    else
      var i := LastIndex(lines[..|lines| - 1], tag);
      assert lines == lines[..|lines| - 1] + [lines[|lines| - 1]];
      assert 0 <= i ==> lines[i + 1..] == lines[..|lines| - 1][i + 1..] + [lines[|lines| - 1]];
      i
  }

  /** The most recent start tag is not followed by its end tag. */
  ghost predicate Opened(lines: seq<string>, start: string, end: string)
  {
    var i := LastIndex(lines, start);
    0 <= i && end !in lines[i + 1..]
  }

  /** The most recent start tag is followed by its end tag. */
  ghost predicate Closed(lines: seq<string>, start: string, end: string)
  {
    var i := LastIndex(lines, start);
    0 <= i && end in lines[i + 1..]
  }

  /** Both sections closed, each by the end tag after its latest start tag. */
  ghost predicate HeaderComplete(lines: seq<string>)
  {
    Closed(lines, INFO_START_TAG, INFO_END_TAG) && Closed(lines, SETTINGS_START_TAG, SETTINGS_END_TAG)
  }

  /** A drawing file is accepted when its lines complete the header at
      some point and a DRAWING_START line comes after that point. */
  ghost predicate Accepted(lines: seq<string>)
  {
    exists n :: 0 <= n <= |lines| && HeaderComplete(lines[..n]) && DRAWING_START_TAG in lines[n..]
  }

  /** The flags of one section after a sequence of lines. */
  function SectionFlags(lines: seq<string>, start: string, end: string): Flags
  {
    if lines == [] then (false, false)
    else Close(Open(SectionFlags(lines[..|lines| - 1], start, end), lines[|lines| - 1], start), lines[|lines| - 1], end)
  }

  /** A section is being read exactly when its most recent start tag is
      still open, and extracted exactly when it was closed. */
  lemma {:induction false} SectionFlagsMeaning(lines: seq<string>, start: string, end: string)
    requires start != end
    ensures SectionFlags(lines, start, end).0 <==> Opened(lines, start, end)
    ensures SectionFlags(lines, start, end).1 <==> Closed(lines, start, end)
    decreases |lines|
  {
    if lines != [] {
      var n := |lines| - 1;
      var prefix, line := lines[..n], lines[n];
      SectionFlagsMeaning(prefix, start, end);
      var before := SectionFlags(prefix, start, end);
      assert SectionFlags(lines, start, end) == Close(Open(before, line, start), line, end);
      if line == start {
        assert LastIndex(lines, start) == n;
        assert lines[n + 1..] == [];
      } else {
        var i := LastIndex(prefix, start);
        assert LastIndex(lines, start) == i;
        if 0 <= i {
          assert lines[i + 1..] == prefix[i + 1..] + [line];
          assert end in lines[i + 1..] <==> end in prefix[i + 1..] || line == end;
        }
      }
    }
  }

  /** The flags of both sections in a scan state. */
  function FlagsOf(s: Scan): (Flags, Flags)
  {
    ((s.readingInfo, s.infoExtracted), (s.readingSettings, s.settingsExtracted))
  }

  /** The flags of both sections after `lines`, each driven by its own
      tags alone. */
  function HeaderFlags(lines: seq<string>): (Flags, Flags)
  {
    (SectionFlags(lines, INFO_START_TAG, INFO_END_TAG), SectionFlags(lines, SETTINGS_START_TAG, SETTINGS_END_TAG))
  }

  /** Both sections are extracted after `lines` exactly when the lines
      complete the header. */
  lemma DoneMeaning(lines: seq<string>)
    ensures (HeaderFlags(lines).0.1 && HeaderFlags(lines).1.1) <==> HeaderComplete(lines)
  {
    SectionFlagsMeaning(lines, INFO_START_TAG, INFO_END_TAG);
    SectionFlagsMeaning(lines, SETTINGS_START_TAG, SETTINGS_END_TAG);
  }

  /** One step of the first loop moves the flags as one more line does. */
  lemma StepFlags(s: Scan, done: seq<string>, line: string)
    requires FlagsOf(s) == HeaderFlags(done)
    ensures FlagsOf(Step(s, line)) == HeaderFlags(done + [line])
  {
    var lines := done + [line];
    assert lines[..|lines| - 1] == done && lines[|lines| - 1] == line;
  }

  /** The number of lines the first loop reads. */
  function HeaderLength(s: Scan, lines: seq<string>): nat
  {
    |lines| - |ScanHeader(s, lines).rest|
  }

  /** Moving the first unread line over to the lines read. */
  lemma ShiftPrefix(done: seq<string>, lines: seq<string>, k: nat)
    requires 0 < k <= |lines|
    ensures done + [lines[0]] + lines[1..][..k - 1] == done + lines[..k]
  {
    assert lines[..k] == [lines[0]] + lines[1..][..k - 1];
  }

  /** The early-stopping scan ends with the flags of the lines it has read. */
  lemma {:induction false} ScanFlags(s: Scan, done: seq<string>, lines: seq<string>)
    requires FlagsOf(s) == HeaderFlags(done)
    ensures FlagsOf(ScanHeader(s, lines).scan) == HeaderFlags(done + lines[..HeaderLength(s, lines)])
    decreases |lines|
  {
    if Done(s) || lines == [] {
      assert done + lines[..0] == done;
    } else {
      var next := Step(s, lines[0]);
      StepFlags(s, done, lines[0]);
      ScanFlags(next, done + [lines[0]], lines[1..]);
      var k := HeaderLength(s, lines);
      assert HeaderLength(next, lines[1..]) == k - 1;
      ShiftPrefix(done, lines, k);
    }
  }

  /** ... and no shorter prefix of those lines had both sections extracted. */
  lemma {:induction false} ScanNotDoneBefore(s: Scan, done: seq<string>, lines: seq<string>, j: nat)
    requires FlagsOf(s) == HeaderFlags(done)
    requires j < HeaderLength(s, lines)
    ensures !(HeaderFlags(done + lines[..j]).0.1 && HeaderFlags(done + lines[..j]).1.1)
    decreases |lines|
  {
    assert !Done(s) && lines != [];
    if j == 0 {
      assert done + lines[..0] == done;
    } else {
      var next := Step(s, lines[0]);
      StepFlags(s, done, lines[0]);
      assert HeaderLength(next, lines[1..]) == HeaderLength(s, lines) - 1;
      ScanNotDoneBefore(next, done + [lines[0]], lines[1..], j - 1);
      ShiftPrefix(done, lines, j);
    }
  }

  /** The first loop ends with both sections extracted exactly when the
      lines it read complete the header. */
  lemma HeaderPrefixDone(info: DrawingInfo, lines: seq<string>)
    ensures var k := HeaderLength(StartScan(info), lines);
      Done(ScanHeader(StartScan(info), lines).scan) <==> HeaderComplete(lines[..k])
  {
    var k := HeaderLength(StartScan(info), lines);
    ScanFlags(StartScan(info), [], lines);
    assert [] + lines[..k] == lines[..k];
    DoneMeaning(lines[..k]);
  }

  /** No shorter prefix than the lines the first loop read completes the
      header. */
  lemma HeaderPrefixShortest(info: DrawingInfo, lines: seq<string>, j: nat)
    requires j < HeaderLength(StartScan(info), lines)
    ensures !HeaderComplete(lines[..j])
  {
    ScanNotDoneBefore(StartScan(info), [], lines, j);
    assert [] + lines[..j] == lines[..j];
    DoneMeaning(lines[..j]);
  }

  /** A prefix that completes the header and is followed by DRAWING_START
      makes both of loadDrawing's scans succeed. */
  lemma AcceptedAt(info: DrawingInfo, lines: seq<string>, n: nat)
    requires n <= |lines| && HeaderComplete(lines[..n]) && DRAWING_START_TAG in lines[n..]
    ensures var r := ScanHeader(StartScan(info), lines);
      Done(r.scan) && DRAWING_START_TAG in r.rest
  {
    HeaderLengthAtMost(info, lines, n);
    TagLeftUnread(StartScan(info), lines, n);
  }

  /** The first loop reads no more lines than any prefix that completes
      the header. */
  lemma HeaderLengthAtMost(info: DrawingInfo, lines: seq<string>, n: nat)
    requires n <= |lines| && HeaderComplete(lines[..n])
    ensures HeaderLength(StartScan(info), lines) <= n
  {
    if n < HeaderLength(StartScan(info), lines) {
      HeaderPrefixShortest(info, lines, n);
    }
  }

  /** A DRAWING_START at or after the point where the first loop stopped is
      among the lines it left, so the loop stopped early, with both
      sections extracted. */
  lemma TagLeftUnread(s: Scan, lines: seq<string>, n: nat)
    requires HeaderLength(s, lines) <= n <= |lines| && DRAWING_START_TAG in lines[n..]
    ensures Done(ScanHeader(s, lines).scan) && DRAWING_START_TAG in ScanHeader(s, lines).rest
  {
    var r := ScanHeader(s, lines);
    InLaterSuffix(lines, HeaderLength(s, lines), n, DRAWING_START_TAG);
    assert r.rest == lines[HeaderLength(s, lines)..];
  }

  lemma InLaterSuffix(lines: seq<string>, k: nat, n: nat, tag: string)
    requires k <= n <= |lines| && tag in lines[n..]
    ensures tag in lines[k..]
  {
    var i :| n <= i < |lines| && lines[i] == tag;
    assert lines[k..][i - k] == tag;
  }

  /** Lines on which both scans succeed are accepted, at the point where
      the first loop stopped. */
  lemma ScanAccepts(info: DrawingInfo, lines: seq<string>)
    requires var r := ScanHeader(StartScan(info), lines);
      Done(r.scan) && DRAWING_START_TAG in r.rest
    ensures Accepted(lines)
  {
    var k := HeaderLength(StartScan(info), lines);
    HeaderPrefixDone(info, lines);
    assert ScanHeader(StartScan(info), lines).rest == lines[k..];
    assert HeaderComplete(lines[..k]) && DRAWING_START_TAG in lines[k..];
  }

  /** loadDrawing's two scans succeed exactly for accepted files: the
      header loop ends with both sections extracted and a DRAWING_START
      line lies among the lines it left unread, if and only if some prefix
      of the file completes the header and is followed by DRAWING_START. */
  lemma LoadVerdict(info: DrawingInfo, lines: seq<string>)
    ensures var r := ScanHeader(StartScan(info), lines);
      (Done(r.scan) && DRAWING_START_TAG in r.rest) <==> Accepted(lines)
  {
    var r := ScanHeader(StartScan(info), lines);
    if Done(r.scan) && DRAWING_START_TAG in r.rest {
      ScanAccepts(info, lines);
    }
    if Accepted(lines) {
      var n :| 0 <= n <= |lines| && HeaderComplete(lines[..n]) && DRAWING_START_TAG in lines[n..];
      AcceptedAt(info, lines, n);
    }
  }

  /** The number of lines loadDrawing's second loop reads from `lines`:
      up to and including the first `tag`, or all of them when there is
      none. */
  function LinesUntil(lines: seq<string>, tag: string): (n: nat)
    ensures n <= |lines|
    ensures tag in lines ==> 0 < n && lines[n - 1] == tag && tag !in lines[..n - 1]
    ensures tag !in lines ==> n == |lines|
  {
    if lines == [] then 0
    else if lines[0] == tag then 1
    else
      var n := LinesUntil(lines[1..], tag);
      assert lines == [lines[0]] + lines[1..];
      assert tag in lines[1..] ==> lines[..n] == [lines[0]] + lines[1..][..n - 1];
      1 + n
  }

  /** The second loop stops right after the first `tag`. */
  lemma LinesUntilAt(lines: seq<string>, tag: string, j: nat)
    requires j < |lines| && lines[j] == tag && tag !in lines[..j]
    ensures LinesUntil(lines, tag) == j + 1
  {
    var n := LinesUntil(lines, tag);
    assert forall m :: 0 <= m < j ==> lines[m] == lines[..j][m];
    assert forall m :: 0 <= m < n - 1 ==> lines[m] == lines[..n - 1][m];
  }

  // ---------------------------------------------------------------------
  // Key lines

  /** Lines outside every open section, other than a start tag, leave the
      scan as it is. */
  lemma StepOutsideSections(s: Scan, line: string)
    requires !s.readingInfo && !s.readingSettings
    requires line != INFO_START_TAG && line != SETTINGS_START_TAG
    ensures Step(s, line) == s
  {
  }

  /** Inside the open info section a line that is no tag only updates the
      info field its key names. */
  lemma StepInsideInfo(s: Scan, line: string)
    requires s.readingInfo && !s.readingSettings
    requires line !in [INFO_START_TAG, INFO_END_TAG, SETTINGS_START_TAG, SETTINGS_END_TAG]
    ensures Step(s, line) == s.(info := ApplyInfoKey(s.info, line))
  {
  }

  /** Inside the open settings section a line that is no tag only updates
      the settings field its key names. */
  lemma StepInsideSettings(s: Scan, line: string)
    requires s.readingSettings && !s.readingInfo
    requires line !in [INFO_START_TAG, INFO_END_TAG, SETTINGS_START_TAG, SETTINGS_END_TAG]
    ensures Step(s, line) == s.(settings := ApplySettingsKey(s.settings, line))
  {
  }

  /** Without '=' the value starts at the line's second character. */
  lemma ValueWithoutEquals(line: string)
    requires '=' !in line && line != []
    ensures ValueOf(line) == line[1..]
  {
    IndexOfMeaning(line, '=');
  }

  /** The value of `key = value` is `value`. */
  lemma ValueOfKeyLine(key: string, value: string)
    requires '=' !in key
    ensures ValueOf(key + " = " + value) == value
  {
    var line := key + " = " + value;
    IndexOfMeaning(line, '=');
    assert line[|key| + 1] == '=';
    assert line[..|key| + 1] == key + " ";
    assert line[|key| + 3..] == value;
  }

  lemma PrefixOf(key: string, rest: string)
    ensures StartsWith(key, key + rest)
  {
    StartsWithMeaning(key, key + rest);
    assert (key + rest)[..|key|] == key;
  }

  lemma DiffersAt(key: string, line: string, i: nat)
    requires i < |key| && i < |line| && key[i] != line[i]
    ensures !StartsWith(key, line)
  {
    StartsWithMeaning(key, line);
    if |key| <= |line| {
      assert line[..|key|][i] == line[i];
    }
  }

  /** `name = value` sets the name. */
  lemma NameLine(info: DrawingInfo, value: string)
    ensures ApplyInfoKey(info, "name = " + value) == info.(name := value)
  {
    assert "name = " + value == "name" + (" = " + value) == "name" + " = " + value;
    ValueOfKeyLine("name", value);
    PrefixOf("name", " = " + value);
  }

  /** `width = value` sets the width. */
  lemma WidthLine(info: DrawingInfo, value: string)
    ensures ApplyInfoKey(info, "width = " + value) == info.(width := Atof(value))
  {
    var line := "width = " + value;
    assert line == "width" + (" = " + value) == "width" + " = " + value;
    ValueOfKeyLine("width", value);
    PrefixOf("width", " = " + value);
    DiffersAt("name", line, 0);
  }

  /** `height = value` sets the height. */
  lemma HeightLine(info: DrawingInfo, value: string)
    ensures ApplyInfoKey(info, "height = " + value) == info.(height := Atof(value))
  {
    var line := "height = " + value;
    assert line == "height" + (" = " + value) == "height" + " = " + value;
    ValueOfKeyLine("height", value);
    PrefixOf("height", " = " + value);
    DiffersAt("name", line, 0);
    DiffersAt("width", line, 0);
  }

  /** `pointsCount = n` sets the point count to n. */
  lemma PointsCountLine(info: DrawingInfo, n: nat, rest: string)
    requires rest == [] || !IsDigit(rest[0])
    ensures ApplyInfoKey(info, "pointsCount = " + Decimal(n) + rest) == info.(pointsCount := n)
  {
    var value := Decimal(n) + rest;
    var line := "pointsCount = " + Decimal(n) + rest;
    assert line == "pointsCount" + (" = " + value) == "pointsCount" + " = " + value;
    ValueOfKeyLine("pointsCount", value);
    AtoiOfDecimal(n, rest);
    PrefixOf("pointsCount", " = " + value);
    DiffersAt("name", line, 0);
    DiffersAt("width", line, 0);
    DiffersAt("height", line, 0);
  }

  /** `followAngularVelocityScale = value` sets that setting. */
  lemma AngularScaleLine(settings: DrawingSettings, value: string)
    ensures ApplySettingsKey(settings, "followAngularVelocityScale = " + value)
      == settings.(followAngularVelocityScale := Atof(value))
  {
    var key := "followAngularVelocityScale";
    var line := "followAngularVelocityScale = " + value;
    assert line == key + (" = " + value) == key + " = " + value;
    ValueOfKeyLine(key, value);
    PrefixOf(key, " = " + value);
  }

  /** `followVelocity = value` sets that setting. */
  lemma VelocityLine(settings: DrawingSettings, value: string)
    ensures ApplySettingsKey(settings, "followVelocity = " + value) == settings.(followVelocity := Atof(value))
  {
    var key := "followVelocity";
    var line := "followVelocity = " + value;
    assert line == key + (" = " + value) == key + " = " + value;
    ValueOfKeyLine(key, value);
    PrefixOf(key, " = " + value);
    VelocityIsNotAngularScale(value);
  }

  /** The two keys that share the prefix "follow" part at their seventh
      character. */
  lemma VelocityIsNotAngularScale(value: string)
    ensures !StartsWith("followAngularVelocityScale", "followVelocity = " + value)
  {
    var other := "followAngularVelocityScale";
    var line := "followVelocity = " + value;
    assert other[6] == 'A';
    assert line[6] == 'V';
    DiffersAt(other, line, 6);
  }

  /** `curveTightness = value` sets that setting. */
  lemma TightnessLine(settings: DrawingSettings, value: string)
    ensures ApplySettingsKey(settings, "curveTightness = " + value) == settings.(curveTightness := Atof(value))
  {
    var key := "curveTightness";
    var line := "curveTightness = " + value;
    assert line == key + (" = " + value) == key + " = " + value;
    ValueOfKeyLine(key, value);
    PrefixOf(key, " = " + value);
    DiffersAt("followAngularVelocityScale", line, 0);
    DiffersAt("followVelocity", line, 0);
  }

  /** A line that starts with none of the keys changes no field. */
  lemma UnknownKeyIgnored(info: DrawingInfo, settings: DrawingSettings, line: string)
    requires !StartsWith("name", line) && !StartsWith("width", line)
    requires !StartsWith("height", line) && !StartsWith("pointsCount", line)
    requires !StartsWith("followAngularVelocityScale", line) && !StartsWith("followVelocity", line)
    requires !StartsWith("curveTightness", line)
    ensures ApplyInfoKey(info, line) == info && ApplySettingsKey(settings, line) == settings
  {
  }
}
