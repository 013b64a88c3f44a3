/** What getFileNextLine reads from the open drawing file.  The file is its
    content (a `string`) and a cursor, the index of the next character
    read() returns; available() is `cursor < |content|`. */
module LineReader {

  /** Where the reading loop stops when it starts at `c`: at the '\n' that
      ends the line, at the file's last character (which the loop reads
      but does not keep, because available() is then 0), or at `c` when
      nothing is left to read. */
  function LineStop(content: string, c: nat): (t: nat)
    requires c <= |content|
    ensures c <= t <= |content|
    ensures t == |content| ==> t == c
    ensures '\n' !in content[c..t]
    ensures t < |content| ==> content[t] == '\n' || t == |content| - 1
    decreases |content| - c
  {
    if c == |content| then c
    else if content[c] == '\n' || c + 1 == |content| then c
    else
      var t := LineStop(content, c + 1);
      assert content[c..t] == [content[c]] + content[c + 1..t];
      t
  }

  /** The reading loop started at `c` stops at the first position `k`
      that holds a '\n' or the file's last character. */
  lemma {:induction false} LineStopIsFirst(content: string, c: nat, k: nat)
    requires c <= k < |content| && k <= LineStop(content, c)
    requires content[k] == '\n' || k + 1 == |content|
    ensures k == LineStop(content, c)
    decreases k - c
  {
    if c < k {
      LineStopIsFirst(content, c + 1, k);
    }
  }

  /** A line as getFileNextLine returns it, and the cursor after it. */
  datatype LineRead = LineRead(line: string, next: nat)

  /** The line read from position `c`, without its '\n', and the position
      after the last character consumed.  At the end of the file the line
      is empty and nothing is consumed. */
  function NextLine(content: string, c: nat): (r: LineRead)
    requires c <= |content|
    ensures r.next <= |content|
    ensures c < |content| ==> c < r.next
    ensures c == |content| ==> r == LineRead([], c)
    ensures '\n' !in r.line
  {
    if c == |content| then LineRead([], c)
    else
      var t := LineStop(content, c);
      LineRead(content[c..t], t + 1)
  }

  /** The lines a reader obtains by calling getFileNextLine from `c` for as
      long as available() holds. */
  function LinesFrom(content: string, c: nat): seq<string>
    requires c <= |content|
    decreases |content| - c
  {
    if c == |content| then []
    else
      var r := NextLine(content, c);
      [r.line] + LinesFrom(content, r.next)
  }

  /** Reading one line takes the first of the lines that remain. */
  lemma LinesFromNext(content: string, c: nat)
    requires c < |content|
    ensures LinesFrom(content, c) == [NextLine(content, c).line] + LinesFrom(content, NextLine(content, c).next)
  {
  }

  /** A line that the C code can hold in a buffer of `size` characters
      (terminator included) and that has no NUL inside, so that the C
      string is the whole line. */
  predicate FitsBuffer(line: string, size: nat)
  {
    |line| < size && NulFree(line)
  }

  /** No NUL character occurs in `s`. */
  predicate NulFree(s: string)
    decreases |s|
  {
    s == [] || (s[0] != '\0' && NulFree(s[1..]))
  }

  lemma {:induction false} NulFreeMeaning(s: string)
    ensures NulFree(s) <==> '\0' !in s
    decreases |s|
  {
    if s != [] {
      NulFreeMeaning(s[1..]);
      assert s == [s[0]] + s[1..];
    }
  }

  /** A line ended by '\n' is read whole and the '\n' is consumed. */
  lemma NextLineOfTerminated(content: string, c: nat, line: string, rest: string)
    requires c <= |content| && content[c..] == line + ['\n'] + rest
    requires '\n' !in line
    ensures NextLine(content, c) == LineRead(line, c + |line| + 1)
  {
    var t := LineStop(content, c);
    assert content[c + |line|] == '\n';
    assert forall k :: c <= k < c + |line| ==> content[k] == line[k - c];
    assert c + |line| < |content|;
    assert t == c + |line|;
    assert content[c..t] == line;
  }

  /** The last line of a file that does not end in '\n' loses its final
      character: it is read, but the loop ends without storing it. */
  lemma NextLineOfUnterminated(content: string, c: nat, line: string, last: char)
    requires c <= |content| && content[c..] == line + [last]
    requires '\n' !in line && last != '\n'
    ensures NextLine(content, c) == LineRead(line, |content|)
  {
    var t := LineStop(content, c);
    assert forall k :: c <= k < c + |line| ==> content[k] == line[k - c];
    assert t == c + |line|;
    assert content[c..t] == line;
  }

  /** An illustration of NextLineOfUnterminated: a file holding
      "DRAWING_START" with no final newline reads back as "DRAWING_STAR". */
  lemma LastCharacterLost()
    ensures NextLine("DRAWING_START", 0).line == "DRAWING_STAR"
  {
    NextLineOfUnterminated("DRAWING_START", 0, "DRAWING_STAR", 'T');
  }
}
