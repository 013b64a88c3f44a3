/** The string helpers of the playback engine (startsWith, indexOf,
    substring, split) and the C library's atoi, over `string` values.
    A C string here is the sequence of its characters up to, and not
    including, the terminating NUL. */
module Text {

  // ---------------------------------------------------------------------
  // startsWith(start, text)

  /** Whether `text` begins with `start`: like the source, the lengths
      are compared first and then the characters from the left. */
  function StartsWith(start: string, text: string): bool
  {
    |start| <= |text| && MatchesFrom(start, text, 0)
  }

  /** The characters of `start` from position `i` on all agree with `text`. */
  function MatchesFrom(start: string, text: string, i: nat): bool
    requires |start| <= |text| && i <= |start|
    decreases |start| - i
  {
    i == |start| || (start[i] == text[i] && MatchesFrom(start, text, i + 1))
  }

  lemma {:induction false} MatchesFromMeaning(start: string, text: string, i: nat)
    requires |start| <= |text| && i <= |start|
    ensures MatchesFrom(start, text, i) <==> text[i..|start|] == start[i..]
    decreases |start| - i
  {
    if i < |start| {
      MatchesFromMeaning(start, text, i + 1);
      assert text[i..|start|] == [text[i]] + text[i + 1..|start|];
      assert start[i..] == [start[i]] + start[i + 1..];
    }
  }

  /** startsWith holds exactly when `text` is at least as long as `start`
      and its first |start| characters are those of `start`. */
  lemma StartsWithMeaning(start: string, text: string)
    ensures StartsWith(start, text) <==> |start| <= |text| && text[..|start|] == start
  {
    if |start| <= |text| {
      MatchesFromMeaning(start, text, 0);
    }
  }

  // ---------------------------------------------------------------------
  // indexOf(text, target), which is strchr turned into an index

  /** The index of the first occurrence of `target` in `text`, or -1 when
      there is none. */
  function IndexOf(text: string, target: char): (r: int)
    ensures -1 <= r < |text|
  {
    IndexFrom(text, target, 0)
  }

  function IndexFrom(text: string, target: char, i: nat): (r: int)
    requires i <= |text|
    ensures r == -1 || i <= r < |text|
    decreases |text| - i
  {
    if i == |text| then -1
    else if text[i] == target then i
    else IndexFrom(text, target, i + 1)
  }

  lemma {:induction false} IndexFromMeaning(text: string, target: char, i: nat)
    requires i <= |text|
    ensures var r := IndexFrom(text, target, i);
      (r == -1 <==> target !in text[i..]) &&
      (r != -1 ==> text[r] == target && target !in text[i..r])
    decreases |text| - i
  {
    if i < |text| {
      assert text[i..] == [text[i]] + text[i + 1..];
      if text[i] != target {
        IndexFromMeaning(text, target, i + 1);
        var r := IndexFrom(text, target, i + 1);
        assert r != -1 ==> text[i..r] == [text[i]] + text[i + 1..r];
      }
    }
  }

  /** indexOf finds the first occurrence of `target`, and answers -1
      exactly when there is none. */
  lemma IndexOfMeaning(text: string, target: char)
    ensures var r := IndexOf(text, target);
      (r == -1 <==> target !in text) &&
      (0 <= r ==> text[r] == target && target !in text[..r])
  {
    IndexFromMeaning(text, target, 0);
    assert text[0..] == text;
  }

  // ---------------------------------------------------------------------
  // substring(text, substring, index)

  /** The characters of `text` from `index` to the end (nothing when
      `index` lies past the end), copied one at a time. */
  method Substring(text: string, index: nat) returns (sub: string)
    ensures index <= |text| ==> sub == text[index..]
    ensures index > |text| ==> sub == []
  {
    sub := [];
    var i := index;
    while i < |text|
      invariant index <= i
      invariant index <= |text| ==> i <= |text| && sub == text[index..i]
      invariant index > |text| ==> sub == []
    {
      sub := sub + [text[i]];
      i := i + 1;
    }
  }

  // ---------------------------------------------------------------------
  // split(str, " ", tokens, &count), which is strtok with a space delimiter

  /** The leading run of non-space characters of `s`. */
  function Run(s: string): (w: string)
    ensures |w| <= |s| && w == s[..|w|]
    ensures ' ' !in w
    ensures |w| < |s| ==> s[|w|] == ' '
  {
    if s == [] || s[0] == ' ' then []
    else
      var w := Run(s[1..]);
      assert s[..1 + |w|] == [s[0]] + s[1..][..|w|];
      [s[0]] + w
  }

  /** The tokens that strtok yields for `s` with the delimiter " ", in order. */
  function Words(s: string): seq<string>
    decreases |s|
  {
    if s == [] then []
    else if s[0] == ' ' then Words(s[1..])
    else
      var w := Run(s);
      [w] + Words(s[|w|..])
  }

  /** Every token is non-empty and holds no space. */
  lemma {:induction false} WordsAreTokens(s: string)
    ensures forall i :: 0 <= i < |Words(s)| ==> Words(s)[i] != [] && ' ' !in Words(s)[i]
    decreases |s|
  {
    if s != [] && s[0] == ' ' {
      WordsAreTokens(s[1..]);
    } else if s != [] {
      WordsAreTokens(s[|Run(s)|..]);
    }
  }

  /** A word without spaces is its own single token. */
  lemma WordsOfWord(w: string)
    requires w != [] && ' ' !in w
    ensures Words(w) == [w]
  {
    assert Run(w) == w;
    assert w[|w|..] == [];
  }

  /** The run of a string is not affected by anything after a space. */
  lemma {:induction false} RunBeforeSpace(a: string, t: string)
    requires t != [] && t[0] == ' '
    ensures Run(a + t) == Run(a)
    decreases |a|
  {
    if a == [] {
      assert (a + t)[0] == ' ';
    } else if a[0] != ' ' {
      assert (a + t)[1..] == a[1..] + t;
      RunBeforeSpace(a[1..], t);
    }
  }

  /** A space separates: the tokens of `a + " " + b` are the tokens of
      `a` followed by those of `b`; neither a repeated, a leading nor a
      trailing space adds an empty token. */
  lemma {:induction false} WordsSeparated(a: string, b: string)
    ensures Words(a + [' '] + b) == Words(a) + Words(b)
    decreases |a|
  {
    var s := a + [' '] + b;
    if a == [] {
      assert s[1..] == b;
      WordsOfSpace(s);
    } else if a[0] == ' ' {
      assert s[1..] == a[1..] + [' '] + b;
      WordsOfSpace(s);
      WordsOfSpace(a);
      WordsSeparated(a[1..], b);
    } else {
      var w := Run(a);
      RunBeforeSpace(a, [' '] + b);
      assert s == a + ([' '] + b);
      assert s[|w|..] == a[|w|..] + [' '] + b;
      WordsOfRun(s);
      WordsOfRun(a);
      WordsSeparated(a[|w|..], b);
      AppendAssociative([w], Words(a[|w|..]), Words(b));
    }
  }

  lemma WordsOfSpace(s: string)
    requires s != [] && s[0] == ' '
    ensures Words(s) == Words(s[1..])
  {
  }

  lemma WordsOfRun(s: string)
    requires s != [] && s[0] != ' '
    ensures Words(s) == [Run(s)] + Words(s[|Run(s)|..])
  {
  }

  /** Every token is a piece of `s`: joined with single spaces, the tokens
      of a string made of space-free words and spaces give back the words. */
  lemma {:induction false} WordsOfJoined(w1: string, w2: string, w3: string, w4: string)
    requires w1 != [] && w2 != [] && w3 != [] && w4 != []
    requires ' ' !in w1 && ' ' !in w2 && ' ' !in w3 && ' ' !in w4
    ensures Words(w1 + [' '] + w2 + [' '] + w3 + [' '] + w4) == [w1, w2, w3, w4]
  {
    WordsSeparated(w1 + [' '] + w2 + [' '] + w3, w4);
    WordsSeparated(w1 + [' '] + w2, w3);
    WordsSeparated(w1, w2);
    WordsOfWord(w1);
    WordsOfWord(w2);
    WordsOfWord(w3);
    WordsOfWord(w4);
  }

  /** Reaching a space ends the token in progress, if there is one. */
  lemma WordsAtSpace(current: string, rest: string)
    requires ' ' !in current
    ensures Words(current + [' '] + rest) == Pending(current) + Words(rest)
  {
    WordsSeparated(current, rest);
    if current != [] {
      WordsOfWord(current);
    }
  }

  /** The token a partly scanned run contributes: none while it is empty. */
  function Pending(current: string): seq<string>
  {
    if current == [] then [] else [current]
  }

  /** One character of the split loop: a space ends the token in progress
      (if there is one), any other character extends it. */
  lemma SplitStep(tokens: seq<string>, current: string, str: string, i: nat)
    requires i < |str| && ' ' !in current
    requires tokens + Words(current + str[i..]) == Words(str)
    ensures str[i] == ' ' ==> (tokens + Pending(current)) + Words([] + str[i + 1..]) == Words(str)
    ensures str[i] != ' ' ==> tokens + Words((current + [str[i]]) + str[i + 1..]) == Words(str)
  {
    var rest := str[i..];
    assert rest[0] == str[i] && rest[1..] == str[i + 1..];
    if str[i] == ' ' {
      SpaceEndsToken(current, rest);
      AppendAssociative(tokens, Pending(current), Words([] + rest[1..]));
    } else {
      OtherExtendsToken(current, rest);
    }
  }

  lemma SpaceEndsToken(current: string, rest: string)
    requires ' ' !in current && rest != [] && rest[0] == ' '
    ensures Words(current + rest) == Pending(current) + Words([] + rest[1..])
  {
    assert current + rest == current + [' '] + rest[1..];
    assert [] + rest[1..] == rest[1..];
    WordsAtSpace(current, rest[1..]);
  }

  lemma OtherExtendsToken(current: string, rest: string)
    requires rest != []
    ensures current + rest == (current + [rest[0]]) + rest[1..]
  {
  }

  lemma AppendAssociative(a: seq<string>, b: seq<string>, c: seq<string>)
    ensures a + (b + c) == (a + b) + c
  {
  }

  /** Splits `str` at spaces, collecting each maximal run of non-space
      characters as one token, in order. */
  method Split(str: string) returns (tokens: seq<string>)
    ensures tokens == Words(str)
  {
    tokens := [];
    var current: string := [];
    var i := 0;
    assert current + str[i..] == str;
    while i < |str|
      invariant 0 <= i <= |str|
      invariant ' ' !in current
      invariant tokens + Words(current + str[i..]) == Words(str)
    {
      SplitStep(tokens, current, str, i);
      if str[i] == ' ' {
        tokens := tokens + Pending(current);
        current := [];
      } else {
        current := current + [str[i]];
      }
      i := i + 1;
    }
    SplitEnd(tokens, current, str);
    if current != [] {
      tokens := tokens + [current];
    }
  }

  /** At the end of the text the token in progress, if any, is the last. */
  lemma SplitEnd(tokens: seq<string>, current: string, str: string)
    requires ' ' !in current
    requires tokens + Words(current + str[|str|..]) == Words(str)
    ensures tokens + Pending(current) == Words(str)
  {
    assert current + str[|str|..] == current;
    if current != [] {
      WordsOfWord(current);
    }
  }

  // ---------------------------------------------------------------------
  // atoi

  predicate IsSpace(c: char) {
    c == ' ' || c == '\t' || c == '\n' || c == '\U{B}' || c == '\U{C}' || c == '\r'
  }

  predicate IsDigit(c: char) {
    '0' <= c <= '9'
  }

  /** The leading run of decimal digits of `s`. */
  function DigitRun(s: string): (ds: string)
    ensures |ds| <= |s| && ds == s[..|ds|]
    ensures forall i :: 0 <= i < |ds| ==> IsDigit(ds[i])
    ensures |ds| < |s| ==> !IsDigit(s[|ds|])
  {
    if s == [] || !IsDigit(s[0]) then []
    else
      var ds := DigitRun(s[1..]);
      assert s[..1 + |ds|] == [s[0]] + s[1..][..|ds|];
      [s[0]] + ds
  }

  /** The number a run of decimal digits denotes. */
  function DigitsValue(ds: string): (n: int)
    requires forall i :: 0 <= i < |ds| ==> IsDigit(ds[i])
    ensures n >= 0
  {
    if ds == [] then 0
    else
      assert IsDigit(ds[|ds| - 1]);
      DigitsValue(ds[..|ds| - 1]) * 10 + (ds[|ds| - 1] as int - '0' as int)
  }

  /** C's atoi: leading white space is skipped, then an optional sign, then
      the longest run of decimal digits; text without digits reads as 0. */
  function Atoi(s: string): int
  {
    if s != [] && IsSpace(s[0]) then Atoi(s[1..])
    else if s != [] && s[0] == '-' then -DigitsValue(DigitRun(s[1..]))
    else if s != [] && s[0] == '+' then DigitsValue(DigitRun(s[1..]))
    else DigitsValue(DigitRun(s))
  }

  function DigitChar(d: nat): (c: char)
    requires d < 10
    ensures IsDigit(c) && c as int - '0' as int == d
  {
    ('0' as int + d) as char
  }

  /** The decimal notation of a natural number, as a drawing file writes
      the point count. */
  function Decimal(n: nat): (s: string)
    ensures s != [] && forall i :: 0 <= i < |s| ==> IsDigit(s[i])
  {
    if n < 10 then [DigitChar(n)] else Decimal(n / 10) + [DigitChar(n % 10)]
  }

  lemma {:induction false} DigitsValueOfDecimal(n: nat)
    ensures DigitsValue(Decimal(n)) == n
  {
    if n >= 10 {
      var d := Decimal(n);
      assert d[..|d| - 1] == Decimal(n / 10);
      DigitsValueOfDecimal(n / 10);
    } else {
      assert Decimal(n)[..0] == [];
    }
  }

  lemma {:induction false} DigitRunOf(ds: string, rest: string)
    requires forall i :: 0 <= i < |ds| ==> IsDigit(ds[i])
    requires rest == [] || !IsDigit(rest[0])
    ensures DigitRun(ds + rest) == ds
    decreases |ds|
  {
    if ds == [] {
      assert ds + rest == rest;
    } else {
      assert (ds + rest)[0] == ds[0];
      assert (ds + rest)[1..] == ds[1..] + rest;
      DigitRunOf(ds[1..], rest);
    }
  }

  /** atoi reads back a number written in decimal, whatever non-digit
      text follows it. */
  lemma AtoiOfDecimal(n: nat, rest: string)
    requires rest == [] || !IsDigit(rest[0])
    ensures Atoi(Decimal(n) + rest) == n
  {
    var d := Decimal(n);
    assert (d + rest)[0] == d[0];
    DigitRunOf(d, rest);
    DigitsValueOfDecimal(n);
  }

  /** atoi reads back a negative number written with a leading minus sign. */
  lemma AtoiOfNegative(n: nat, rest: string)
    requires rest == [] || !IsDigit(rest[0])
    ensures Atoi("-" + Decimal(n) + rest) == -(n as int)
  {
    var d := Decimal(n);
    assert ("-" + d + rest)[1..] == d + rest;
    DigitRunOf(d, rest);
    DigitsValueOfDecimal(n);
  }
}
