/**
 * Character classes, regular expressions and JavaScript built-ins the linter relies on:
 * `\s`, `/\s+$/`, `/\S/`, `/;$/`, `/^[A-Z][a-zA-Z\d]*$/`, `String.prototype.split('\n')`
 * and the decimal rendering of a number inside a string concatenation.
 */
module Text {

  /**
   * JavaScript's `\s`: the ECMAScript WhiteSpace and LineTerminator code points
   * (tab, line feed, vertical tab, form feed, carriage return, space, no-break space,
   * the Unicode space separators and the byte order mark).
   */
  predicate IsWhitespace(ch: char)
  {
    ch == '\t' || ch == '\n' || ch == '\U{000B}' || ch == '\U{000C}' || ch == '\r' || ch == ' '
    || ch == '\U{00A0}' || ch == '\U{1680}' || ('\U{2000}' <= ch <= '\U{200A}')
    || ch == '\U{2028}' || ch == '\U{2029}' || ch == '\U{202F}' || ch == '\U{205F}'
    || ch == '\U{3000}' || ch == '\U{FEFF}'
  }

  predicate IsAsciiUpper(ch: char) { 'A' <= ch <= 'Z' }

  predicate IsAsciiLetter(ch: char) { 'a' <= ch <= 'z' || IsAsciiUpper(ch) }

  /** JavaScript's `\d`: the ASCII digits only. */
  predicate IsDigit(ch: char) { '0' <= ch <= '9' }

  /** `/^[A-Z][a-zA-Z\d]*$/.test(s)` */
  predicate IsPascalCase(s: string)
  {
    |s| > 0 && IsAsciiUpper(s[0]) && forall k :: 1 <= k < |s| ==> IsAsciiLetter(s[k]) || IsDigit(s[k])
  }

  /** `/\s+$/.test(s)`: a run of whitespace reaches the end, which holds iff the last character is whitespace. */
  predicate EndsWithWhitespace(s: string)
  {
    |s| > 0 && IsWhitespace(s[|s| - 1])
  }

  /** Every character of `s` from position `j` on is whitespace. */
  predicate WhitespaceFrom(s: string, j: nat)
  {
    forall m :: j <= m < |s| ==> IsWhitespace(s[m])
  }

  /** The regular expression's own reading: some non-empty suffix of `s` is all whitespace. */
  lemma EndsWithWhitespaceIff(s: string)
    ensures EndsWithWhitespace(s) <==> exists j: nat :: j < |s| && WhitespaceFrom(s, j)
  {
    if EndsWithWhitespace(s) {
      assert WhitespaceFrom(s, |s| - 1);
    }
  }

  /** `/;$/.test(s)` */
  predicate EndsWithSemicolon(s: string)
  {
    |s| > 0 && s[|s| - 1] == ';'
  }

  /** `s.split(/\S/)[0]`: the whitespace before the first non-whitespace character (all of `s` if there is none). */
  function LeadingWhitespace(s: string): (w: string)
    ensures w <= s
    ensures forall k :: 0 <= k < |w| ==> IsWhitespace(w[k])
    ensures |w| == |s| || !IsWhitespace(s[|w|])
  {
    if s == [] || !IsWhitespace(s[0]) then [] else [s[0]] + LeadingWhitespace(s[1..])
  }

  /** A tab occurs in the leading whitespace iff some tab of `s` is preceded by whitespace only. */
  lemma TabInLeadingWhitespace(s: string)
    ensures '\t' in LeadingWhitespace(s) <==>
      exists j :: 0 <= j < |s| && s[j] == '\t' && forall m :: 0 <= m < j ==> IsWhitespace(s[m])
  {
  }

  /** `s.split('\n')`: the pieces between line feeds, always at least one. */
  function Split(s: string): (lines: seq<string>)
    ensures |lines| >= 1
    ensures forall k :: 0 <= k < |lines| ==> '\n' !in lines[k]
  {
    if s == [] then [[]]
    else
      var rest := Split(s[1..]);
      if s[0] == '\n' then [[]] + rest else [[s[0]] + rest[0]] + rest[1..]
  }

  /** `lines.join('\n')`, the inverse of Split. */
  function Join(lines: seq<string>): string
    requires |lines| >= 1
  {
    if |lines| == 1 then lines[0] else lines[0] + "\n" + Join(lines[1..])
  }

  lemma JoinConsHead(c: char, lines: seq<string>)
    requires |lines| >= 1
    ensures Join([[c] + lines[0]] + lines[1..]) == [c] + Join(lines)
  {
  }

  /** Splitting on line feeds loses nothing: joining the pieces back gives the text. */
  lemma {:induction false} JoinSplit(s: string)
    ensures Join(Split(s)) == s
  {
    if s != [] {
      var rest := Split(s[1..]);
      JoinSplit(s[1..]);
      if s[0] == '\n' {
        assert ([[]] + rest)[1..] == rest;
        assert s == "\n" + s[1..];
      } else {
        JoinConsHead(s[0], rest);
        assert s == [s[0]] + s[1..];
      }
    }
  }

  /** A line without a line feed, followed by one, is the first piece; the rest splits on its own. */
  lemma {:induction false} SplitLine(line: string, rest: string)
    requires '\n' !in line
    ensures Split(line + "\n" + rest) == [line] + Split(rest)
  {
    if line == [] {
      assert line + "\n" + rest == "\n" + rest;
    } else {
      var s := line + "\n" + rest;
      assert s[0] == line[0] && s[1..] == line[1..] + "\n" + rest;
      SplitLine(line[1..], rest);
      assert line == [line[0]] + line[1..];
    }
  }

  /** Text without a line feed is a single line. */
  lemma {:induction false} SplitSingleLine(line: string)
    requires '\n' !in line
    ensures Split(line) == [line]
  {
    if line != [] {
      SplitSingleLine(line[1..]);
      assert line == [line[0]] + line[1..];
    }
  }

  function DigitChar(d: nat): (ch: char)
    requires d < 10
    ensures IsDigit(ch)
  {
    ('0' as int + d) as char
  }

  /** The decimal text of a natural number, as JavaScript renders it (no leading zeros). */
  function NatToString(n: nat): (s: string)
    ensures |s| >= 1
    ensures forall k :: 0 <= k < |s| ==> IsDigit(s[k])
    ensures |s| > 1 ==> s[0] != '0'
    decreases n
  {
    if n < 10 then [DigitChar(n)] else NatToString(n / 10) + [DigitChar(n % 10)]
  }

  /** `String(n)` for an integer `n`. */
  function IntToString(n: int): string
  {
    if n < 0 then "-" + NatToString(-n) else NatToString(n)
  }

  function DigitValue(ch: char): nat
    requires IsDigit(ch)
  {
    ch as int - '0' as int
  }

  /** Reads a run of decimal digits back as a number. */
  function ParseNat(s: string): nat
    requires forall k :: 0 <= k < |s| ==> IsDigit(s[k])
  {
    if s == [] then 0 else 10 * ParseNat(s[..|s| - 1]) + DigitValue(s[|s| - 1])
  }

  /** Reads an optionally negative decimal back as a number. */
  function ParseInt(s: string): int
  {
    if |s| > 0 && s[0] == '-' && forall k :: 1 <= k < |s| ==> IsDigit(s[k]) then -(ParseNat(s[1..]) as int)
    else if forall k :: 0 <= k < |s| ==> IsDigit(s[k]) then ParseNat(s)
    else 0
  }

  lemma {:induction false} ParseNatToString(n: nat)
    ensures ParseNat(NatToString(n)) == n
    decreases n
  {
    if n >= 10 {
      var s := NatToString(n);
      ParseNatToString(n / 10);
      assert s[..|s| - 1] == NatToString(n / 10);
    }
  }

  /** The decimal rendering of an integer can be read back: it loses nothing. */
  lemma IntToStringRoundTrip(n: int)
    ensures ParseInt(IntToString(n)) == n
  {
    if n < 0 {
      var s := IntToString(n);
      assert s[1..] == NatToString(-n);
      ParseNatToString(-n);
    } else {
      ParseNatToString(n);
    }
  }
}
