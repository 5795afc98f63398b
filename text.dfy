/** The .NET string operations the core relies on: Char.IsWhiteSpace, String.Trim,
    String.Split with no separator and RemoveEmptyEntries, ordinal and ASCII
    case-insensitive prefix tests, StringReader.ReadLine, and decimal formatting of
    integers. Each is given as a function, with the facts the rest of the model needs. */
module Text {
  import opened Wrappers

  /** Environment.NewLine on Windows, the platform the application targets. */
  const NewLine: string := "\r\n"

  // ---------------------------------------------------------------------------
  // White space

  /** Char.IsWhiteSpace: the Unicode space separators, the line and paragraph
      separators, U+0009..U+000D, U+0085 and U+00A0. */
  predicate IsWhiteSpace(c: char) {
    || c == ' '
    || ('\t' <= c <= '\r')
    || c == '\U{85}' || c == '\U{A0}' || c == '\U{1680}'
    || ('\U{2000}' <= c <= '\U{200A}')
    || c == '\U{2028}' || c == '\U{2029}' || c == '\U{202F}' || c == '\U{205F}' || c == '\U{3000}'
  }

  /** String.IsNullOrWhiteSpace on a string that is not null. */
  predicate IsBlank(s: string) {
    forall i :: 0 <= i < |s| ==> IsWhiteSpace(s[i])
  }

  /** String.IsNullOrWhiteSpace on a nullable string. */
  predicate IsNullOrBlank(s: Option<string>) {
    s.None? || IsBlank(s.value)
  }

  /** String.TrimStart(): drops the leading white space. */
  function TrimStart(s: string): (r: string)
    ensures |r| <= |s| && r == s[|s| - |r|..]
    ensures r == [] || !IsWhiteSpace(r[0])
    ensures forall i :: 0 <= i < |s| - |r| ==> IsWhiteSpace(s[i])
  {
    if s != [] && IsWhiteSpace(s[0]) then
      var r := TrimStart(s[1..]);
      assert s[1..][|s| - 1 - |r|..] == s[|s| - |r|..];
      assert forall i :: 1 <= i < |s| - |r| ==> s[i] == s[1..][i - 1];
      r
    else s
  }

  /** String.TrimEnd(): drops the trailing white space. */
  function TrimEnd(s: string): (r: string)
    ensures |r| <= |s| && r == s[..|r|]
    ensures r == [] || !IsWhiteSpace(r[|r| - 1])
    ensures forall i :: |r| <= i < |s| ==> IsWhiteSpace(s[i])
  {
    if s != [] && IsWhiteSpace(s[|s| - 1]) then TrimEnd(s[..|s| - 1]) else s
  }

  /** String.Trim(): the infix of s left once the white space at both ends is dropped. */
  function Trim(s: string): (r: string)
    ensures |r| <= |s|
    ensures r == [] <==> IsBlank(s)
    ensures r == [] || (!IsWhiteSpace(r[0]) && !IsWhiteSpace(r[|r| - 1]))
  {
    TrimEnd(TrimStart(s))
  }

  /** Trimming a string without white space at its ends changes nothing. */
  lemma TrimOfTrimmed(s: string)
    requires s == [] || (!IsWhiteSpace(s[0]) && !IsWhiteSpace(s[|s| - 1]))
    ensures Trim(s) == s
  {
  }

  // ---------------------------------------------------------------------------
  // Splitting on white space

  /** A non-empty run of characters none of which is white space. */
  predicate IsToken(t: string) {
    t != [] && forall i :: 0 <= i < |t| ==> !IsWhiteSpace(t[i])
  }

  /** The length of the run of non-white-space characters that s starts with. */
  function RunLength(s: string): (n: nat)
    ensures n <= |s|
    ensures forall i :: 0 <= i < n ==> !IsWhiteSpace(s[i])
    ensures n == |s| || IsWhiteSpace(s[n])
  {
    if s == [] || IsWhiteSpace(s[0]) then 0 else 1 + RunLength(s[1..])
  }

  /** String.Split((char[])null, StringSplitOptions.RemoveEmptyEntries): the maximal
      runs of non-white-space characters, in order. */
  function Split(s: string): (r: seq<string>)
    ensures forall k :: 0 <= k < |r| ==> IsToken(r[k])
    ensures |r| <= |s|
    decreases |s|
  {
    if s == [] then []
    else if IsWhiteSpace(s[0]) then Split(s[1..])
    else
      var n := RunLength(s);
      [s[..n]] + Split(s[n..])
  }

  /** The tokens joined by single spaces. */
  function JoinWords(ts: seq<string>): string {
    if |ts| == 0 then ""
    else if |ts| == 1 then ts[0]
    else ts[0] + " " + JoinWords(ts[1..])
  }

  lemma {:induction false} RunLengthOfToken(t: string, rest: string)
    requires IsToken(t) || t == []
    requires rest == [] || IsWhiteSpace(rest[0])
    ensures RunLength(t + rest) == |t|
    decreases |t|
  {
    if t == [] {
      assert t + rest == rest;
    } else {
      assert (t + rest)[1..] == t[1..] + rest;
      RunLengthOfToken(t[1..], rest);
    }
  }

  /** A token followed by white space (or nothing) is split off as one piece. */
  lemma SplitToken(t: string, rest: string)
    requires IsToken(t)
    requires rest == [] || IsWhiteSpace(rest[0])
    ensures Split(t + rest) == [t] + Split(rest)
  {
    RunLengthOfToken(t, rest);
    assert (t + rest)[..|t|] == t;
    assert (t + rest)[|t|..] == rest;
  }

  /** Split is the inverse of joining tokens with single spaces. */
  lemma {:induction false} SplitJoinWords(ts: seq<string>)
    requires forall k :: 0 <= k < |ts| ==> IsToken(ts[k])
    ensures Split(JoinWords(ts)) == ts
  {
    if |ts| == 1 {
      SplitToken(ts[0], "");
      assert ts[0] + "" == ts[0];
    } else if |ts| > 1 {
      var rest := JoinWords(ts[1..]);
      assert JoinWords(ts) == ts[0] + (" " + rest);
      SplitToken(ts[0], " " + rest);
      assert (" " + rest)[1..] == rest;
      SplitJoinWords(ts[1..]);
      assert [ts[0]] + ts[1..] == ts;
    }
  }

  /** Joining two non-empty lists is joining each and putting a space between. */
  lemma {:induction false} JoinWordsAppend(xs: seq<string>, ys: seq<string>)
    requires xs != [] && ys != []
    ensures JoinWords(xs + ys) == JoinWords(xs) + " " + JoinWords(ys)
    decreases |xs|
  {
    if |xs| == 1 {
      assert (xs + ys)[1..] == ys;
    } else {
      assert (xs + ys)[1..] == xs[1..] + ys;
      JoinWordsAppend(xs[1..], ys);
    }
  }

  /** Concatenation is associative; a step Dafny sometimes needs spelled out. */
  lemma AppendAssoc<T>(a: seq<T>, b: seq<T>, c: seq<T>)
    ensures a + b + c == a + (b + c)
  {
  }

  // ---------------------------------------------------------------------------
  // Prefix tests

  /** String.StartsWith with ordinal comparison. */
  predicate StartsWith(s: string, prefix: string) {
    |prefix| <= |s| && s[..|prefix|] == prefix
  }

  /** Upper-casing of the ASCII letters; every other character is its own upper case. */
  function ToUpperAscii(c: char): (u: char)
    ensures 'a' <= c <= 'z' ==> u as int == c as int - 32
    ensures !('a' <= c <= 'z') ==> u == c
  {
    if 'a' <= c <= 'z' then (c as int - 32) as char else c
  }

  /** String.StartsWith with StringComparison.OrdinalIgnoreCase, case folding ASCII letters. */
  predicate StartsWithIgnoreCase(s: string, prefix: string) {
    |prefix| <= |s| && forall i :: 0 <= i < |prefix| ==> ToUpperAscii(s[i]) == ToUpperAscii(prefix[i])
  }

  // ---------------------------------------------------------------------------
  // Reading lines

  predicate IsLineBreak(c: char) {
    c == '\r' || c == '\n'
  }

  /** The index of the first line break at or after pos, or |text| if there is none. */
  function LineEnd(text: string, pos: nat): (e: nat)
    requires pos <= |text|
    ensures pos <= e <= |text|
    ensures forall i :: pos <= i < e ==> !IsLineBreak(text[i])
    ensures e == |text| || IsLineBreak(text[e])
    decreases |text| - pos
  {
    if pos == |text| || IsLineBreak(text[pos]) then pos else LineEnd(text, pos + 1)
  }

  /** StringReader.ReadLine at position pos: None once the text is used up, otherwise
      the characters up to the next "\r", "\n" or "\r\n" and the position after it. */
  function ReadLine(text: string, pos: nat): (r: Option<(string, nat)>)
    requires pos <= |text|
    ensures r.None? <==> pos == |text|
    ensures r.Some? ==> pos < r.value.1 <= |text|
    ensures r.Some? ==> forall i :: 0 <= i < |r.value.0| ==> !IsLineBreak(r.value.0[i])
  {
    if pos == |text| then None
    else
      var e := LineEnd(text, pos);
      var next :=
        if e == |text| then e
        else if text[e] == '\r' && e + 1 < |text| && text[e + 1] == '\n' then e + 2
        else e + 1;
      Some((text[pos..e], next))
  }

  /** The lines that successive ReadLine calls return from position pos on. */
  function LinesFrom(text: string, pos: nat): seq<string>
    requires pos <= |text|
    decreases |text| - pos
  {
    match ReadLine(text, pos)
    case None => []
    case Some((line, next)) => [line] + LinesFrom(text, next)
  }

  /** The lines of a text, as a StringReader hands them out. */
  function Lines(text: string): seq<string> {
    LinesFrom(text, 0)
  }

  /** Lines terminated by "\n", concatenated. */
  function UnixText(lines: seq<string>): string {
    if lines == [] then "" else lines[0] + "\n" + UnixText(lines[1..])
  }

  lemma {:induction false} LineEndAt(text: string, pos: nat, line: string)
    requires pos + |line| < |text| && text[pos..pos + |line|] == line
    requires forall i :: 0 <= i < |line| ==> !IsLineBreak(line[i])
    requires text[pos + |line|] == '\n'
    ensures LineEnd(text, pos) == pos + |line|
    decreases |line|
  {
    if line != [] {
      assert text[pos] == line[0];
      assert text[pos + 1..pos + 1 + |line[1..]|] == line[1..];
      LineEndAt(text, pos + 1, line[1..]);
    }
  }

  /** A line holds no line break. */
  predicate NoLineBreaks(line: string) {
    forall i :: 0 <= i < |line| ==> !IsLineBreak(line[i])
  }

  lemma {:induction false} LinesOfUnixTextFrom(prefix: string, lines: seq<string>)
    requires forall k :: 0 <= k < |lines| ==> NoLineBreaks(lines[k])
    ensures LinesFrom(prefix + UnixText(lines), |prefix|) == lines
    decreases |lines|
  {
    if lines == [] {
      assert prefix + UnixText(lines) == prefix;
    } else {
      var line, tail := lines[0], lines[1..];
      var next := prefix + line + "\n";
      var text := prefix + UnixText(lines);
      assert NoLineBreaks(line);
      UnixTextStep(prefix, lines);
      assert text == next + UnixText(tail);
      ReadUnixLine(prefix, line, UnixText(tail));
      LinesFromStep(text, |prefix|);
      assert |next| == |prefix| + |line| + 1;
      assert LinesFrom(text, |prefix|) == [line] + LinesFrom(next + UnixText(tail), |next|);
      assert forall k :: 0 <= k < |tail| ==> NoLineBreaks(tail[k]) by {
        forall k | 0 <= k < |tail| ensures NoLineBreaks(tail[k]) {
          assert tail[k] == lines[k + 1];
        }
      }
      LinesOfUnixTextFrom(next, tail);
      assert lines == [line] + tail;
    }
  }

  /** The text after a prefix starts with the first line and its line break. */
  lemma UnixTextStep(prefix: string, lines: seq<string>)
    requires lines != []
    ensures prefix + UnixText(lines) == prefix + lines[0] + "\n" + UnixText(lines[1..])
  {
    assert UnixText(lines) == lines[0] + "\n" + UnixText(lines[1..]);
  }

  /** One ReadLine call hands out the first line of what follows pos. */
  lemma LinesFromStep(text: string, pos: nat)
    requires pos <= |text| && ReadLine(text, pos).Some?
    ensures LinesFrom(text, pos) == [ReadLine(text, pos).value.0] + LinesFrom(text, ReadLine(text, pos).value.1)
  {
  }

  /** Reading at the start of a "\n"-terminated line gives that line and the position after
      its line break. */
  lemma ReadUnixLine(prefix: string, line: string, rest: string)
    requires NoLineBreaks(line)
    ensures var text := prefix + line + "\n" + rest;
            ReadLine(text, |prefix|) == Some((line, |prefix| + |line| + 1))
  {
    var text := prefix + line + "\n" + rest;
    assert text[|prefix|..|prefix| + |line|] == line;
    assert text[|prefix| + |line|] == '\n';
    LineEndAt(text, |prefix|, line);
  }

  /** ReadLine gives back the lines of a "\n"-terminated text. */
  lemma LinesOfUnixText(lines: seq<string>)
    requires forall k :: 0 <= k < |lines| ==> NoLineBreaks(lines[k])
    ensures Lines(UnixText(lines)) == lines
  {
    LinesOfUnixTextFrom("", lines);
    assert "" + UnixText(lines) == UnixText(lines);
  }

  // ---------------------------------------------------------------------------
  // Decimal formatting of integers

  predicate IsDigit(c: char) {
    '0' <= c <= '9'
  }

  predicate IsDigits(s: string) {
    s != [] && forall i :: 0 <= i < |s| ==> IsDigit(s[i])
  }

  function DigitChar(d: nat): (c: char)
    requires d < 10
    ensures IsDigit(c)
  {
    ('0' as int + d) as char
  }

  function DigitValue(c: char): (d: nat)
    requires IsDigit(c)
    ensures d < 10
  {
    c as int - '0' as int
  }

  /** The decimal digits of n, without leading zeros. */
  function NatToString(n: nat): (s: string)
    ensures IsDigits(s)
    ensures s[0] == '0' ==> n == 0
  {
    if n < 10 then [DigitChar(n)] else NatToString(n / 10) + [DigitChar(n % 10)]
  }

  /** Int32.ToString() under the invariant culture: a minus sign, then the digits. */
  function IntToString(n: int): (s: string)
    ensures s != []
    ensures forall i :: 0 <= i < |s| ==> IsDigit(s[i]) || (i == 0 && s[i] == '-')
  {
    if n < 0 then "-" + NatToString(-n) else NatToString(n)
  }

  function ParseNat(s: string): nat
    requires IsDigits(s)
  {
    if |s| == 1 then DigitValue(s[0])
    else ParseNat(s[..|s| - 1]) * 10 + DigitValue(s[|s| - 1])
  }

  /** Reads back a decimal integer with an optional leading minus sign. */
  function ParseInt(s: string): Option<int> {
    if IsDigits(s) then Some(ParseNat(s))
    else if |s| >= 2 && s[0] == '-' && IsDigits(s[1..]) then Some(0 - ParseNat(s[1..]) as int)
    else None
  }

  lemma {:induction false} ParseNatToString(n: nat)
    ensures ParseNat(NatToString(n)) == n
  {
    if n >= 10 {
      var s := NatToString(n);
      assert s[..|s| - 1] == NatToString(n / 10);
      ParseNatToString(n / 10);
    }
  }

  /** Formatting an integer loses nothing: ParseInt reads it back. */
  lemma ParseIntToString(n: int)
    ensures ParseInt(IntToString(n)) == Some(n)
  {
    if n < 0 {
      var digits := NatToString(-n);
      var s := "-" + digits;
      assert IntToString(n) == s;
      assert !IsDigit(s[0]);
      assert s[1..] == digits;
      ParseNatToString(-n);
      assert ParseInt(s) == Some(0 - ParseNat(digits) as int);
    } else {
      assert IntToString(n) == NatToString(n);
      ParseNatToString(n);
    }
  }
}
