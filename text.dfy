/** The Kotlin string operations the RTSP server relies on: prefix tests,
    `trim`, `lowercase`, `toIntOrNull`, decimal rendering of `Int`/`Long`,
    `lines()`, and the CRLF line framing that `buildString` produces. */
module Text {
  import opened Bytes
  import opened Wrappers

  const CRLF: string := "\r\n"

  /** `s.startsWith(prefix)` */
  predicate StartsWith(s: string, prefix: string)
  {
    |prefix| <= |s| && s[..|prefix|] == prefix
  }

  /** `Char.lowercaseChar()`, on the ASCII letters. */
  function LowerChar(c: char): char
  {
    if 'A' <= c <= 'Z' then (c as int + 32) as char else c
  }

  /** `String.lowercase()`, on the ASCII letters. */
  function Lowercase(s: string): (t: string)
    ensures |t| == |s|
    ensures forall i :: 0 <= i < |s| ==> t[i] == LowerChar(s[i])
  {
    if s == [] then [] else [LowerChar(s[0])] + Lowercase(s[1..])
  }

  /** `s.startsWith(prefix, ignoreCase = true)`, folding ASCII case. */
  predicate StartsWithIgnoreCase(s: string, prefix: string)
  {
    |prefix| <= |s| && Lowercase(s[..|prefix|]) == Lowercase(prefix)
  }

  /** `Char.isWhitespace()`: Java whitespace or a Unicode space separator. */
  predicate IsWhitespace(c: char)
  {
    var k := c as int;
    k == 0x20 || 0x09 <= k <= 0x0D || 0x1C <= k <= 0x1F
    || k == 0xA0 || k == 0x1680 || 0x2000 <= k <= 0x200A
    || k == 0x2028 || k == 0x2029 || k == 0x202F || k == 0x205F || k == 0x3000
  }

  /** Drops leading whitespace. */
  function TrimStart(s: string): (t: string)
    ensures |t| <= |s| && t == s[|s| - |t|..]
    ensures t == [] || !IsWhitespace(t[0])
    ensures forall i :: 0 <= i < |s| - |t| ==> IsWhitespace(s[i])
  {
    if s != [] && IsWhitespace(s[0]) then TrimStart(s[1..]) else s
  }

  /** Drops trailing whitespace. */
  function TrimEnd(s: string): (t: string)
    ensures |t| <= |s| && t == s[..|t|]
    ensures t == [] || !IsWhitespace(t[|t| - 1])
    ensures forall i :: |t| <= i < |s| ==> IsWhitespace(s[i])
  {
    if s != [] && IsWhitespace(s[|s| - 1]) then TrimEnd(s[..|s| - 1]) else s
  }

  /** `String.trim()` */
  function Trim(s: string): (t: string)
  {
    TrimEnd(TrimStart(s))
  }

  predicate IsDigit(c: char)
  {
    '0' <= c <= '9'
  }

  predicate AllDigits(s: string)
  {
    forall i :: 0 <= i < |s| ==> IsDigit(s[i])
  }

  function DigitChar(d: nat): (c: char)
    requires d < 10
    ensures IsDigit(c)
  {
    ('0' as int + d) as char
  }

  /** The value of a string of decimal digits. */
  function DecimalValue(s: string): nat
    requires AllDigits(s)
  {
    if s == [] then 0 else DecimalValue(s[..|s| - 1]) * 10 + (s[|s| - 1] as int - '0' as int)
  }

  /** Decimal rendering of a natural number, without leading zeros. */
  function NatToString(n: nat): (s: string)
    ensures |s| >= 1 && AllDigits(s)
    ensures DecimalValue(s) == n
    ensures |s| > 1 ==> s[0] != '0'
  {
    if n < 10 then [DigitChar(n)]
    else
      var s := NatToString(n / 10) + [DigitChar(n % 10)];
      assert s[..|s| - 1] == NatToString(n / 10);
      s
  }

  /** `Int.toString()` / `Long.toString()` and string templates. */
  function IntToString(x: int): (s: string)
  {
    if x < 0 then "-" + NatToString(-x) else NatToString(x)
  }

  /** `String.toIntOrNull()`: an optional sign, then one or more decimal
      digits, whose value fits in a 32-bit `Int`. */
  function ToIntOrNull(s: string): (r: Option<int32>)
  {
    if s == [] then None
    else
      var start := if s[0] == '-' || s[0] == '+' then 1 else 0;
      var digits := s[start..];
      if digits == [] || !AllDigits(digits) then None
      else
        var v: int := if s[0] == '-' then -(DecimalValue(digits) as int) else DecimalValue(digits);
        if -0x8000_0000 <= v < 0x8000_0000 then Some(v) else None
  }

  /** Every `Int` rendered by a string template parses back to itself. */
  lemma IntToStringRoundTrip(x: int32)
    ensures ToIntOrNull(IntToString(x)) == Some(x)
  {
    var s := IntToString(x);
    if x < 0 {
      assert s[1..] == NatToString(-(x as int));
    } else {
      assert s[0] != '-' && s[0] != '+' by { assert IsDigit(s[0]); }
      assert s[0..] == s;
    }
  }

  /** Rendered integers hold no whitespace and no line break. */
  lemma IntToStringChars(x: int)
    ensures |IntToString(x)| >= 1
    ensures forall i :: 0 <= i < |IntToString(x)| ==> IntToString(x)[i] == '-' || IsDigit(IntToString(x)[i])
  {
  }

  predicate IsLineBreak(c: char)
  {
    c == '\r' || c == '\n'
  }

  /** A line as `BufferedReader.readLine` returns it: no CR, no LF. */
  predicate NoLineBreak(s: string)
  {
    forall i :: 0 <= i < |s| ==> !IsLineBreak(s[i])
  }

  /** The index of the first CR or LF, or `|s|` if there is none. */
  function FirstBreak(s: string): (i: nat)
    ensures i <= |s|
    ensures NoLineBreak(s[..i])
    ensures i < |s| ==> IsLineBreak(s[i])
  {
    if s == [] || IsLineBreak(s[0]) then 0
    else
      var j := FirstBreak(s[1..]);
      assert s[..j + 1] == [s[0]] + s[1..][..j];
      j + 1
  }

  /** `String.lines()`: splits at CRLF, LF or CR; a trailing terminator
      leaves a final empty line. */
  function Lines(s: string): (ls: seq<string>)
    ensures |ls| >= 1
    decreases |s|
  {
    var i := FirstBreak(s);
    if i == |s| then [s]
    else
      var skip := if s[i] == '\r' && i + 1 < |s| && s[i + 1] == '\n' then 2 else 1;
      [s[..i]] + Lines(s[i + skip..])
  }

  /** The text `buildString` produces by appending each line and "\r\n". */
  function Join(ls: seq<string>): (s: string)
  {
    if ls == [] then "" else ls[0] + CRLF + Join(ls[1..])
  }

  predicate AllNoLineBreak(ls: seq<string>)
  {
    forall i :: 0 <= i < |ls| ==> NoLineBreak(ls[i])
  }

  lemma NoLineBreakConcat(a: string, b: string)
    requires NoLineBreak(a) && NoLineBreak(b)
    ensures NoLineBreak(a + b)
  {
  }

  lemma {:induction false} FirstBreakOfLine(l: string, rest: string)
    requires NoLineBreak(l)
    requires rest != [] && IsLineBreak(rest[0])
    ensures FirstBreak(l + rest) == |l|
  {
    if l != [] {
      assert (l + rest)[1..] == l[1..] + rest;
      FirstBreakOfLine(l[1..], rest);
    }
  }

  /** One framed line splits off the front of the text. */
  lemma LinesStep(l: string, tail: string)
    requires NoLineBreak(l)
    ensures Lines(l + CRLF + tail) == [l] + Lines(tail)
  {
    var s := l + CRLF + tail;
    assert s == l + (CRLF + tail);
    FirstBreakOfLine(l, CRLF + tail);
    var i := FirstBreak(s);
    assert i == |l| && i + 1 < |s| && s[i] == '\r' && s[i + 1] == '\n';
    assert s[..i] == l;
    assert s[i + 2..] == tail;
  }

  /** `lines()` undoes the CRLF framing: the text after a run of framed
      lines splits into those lines, then into whatever follows. */
  lemma {:induction false} LinesOfJoin(ls: seq<string>, rest: string)
    requires AllNoLineBreak(ls)
    ensures Lines(Join(ls) + rest) == ls + Lines(rest)
  {
    if ls == [] {
      assert Join(ls) + rest == rest;
    } else {
      var tail := Join(ls[1..]) + rest;
      assert AllNoLineBreak(ls[1..]) && NoLineBreak(ls[0]) by {
        assert forall i :: 0 <= i < |ls| - 1 ==> ls[1..][i] == ls[i + 1];
      }
      calc {
        Lines(Join(ls) + rest);
        == { JoinThen(ls, rest); }
        Lines(ls[0] + CRLF + tail);
        == { LinesStep(ls[0], tail); }
        [ls[0]] + Lines(tail);
        == { LinesOfJoin(ls[1..], rest); }
        [ls[0]] + (ls[1..] + Lines(rest));
        == { assert ls == [ls[0]] + ls[1..]; }
        ls + Lines(rest);
      }
    }
  }

  /** The first framed line, then the rest. */
  lemma JoinThen(ls: seq<string>, rest: string)
    requires ls != []
    ensures Join(ls) + rest == ls[0] + CRLF + (Join(ls[1..]) + rest)
  {
  }

  /** Splitting the text of framed lines gives back the lines, plus the
      empty line after the last terminator. */
  lemma LinesOfFramed(ls: seq<string>)
    requires AllNoLineBreak(ls)
    ensures Lines(Join(ls)) == ls + [""]
  {
    LinesOfJoin(ls, "");
    assert Join(ls) + "" == Join(ls);
  }

  /** Trimming a string that neither starts nor ends with whitespace leaves
      it as it is. */
  lemma TrimUntouched(t: string)
    requires t != [] && !IsWhitespace(t[0]) && !IsWhitespace(t[|t| - 1])
    ensures Trim(t) == t
  {
  }

  /** A template's single leading space is trimmed away from a string that
      neither starts nor ends with whitespace. */
  lemma TrimSpaced(t: string)
    requires t != [] && !IsWhitespace(t[0]) && !IsWhitespace(t[|t| - 1])
    ensures Trim(" " + t) == t
  {
    assert (" " + t)[1..] == t;
    TrimUntouched(t);
  }

  /** A rendered integer neither starts nor ends with whitespace. */
  lemma IntToStringEdges(x: int)
    ensures var t := IntToString(x); t != [] && !IsWhitespace(t[0]) && !IsWhitespace(t[|t| - 1])
  {
    IntToStringChars(x);
  }

  /** `"CSeq: $n"`-style templates: the space before a rendered integer is
      trimmed away again. */
  lemma TrimSpacedInt(x: int)
    ensures Trim(" " + IntToString(x)) == IntToString(x)
  {
    IntToStringEdges(x);
    TrimSpaced(IntToString(x));
  }

  /** One more framed line. */
  lemma JoinSnoc(ls: seq<string>, l: string)
    ensures Join(ls + [l]) == Join(ls) + l + CRLF
  {
    JoinAppend(ls, [l]);
    assert Join([l]) == l + CRLF + Join([]);
  }

  lemma {:induction false} JoinAppend(a: seq<string>, b: seq<string>)
    ensures Join(a + b) == Join(a) + Join(b)
  {
    if a != [] {
      assert (a + b)[1..] == a[1..] + b;
      JoinAppend(a[1..], b);
    } else {
      assert a + b == b;
    }
  }
}
