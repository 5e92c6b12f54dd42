/** String helpers the reader and its scripts rely on: decimal rendering of
    numbers (`n.toString()`), `padStart(3, '0')`, `parseInt(s, 10)` on digit
    strings, ASCII `toLowerCase`, the first-occurrence `String.replace` and
    `Array.join`. */
module Text {
  import opened Wrappers

  predicate IsDigit(c: char) {
    '0' <= c <= '9'
  }

  predicate IsDigits(s: string) {
    forall i :: 0 <= i < |s| ==> IsDigit(s[i])
  }

  function DigitChar(d: nat): (c: char)
    requires d < 10
    ensures IsDigit(c)
  {
    ['0', '1', '2', '3', '4', '5', '6', '7', '8', '9'][d]
  }

  function DigitValue(c: char): (d: nat)
    requires IsDigit(c)
    ensures d < 10
  {
    (c as int - '0' as int) as nat
  }

  lemma DigitRoundTrip(d: nat)
    requires d < 10
    ensures DigitValue(DigitChar(d)) == d
  {
  }

  /** `n.toString()` for a non-negative integer: shortest decimal form. */
  function NatToString(n: nat): (s: string)
    ensures |s| >= 1 && IsDigits(s)
    ensures n >= 10 ==> s[0] != '0'
  {
    if n < 10 then [DigitChar(n)] else NatToString(n / 10) + [DigitChar(n % 10)]
  }

  /** `i.toString()` for any integer. */
  function IntToString(i: int): (s: string)
    ensures |s| >= 1
    ensures i >= 0 <==> s[0] != '-'
  {
    if i < 0 then "-" + NatToString(-i) else NatToString(i)
  }

  /** A decimal form holds digits and a leading sign only. */
  lemma IntToStringNoComma(i: int)
    ensures ',' !in IntToString(i)
  {
    var s := IntToString(i);
    var d := NatToString(if i < 0 then -i else i);
    assert ',' !in d by {
      assert forall k :: 0 <= k < |d| ==> IsDigit(d[k]);
    }
    if i < 0 {
      assert s == "-" + d;
    }
  }

  /** `parseInt(s, 10)` on a string of decimal digits (leading zeros allowed). */
  function ParseDecimal(s: string): nat
    requires IsDigits(s)
  {
    if s == [] then 0 else ParseDecimal(s[..|s| - 1]) * 10 + DigitValue(s[|s| - 1])
  }

  lemma {:induction false} ParseNatToString(n: nat)
    ensures ParseDecimal(NatToString(n)) == n
  {
    if n < 10 {
      DigitRoundTrip(n);
    } else {
      var s := NatToString(n);
      assert s[..|s| - 1] == NatToString(n / 10);
      ParseNatToString(n / 10);
      DigitRoundTrip(n % 10);
    }
  }

  /** The white space `Number(s)` trims: the ASCII spaces and line breaks,
      no-break space, the line and paragraph separators and the byte-order
      mark. */
  predicate IsJsSpace(c: char) {
    c in {' ', '\t', '\n', '\r', '\U{B}', '\U{C}', '\U{A0}', '\U{2028}', '\U{2029}', '\U{FEFF}'}
  }

  function TrimStart(s: string): (r: string)
    ensures |r| <= |s| && r == s[|s| - |r|..]
    ensures r == [] || !IsJsSpace(r[0])
    ensures (s == [] || !IsJsSpace(s[0])) ==> r == s
  {
    if s != [] && IsJsSpace(s[0]) then TrimStart(s[1..]) else s
  }

  function TrimEnd(s: string): (r: string)
    ensures |r| <= |s| && r == s[..|r|]
    ensures r == [] || !IsJsSpace(r[|r| - 1])
    ensures (s == [] || !IsJsSpace(s[|s| - 1])) ==> r == s
  {
    if s != [] && IsJsSpace(s[|s| - 1]) then TrimEnd(s[..|s| - 1]) else s
  }

  /** `Number(s)` where the result is an integer written in decimal: white
      space around it is ignored, an empty or blank string is 0, one sign
      may precede the digits; any other text is NaN (None). */
  function StringToNumber(s: string): (n: Option<int>)
    ensures var t := TrimEnd(TrimStart(s));
      && (t == [] ==> n == Some(0))
      && (t != [] && IsDigits(t) ==> n == Some(ParseDecimal(t)))
      && (n.None? ==> t != [] && !IsDigits(t))
  {
    var t := TrimEnd(TrimStart(s));
    if t == [] then Some(0)
    else if IsDigits(t) then Some(ParseDecimal(t))
    else if |t| >= 2 && t[0] == '-' && IsDigits(t[1..]) then Some(-(ParseDecimal(t[1..]) as int))
    else if |t| >= 2 && t[0] == '+' && IsDigits(t[1..]) then Some(ParseDecimal(t[1..]))
    else None
  }

  /** `Number(String(i)) == i`: the decimal form of an integer reads back. */
  lemma StringToNumberOfInt(i: int)
    ensures StringToNumber(IntToString(i)) == Some(i)
  {
    var s := IntToString(i);
    var d := NatToString(if i < 0 then -i else i);
    assert !IsJsSpace(s[0]) && !IsJsSpace(s[|s| - 1]) by {
      assert forall k :: 0 <= k < |d| ==> IsDigit(d[k]);
      if i < 0 { assert s == "-" + d; }
    }
    assert TrimEnd(TrimStart(s)) == s;
    ParseNatToString(if i < 0 then -i else i);
    if i < 0 {
      assert s == "-" + d && s[1..] == d;
      assert !IsDigits(s) by { assert !IsDigit(s[0]); }
    }
  }

  lemma {:induction false} ParseIgnoresLeadingZero(s: string)
    requires IsDigits(s)
    ensures IsDigits(['0'] + s) && ParseDecimal(['0'] + s) == ParseDecimal(s)
  {
    if s != [] {
      var t := ['0'] + s;
      assert t[..|t| - 1] == ['0'] + s[..|s| - 1];
      ParseIgnoresLeadingZero(s[..|s| - 1]);
    }
  }

  lemma NatToStringInjective(a: nat, b: nat)
    requires NatToString(a) == NatToString(b)
    ensures a == b
  {
    ParseNatToString(a);
    ParseNatToString(b);
  }

  /** `s.padStart(3, '0')`. */
  function PadStart3(s: string): (r: string)
    ensures |r| == if |s| >= 3 then |s| else 3
    decreases 3 - |s|
  {
    if |s| >= 3 then s else PadStart3(['0'] + s)
  }

  lemma {:induction false} PadStart3KeepsValue(s: string)
    requires IsDigits(s)
    ensures IsDigits(PadStart3(s)) && ParseDecimal(PadStart3(s)) == ParseDecimal(s)
    decreases 3 - |s|
  {
    if |s| < 3 {
      ParseIgnoresLeadingZero(s);
      PadStart3KeepsValue(['0'] + s);
    }
  }

  /** `n.toString().padStart(3, '0')`, the numbering of chapter and verse files. */
  function Pad3(n: nat): string {
    PadStart3(NatToString(n))
  }

  /** Reading a padded number back gives the number: the round trip behind
      every `chapter-NNN.json` and `{parasha}-NNN-NNN.json` name. */
  lemma ParsePad3(n: nat)
    ensures IsDigits(Pad3(n)) && ParseDecimal(Pad3(n)) == n
  {
    PadStart3KeepsValue(NatToString(n));
    ParseNatToString(n);
  }

  lemma Pad3Injective(a: nat, b: nat)
    requires Pad3(a) == Pad3(b)
    ensures a == b
  {
    ParsePad3(a);
    ParsePad3(b);
  }

  function LowerChar(c: char): (l: char)
    ensures 'A' <= c <= 'Z' ==> l as int == c as int + 32
    ensures !('A' <= c <= 'Z') ==> l == c
  {
    if 'A' <= c <= 'Z' then (c as int + 32) as char else c
  }

  /** `s.toLowerCase()` restricted to ASCII letters. */
  function ToLowerAscii(s: string): (r: string)
    ensures |r| == |s|
    ensures forall i :: 0 <= i < |s| ==> r[i] == LowerChar(s[i])
  {
    seq(|s|, i requires 0 <= i < |s| => LowerChar(s[i]))
  }

  function FirstIndexOf(s: string, c: char): (k: nat)
    requires c in s
    ensures k < |s| && s[k] == c && c !in s[..k]
  {
    if s[0] == c then 0 else 1 + FirstIndexOf(s[1..], c)
  }

  /** `s.replace(c, d)` with a one-character string pattern: only the first
      occurrence is replaced. */
  function ReplaceFirst(s: string, c: char, d: char): (r: string)
    ensures |r| == |s|
  {
    if s == [] then []
    else if s[0] == c then [d] + s[1..]
    else [s[0]] + ReplaceFirst(s[1..], c, d)
  }

  lemma {:induction false} ReplaceFirstSpec(s: string, c: char, d: char)
    ensures c !in s ==> ReplaceFirst(s, c, d) == s
    ensures c in s ==>
      var k := FirstIndexOf(s, c);
      ReplaceFirst(s, c, d) == s[..k] + [d] + s[k + 1..]
  {
    if c in s {
      ReplaceFirstPresent(s, c, d);
    } else {
      ReplaceFirstAbsent(s, c, d);
    }
  }

  lemma {:induction false} ReplaceFirstAbsent(s: string, c: char, d: char)
    requires c !in s
    ensures ReplaceFirst(s, c, d) == s
  {
    if s != [] {
      assert c !in s[1..];
      ReplaceFirstAbsent(s[1..], c, d);
    }
  }

  lemma {:induction false} ReplaceFirstPresent(s: string, c: char, d: char)
    requires c in s
    ensures ReplaceFirst(s, c, d) == s[..FirstIndexOf(s, c)] + [d] + s[FirstIndexOf(s, c) + 1..]
  {
    if s[0] != c {
      var t := s[1..];
      assert c in t;
      ReplaceFirstPresent(t, c, d);
      var k := FirstIndexOf(t, c);
      assert FirstIndexOf(s, c) == k + 1;
      assert t[..k] == s[1..k + 1];
      assert [s[0]] + s[1..k + 1] == s[..k + 1];
      assert t[k + 1..] == s[k + 2..];
    }
  }

  /** `parts.join(sep)`. */
  function Join(parts: seq<string>, sep: string): (r: string)
    ensures |parts| == 1 ==> r == parts[0]
    ensures |parts| == 0 ==> r == ""
  {
    if |parts| == 0 then ""
    else if |parts| == 1 then parts[0]
    else parts[0] + sep + Join(parts[1..], sep)
  }

  function SumLengths(parts: seq<string>): nat {
    if parts == [] then 0 else |parts[0]| + SumLengths(parts[1..])
  }

  /** Joining n parts adds n - 1 separators to their lengths. */
  lemma {:induction false} JoinLength(parts: seq<string>, sep: string)
    requires |parts| >= 1
    ensures |Join(parts, sep)| == SumLengths(parts) + (|parts| - 1) * |sep|
  {
    if |parts| > 1 {
      JoinLength(parts[1..], sep);
    }
  }

  /** `FirstIndexOf` is the one position holding `c` with no `c` before it. */
  lemma FirstIndexOfAt(s: string, c: char, k: nat)
    requires k < |s| && s[k] == c && c !in s[..k]
    ensures FirstIndexOf(s, c) == k
  {
  }

  /** `s.split(c)` with a one-character separator. */
  function Split(s: string, c: char): (parts: seq<string>)
    ensures |parts| >= 1
    ensures forall i :: 0 <= i < |parts| ==> c !in parts[i]
    decreases |s|
  {
    if c !in s then [s]
    else
      var k := FirstIndexOf(s, c);
      [s[..k]] + Split(s[k + 1..], c)
  }

  /** Joining the pieces of a split puts the string back together. */
  lemma {:induction false} JoinSplit(s: string, c: char)
    ensures Join(Split(s, c), [c]) == s
    decreases |s|
  {
    if c in s {
      var k := FirstIndexOf(s, c);
      var rest := Split(s[k + 1..], c);
      JoinSplit(s[k + 1..], c);
      assert Split(s, c) == [s[..k]] + rest;
      assert ([s[..k]] + rest)[1..] == rest;
      assert s == s[..k] + [c] + s[k + 1..];
    }
  }

  /** A first piece free of the separator splits off whole. */
  lemma SplitCons(a: string, c: char, rest: string)
    requires c !in a
    ensures Split(a + [c] + rest, c) == [a] + Split(rest, c)
  {
    var s := a + [c] + rest;
    assert s[..|a|] == a && s[|a|] == c && s[|a| + 1..] == rest;
    FirstIndexOfAt(s, c, |a|);
  }

  /** Splitting parts joined by a separator none of them holds gives the
      parts back. */
  lemma {:induction false} SplitJoin(parts: seq<string>, c: char)
    requires |parts| >= 1
    requires forall i :: 0 <= i < |parts| ==> c !in parts[i]
    ensures Split(Join(parts, [c]), c) == parts
  {
    if |parts| > 1 {
      var tail := parts[1..];
      assert c !in parts[0];
      SplitCons(parts[0], c, Join(tail, [c]));
      assert forall i :: 0 <= i < |tail| ==> tail[i] == parts[i + 1];
      SplitJoin(tail, c);
      assert parts == [parts[0]] + tail;
    }
  }

  predicate StartsWith(s: string, prefix: string) {
    |prefix| <= |s| && s[..|prefix|] == prefix
  }

  predicate EndsWith(s: string, suffix: string) {
    |suffix| <= |s| && s[|s| - |suffix|..] == suffix
  }

  /** `s.includes(t)`. */
  predicate Contains(s: string, t: string) {
    exists i :: 0 <= i <= |s| && StartsWith(s[i..], t)
  }
}
