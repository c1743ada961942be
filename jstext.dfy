/**
 * The JavaScript string built-ins the modelled code relies on, over `string` (a sequence of
 * UTF-16 code units in JavaScript, of chars here): `trim`, `split('\n')`, `substring`, `substr`,
 * `charAt`, `replace` of a one-character pattern, `padStart`, number-to-decimal formatting and
 * `parseInt(s, 16)`.
 */
module JsText {
  import opened Wrappers

  /** ECMAScript WhiteSpace and LineTerminator code points: what `trim` removes and `parseInt` skips. */
  predicate IsWhitespace(c: char) {
    c == ' ' || c == '\t' || c == '\n' || c == '\r' || c == '\U{B}' || c == '\U{C}'
    || c == '\U{A0}' || c == '\U{1680}' || ('\U{2000}' <= c <= '\U{200A}')
    || c == '\U{2028}' || c == '\U{2029}' || c == '\U{202F}' || c == '\U{205F}'
    || c == '\U{3000}' || c == '\U{FEFF}'
  }

  /** Neither end of `s` is whitespace. */
  predicate IsTrimmed(s: string) {
    s == [] || (!IsWhitespace(s[0]) && !IsWhitespace(s[|s| - 1]))
  }

  /** Length of the longest all-whitespace prefix of `s`. */
  function LeadingWhitespace(s: string): (n: nat)
    ensures n <= |s|
    ensures forall i :: 0 <= i < n ==> IsWhitespace(s[i])
    ensures n < |s| ==> !IsWhitespace(s[n])
  {
    if s != [] && IsWhitespace(s[0]) then
      var n := 1 + LeadingWhitespace(s[1..]);
      assert forall i :: 1 <= i < n ==> s[i] == s[1..][i - 1];
      n
    else 0
  }

  /** Length of the longest all-whitespace suffix of `s`. */
  function TrailingWhitespace(s: string): (n: nat)
    ensures n <= |s|
    ensures forall i :: |s| - n <= i < |s| ==> IsWhitespace(s[i])
    ensures n < |s| ==> !IsWhitespace(s[|s| - n - 1])
  {
    if s != [] && IsWhitespace(s[|s| - 1]) then
      1 + TrailingWhitespace(s[..|s| - 1])
    else 0
  }

  /** The leading-whitespace skip that `parseInt` performs (String.prototype.trimStart). */
  function TrimStart(s: string): (r: string)
    ensures r == s[LeadingWhitespace(s)..]
    ensures r == [] || !IsWhitespace(r[0])
  {
    s[LeadingWhitespace(s)..]
  }

  /** String.prototype.trim: drops exactly the leading and the trailing whitespace. */
  function Trim(s: string): (r: string)
    ensures IsTrimmed(r)
    ensures LeadingWhitespace(s) + |r| <= |s|
    ensures r == s[LeadingWhitespace(s)..LeadingWhitespace(s) + |r|]
    ensures forall i :: 0 <= i < |s| && !(LeadingWhitespace(s) <= i < LeadingWhitespace(s) + |r|) ==> IsWhitespace(s[i])
  {
    var lo := LeadingWhitespace(s);
    var t := s[lo..];
    var n := TrailingWhitespace(t);
    TrimSlice(s, lo, n);
    t[..|t| - n]
  }

  /** Cutting the leading and then the trailing whitespace leaves a trimmed middle part. */
  lemma TrimSlice(s: string, lo: nat, n: nat)
    requires lo == LeadingWhitespace(s) && n == TrailingWhitespace(s[lo..])
    ensures var r := s[lo..][..|s| - lo - n];
      && IsTrimmed(r) && lo + |r| <= |s| && r == s[lo..lo + |r|]
      && forall i :: 0 <= i < |s| && !(lo <= i < lo + |r|) ==> IsWhitespace(s[i])
  {
    var t := s[lo..];
    CutTrailing(t, n);
    var r := t[..|t| - n];
    assert r == s[lo..lo + |r|];
    forall i | lo + |r| <= i < |s|
      ensures IsWhitespace(s[i])
    {
      assert s[i] == t[i - lo];
    }
  }

  /** Cutting the trailing whitespace of a string that starts visibly leaves it trimmed. */
  lemma CutTrailing(t: string, n: nat)
    requires n == TrailingWhitespace(t) && (t == [] || !IsWhitespace(t[0]))
    ensures IsTrimmed(t[..|t| - n])
  {
    var r := t[..|t| - n];
    if r != [] {
      assert r[0] == t[0];
      assert r[|r| - 1] == t[|t| - n - 1];
    }
  }

  lemma TrimOfTrimmed(s: string)
    requires IsTrimmed(s)
    ensures Trim(s) == s
  {
    assert LeadingWhitespace(s) == 0;
    assert s == [] || TrailingWhitespace(s) == 0;
  }

  /** Trimming twice is trimming once. */
  lemma TrimIdempotent(s: string)
    ensures Trim(Trim(s)) == Trim(s)
  {
    TrimOfTrimmed(Trim(s));
  }

  /** String.prototype.split('\n'): the pieces between line feeds; always at least one piece. */
  function Split(s: string): (parts: seq<string>)
    ensures |parts| >= 1
    ensures forall i :: 0 <= i < |parts| ==> '\n' !in parts[i]
  {
    if s == [] then [""]
    else
      var rest := Split(s[1..]);
      if s[0] == '\n' then [""] + rest
      else
        assert forall i :: 1 <= i < |rest| ==> rest[1..][i - 1] == rest[i];
        [[s[0]] + rest[0]] + rest[1..]
  }

  /** Array.prototype.join('\n'), the inverse of `Split`. */
  function Join(parts: seq<string>): string
    requires |parts| >= 1
  {
    if |parts| == 1 then parts[0] else parts[0] + "\n" + Join(parts[1..])
  }

  lemma {:induction false} JoinSplit(s: string)
    ensures Join(Split(s)) == s
  {
    if s != [] {
      JoinSplit(s[1..]);
      var rest := Split(s[1..]);
      if s[0] == '\n' {
        assert Split(s)[1..] == rest;
      } else {
        var parts := Split(s);
        assert parts[1..] == rest[1..];
        if |rest| == 1 {
          assert Join(parts) == [s[0]] + Join(rest);
        } else {
          assert Join(parts) == [s[0]] + rest[0] + "\n" + Join(rest[1..]);
          assert Join(rest) == rest[0] + "\n" + Join(rest[1..]);
        }
      }
    }
  }

  lemma {:induction false} SplitLine(a: string)
    requires '\n' !in a
    ensures Split(a) == [a]
  {
    if a != [] {
      SplitLine(a[1..]);
      assert [a[0]] + a[1..] == a;
    }
  }

  lemma {:induction false} SplitFirstLine(a: string, b: string)
    requires '\n' !in a
    ensures Split(a + "\n" + b) == [a] + Split(b)
  {
    var s := a + "\n" + b;
    if a == [] {
      assert s[0] == '\n' && s[1..] == b;
    } else {
      assert s[1..] == a[1..] + "\n" + b;
      SplitFirstLine(a[1..], b);
      assert [a[0]] + a[1..] == a;
    }
  }

  /** Splitting a join of line-feed-free pieces gives the pieces back. */
  lemma {:induction false} SplitJoin(parts: seq<string>)
    requires |parts| >= 1
    requires forall i :: 0 <= i < |parts| ==> '\n' !in parts[i]
    ensures Split(Join(parts)) == parts
  {
    if |parts| == 1 {
      SplitLine(parts[0]);
    } else {
      SplitFirstLine(parts[0], Join(parts[1..]));
      SplitJoin(parts[1..]);
    }
  }

  /** Joining non-empty trimmed lines gives a trimmed text. */
  lemma {:induction false} JoinTrimmed(parts: seq<string>)
    requires |parts| >= 1
    requires forall i :: 0 <= i < |parts| ==> parts[i] != []
    requires forall i :: 0 <= i < |parts| ==> IsTrimmed(parts[i])
    ensures IsTrimmed(Join(parts))
  {
    JoinEnds(parts);
  }

  lemma {:induction false} JoinEnds(parts: seq<string>)
    requires |parts| >= 1 && forall i :: 0 <= i < |parts| ==> parts[i] != []
    ensures |Join(parts)| >= 1
    ensures Join(parts)[0] == parts[0][0]
    ensures Join(parts)[|Join(parts)| - 1] == parts[|parts| - 1][|parts[|parts| - 1]| - 1]
  {
    if |parts| > 1 {
      assert forall i :: 0 <= i < |parts| - 1 ==> parts[1..][i] == parts[i + 1];
      JoinEnds(parts[1..]);
    }
  }

  function Min(a: int, b: int): int { if a <= b then a else b }
  function Max(a: int, b: int): int { if a <= b then b else a }

  /** Math.max(lo, Math.min(hi, x)). */
  function Clamp(x: int, lo: int, hi: int): (r: int)
    requires lo <= hi
    ensures lo <= r <= hi
    ensures lo <= x <= hi ==> r == x
    ensures x <= lo ==> r == lo
    ensures hi <= x ==> r == hi
  {
    Max(lo, Min(hi, x))
  }

  /**
   * String.prototype.substring(start, end): both indices are clamped to [0, |s|] and swapped
   * when out of order, so it never fails.
   */
  function Substring(s: string, start: int, end: int): (r: string)
    ensures 0 <= start <= end ==> |r| <= end - start
    ensures 0 <= start <= end <= |s| ==> r == s[start..end]
    ensures 0 <= start <= |s| <= end ==> r == s[start..]
    ensures |s| <= start && |s| <= end ==> r == ""
    ensures 0 <= end <= start <= |s| ==> r == s[end..start]
  {
    var a := Clamp(start, 0, |s|);
    var b := Clamp(end, 0, |s|);
    if a <= b then s[a..b] else s[b..a]
  }

  /**
   * String.prototype.substr(start, length): a negative start counts from the end, the start is
   * capped at |s| and the length is clamped to what is left.
   */
  function Substr(s: string, start: int, length: int): (r: string)
    ensures |r| <= Max(length, 0)
    ensures 0 <= start && 0 <= length && start + length <= |s| ==> r == s[start..start + length]
    ensures 0 <= start <= |s| <= start + length ==> r == s[start..]
    ensures |s| <= start ==> r == ""
  {
    var a := if start < 0 then Max(|s| + start, 0) else Min(start, |s|);
    var n := Min(Max(length, 0), |s| - a);
    s[a..a + n]
  }

  /** String.prototype.charAt(pos): the character at `pos`, or "" out of range. */
  function CharAt(s: string, pos: int): (r: string)
    ensures |r| <= 1
    ensures 0 <= pos < |s| <==> |r| == 1
    ensures |r| == 1 ==> r[0] == s[pos]
  {
    if 0 <= pos < |s| then [s[pos]] else ""
  }

  /** String.prototype.indexOf(c) for a character that occurs: the position of its first occurrence. */
  function IndexOf(s: string, c: char): (i: nat)
    requires c in s
    ensures i < |s| && s[i] == c && c !in s[..i]
  {
    if s[0] == c then 0
    else
      var j := IndexOf(s[1..], c);
      assert s[..j + 1] == [s[0]] + s[1..][..j];
      j + 1
  }

  /** String.prototype.replace(c, ''): removes the FIRST occurrence of `c` only, wherever it is. */
  function RemoveFirst(s: string, c: char): (r: string)
    ensures c !in s ==> r == s
    ensures c in s ==> r == s[..IndexOf(s, c)] + s[IndexOf(s, c) + 1..]
    ensures c in s ==> |r| == |s| - 1
    ensures |s| > 0 && s[0] == c ==> r == s[1..]
  {
    if s == [] then []
    else if s[0] == c then s[1..]
    else
      var rest := RemoveFirst(s[1..], c);
      if c in s[1..] then
        RemoveFirstStep(s, c, rest);
        [s[0]] + rest
      else
        [s[0]] + rest
  }

  /** Keeping a first character that is not `c` shifts the removed position by one. */
  lemma RemoveFirstStep(s: string, c: char, rest: string)
    requires s != [] && s[0] != c && c in s[1..]
    requires rest == s[1..][..IndexOf(s[1..], c)] + s[1..][IndexOf(s[1..], c) + 1..]
    ensures c in s && [s[0]] + rest == s[..IndexOf(s, c)] + s[IndexOf(s, c) + 1..]
  {
    var j := IndexOf(s[1..], c);
    assert IndexOf(s, c) == j + 1;
    assert s[..j + 1] == [s[0]] + s[1..][..j];
    assert s[j + 2..] == s[1..][j + 1..];
  }

  predicate IsDigit(c: char) { '0' <= c <= '9' }

  predicate AllDigits(s: string) { forall i :: 0 <= i < |s| ==> IsDigit(s[i]) }

  function DigitValue(c: char): (d: nat)
    ensures d < 10
  {
    if IsDigit(c) then c as int - '0' as int else 0
  }

  function DigitChar(d: nat): (c: char)
    requires d < 10
    ensures IsDigit(c) && DigitValue(c) == d
  {
    "0123456789"[d]
  }

  function Pow(base: nat, n: nat): (p: nat)
    ensures base > 0 ==> p > 0
  {
    if n == 0 then 1 else base * Pow(base, n - 1)
  }

  /** The value of a string of decimal digits, most significant first. */
  function DigitsValue(s: string): (v: nat)
    ensures v < Pow(10, |s|)
  {
    if s == [] then 0
    else DigitsValue(s[..|s| - 1]) * 10 + DigitValue(s[|s| - 1])
  }

  /** Decimal rendering of a natural number, as `String(n)` writes it: no leading zeros. */
  function Decimal(n: nat): (s: string)
    ensures |s| >= 1
  {
    if n < 10 then [DigitChar(n)] else Decimal(n / 10) + [DigitChar(n % 10)]
  }

  /** `String(n)` uses decimal digits only, has no leading zero and reads back as `n`. */
  lemma {:induction false} DecimalDigits(n: nat)
    ensures var s := Decimal(n);
      && AllDigits(s)
      && DigitsValue(s) == n
      && (|s| > 1 ==> s[0] != '0')
  {
    var s := Decimal(n);
    if n >= 10 {
      var t := Decimal(n / 10);
      DecimalDigits(n / 10);
      assert s == t + [DigitChar(n % 10)];
      assert s[..|s| - 1] == t;
      assert s[0] == t[0];
      if |t| == 1 {
        assert t == [DigitChar(n / 10)];
      }
    }
  }

  function IntToString(n: int): (s: string)
    ensures n >= 0 ==> s == Decimal(n)
    ensures n < 0 ==> s == "-" + Decimal(-n)
  {
    if n < 0 then "-" + Decimal(-n) else Decimal(n)
  }

  function Repeat(c: char, n: nat): (s: string)
    ensures |s| == n && forall i :: 0 <= i < n ==> s[i] == c
  {
    if n == 0 then "" else [c] + Repeat(c, n - 1)
  }

  /** String.prototype.padStart(width, c) with a one-character filler. */
  function PadStart(s: string, width: nat, c: char): (r: string)
    ensures |r| == Max(width, |s|)
  {
    if |s| >= width then s else Repeat(c, width - |s|) + s
  }

  /** Padding only prepends the filler: the original string closes the result. */
  lemma PadStartShape(s: string, width: nat, c: char)
    ensures var r := PadStart(s, width, c);
      && r[|r| - |s|..] == s
      && forall i :: 0 <= i < |r| - |s| ==> r[i] == c
  {
    var r := PadStart(s, width, c);
    if |s| < width {
      assert r == Repeat(c, width - |s|) + s;
    }
  }

  lemma {:induction false} ZerosValue(n: nat)
    ensures DigitsValue(Repeat('0', n)) == 0
  {
    if n > 0 {
      var z := Repeat('0', n);
      assert z[..n - 1] == Repeat('0', n - 1);
      ZerosValue(n - 1);
    }
  }

  /** Leading zeros do not change a decimal value. */
  lemma {:induction false} LeadingZerosValue(n: nat, s: string)
    ensures DigitsValue(Repeat('0', n) + s) == DigitsValue(s)
    decreases |s|
  {
    var z := Repeat('0', n);
    if s == [] {
      assert z + s == z;
      ZerosValue(n);
    } else {
      var t := z + s;
      assert t[..|t| - 1] == z + s[..|s| - 1];
      assert t[|t| - 1] == s[|s| - 1];
      LeadingZerosValue(n, s[..|s| - 1]);
    }
  }

  /** Left-filling digits with '0' keeps only digits. */
  lemma PadStartDigits(s: string, width: nat)
    requires AllDigits(s)
    ensures AllDigits(PadStart(s, width, '0'))
  {
    var p := PadStart(s, width, '0');
    PadStartShape(s, width, '0');
    forall i | 0 <= i < |p|
      ensures IsDigit(p[i])
    {
      if i >= |p| - |s| {
        assert p[i] == p[|p| - |s|..][i - (|p| - |s|)];
      }
    }
  }

  /** `String(n).padStart(width, '0')`: the decimal digits of `n`, zero-filled on the left to `width`. */
  lemma PaddedDecimalShape(n: nat, width: nat)
    ensures var p := PadStart(Decimal(n), width, '0');
      && |p| == Max(width, |Decimal(n)|) && AllDigits(p)
      && (|Decimal(n)| < width ==> p == Repeat('0', width - |Decimal(n)|) + Decimal(n))
      && (|Decimal(n)| >= width ==> p == Decimal(n))
      && DigitsValue(p) == n
  {
    DecimalDigits(n);
    PadStartDigits(Decimal(n), width);
    PaddedDecimalValue(n, width);
  }

  /** Zero-padding a decimal rendering keeps it readable back as the same number. */
  lemma PaddedDecimalValue(n: nat, width: nat)
    ensures DigitsValue(PadStart(Decimal(n), width, '0')) == n
  {
    var d := Decimal(n);
    DecimalDigits(n);
    if |d| < width {
      assert PadStart(d, width, '0') == Repeat('0', width - |d|) + d;
      LeadingZerosValue(width - |d|, d);
    } else {
      assert PadStart(d, width, '0') == d;
    }
  }

  predicate IsHexDigit(c: char) {
    ('0' <= c <= '9') || ('a' <= c <= 'f') || ('A' <= c <= 'F')
  }

  function HexDigitValue(c: char): (d: nat)
    ensures d < 16
  {
    if '0' <= c <= '9' then c as int - '0' as int
    else if 'a' <= c <= 'f' then c as int - 'a' as int + 10
    else if 'A' <= c <= 'F' then c as int - 'A' as int + 10
    else 0
  }

  /** The value of a string of hexadecimal digits, most significant first. */
  function HexValue(s: string): (v: nat)
    ensures v < Pow(16, |s|)
  {
    if s == [] then 0
    else HexValue(s[..|s| - 1]) * 16 + HexDigitValue(s[|s| - 1])
  }

  /** The longest prefix of `s` made of hexadecimal digits. */
  function HexPrefix(s: string): (p: string)
    ensures |p| <= |s| && p == s[..|p|]
    ensures forall i :: 0 <= i < |p| ==> IsHexDigit(p[i])
    ensures |p| < |s| ==> !IsHexDigit(s[|p|])
  {
    if s != [] && IsHexDigit(s[0]) then
      var p := [s[0]] + HexPrefix(s[1..]);
      assert forall i :: 1 <= i < |p| ==> p[i] == HexPrefix(s[1..])[i - 1];
      p
    else ""
  }

  /**
   * parseInt(s, 16) after the ECMAScript algorithm: skip leading whitespace, take an optional
   * sign, drop a "0x"/"0X" prefix, read the longest run of hexadecimal digits; `None` (NaN)
   * when that run is empty.
   */
  function ParseIntRadix16(s: string): (r: Option<int>)
    ensures s != [] && (forall i :: 0 <= i < |s| ==> IsHexDigit(s[i])) ==> r == Some(HexValue(s))
    ensures s == [] || (!IsWhitespace(s[0]) && s[0] != '-' && s[0] != '+' && !IsHexDigit(s[0])) ==> r.None?
  {
    PlainHexText(s);
    var t := TrimStart(s);
    var negative := |t| > 0 && t[0] == '-';
    var u := if |t| > 0 && (t[0] == '-' || t[0] == '+') then t[1..] else t;
    var v := if |u| >= 2 && u[0] == '0' && (u[1] == 'x' || u[1] == 'X') then u[2..] else u;
    var digits := HexPrefix(v);
    var magnitude: int := HexValue(digits);
    if digits == [] then None
    else if negative then Some(-magnitude)
    else Some(magnitude)
  }

  /** Text that starts with a visible character has nothing to skip, and a run of hexadecimal
      digits is read whole. */
  lemma PlainHexText(s: string)
    ensures s != [] && !IsWhitespace(s[0]) ==> TrimStart(s) == s
    ensures (forall i :: 0 <= i < |s| ==> IsHexDigit(s[i])) ==> HexPrefix(s) == s
  {
    if s != [] && !IsWhitespace(s[0]) {
      assert LeadingWhitespace(s) == 0;
    }
  }

  /** A hexadecimal digit is neither whitespace, a sign nor the `x` of a `0x` prefix. */
  lemma HexDigitIsPlain(c: char)
    requires IsHexDigit(c)
    ensures !IsWhitespace(c) && c != '-' && c != '+' && c != 'x' && c != 'X'
  {
  }

  /** Two hexadecimal digits parse to their value, which is below 256. */
  lemma ParseHexPair(s: string)
    requires |s| == 2 && IsHexDigit(s[0]) && IsHexDigit(s[1])
    ensures ParseIntRadix16(s) == Some(HexValue(s))
    ensures HexValue(s) < 256
  {
    assert forall i :: 0 <= i < |s| ==> IsHexDigit(s[i]);
    assert Pow(16, 2) == 256;
  }
}
