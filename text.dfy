/** String helpers shared by the JavaScript, Swift and Kotlin models: number
    formatting in base 10 and 16 (`String(n)`, `n.toString(16)`), `padStart`,
    ASCII `toLowerCase`, the ECMAScript `trim`, and substring search as used by
    `includes`, `startsWith` and `replace`. */
module Text {
  import opened Wrappers

  // ---------------------------------------------------------------- digits

  /** The digit for value `d`, lower-case as `Number.prototype.toString` prints it. */
  function DigitChar(d: nat): (c: char)
    requires d < 16
    ensures IsHexDigit(c) && DigitOf(c) == d
  {
    if d < 10 then ('0' as int + d) as char else ('a' as int + d - 10) as char
  }

  predicate IsDecimalDigit(c: char) { '0' <= c <= '9' }

  /** A lower-case hexadecimal digit (decimal digits included). */
  predicate IsHexDigit(c: char) { IsDecimalDigit(c) || 'a' <= c <= 'f' }

  function DigitOf(c: char): (d: nat)
    ensures IsHexDigit(c) ==> d < 16
    ensures IsDecimalDigit(c) ==> d < 10
  {
    if IsDecimalDigit(c) then c as int - '0' as int
    else if 'a' <= c <= 'f' then c as int - 'a' as int + 10
    else 0
  }

  function Pow(b: nat, k: nat): (p: nat)
    ensures b >= 1 ==> p >= 1
  {
    if k == 0 then 1 else b * Pow(b, k - 1)
  }

  /** The shortest digit string of `n` in `radix`, as `n.toString(radix)`. */
  function ToRadix(n: nat, radix: nat): (s: string)
    requires 2 <= radix <= 16
    ensures |s| >= 1
    ensures forall i :: 0 <= i < |s| ==> IsHexDigit(s[i]) && DigitOf(s[i]) < radix
    decreases n
  {
    if n < radix then [DigitChar(n)]
    else
      DivLess(n, radix);
      ToRadix(n / radix, radix) + [DigitChar(n % radix)]
  }

  lemma DivLess(n: nat, d: nat)
    requires 2 <= d <= n
    ensures n / d < n && n % d < d
  {
  }

  /** The value of a digit string read in `radix`, most significant digit first. */
  function FromRadix(s: string, radix: nat): nat
  {
    if s == [] then 0 else FromRadix(s[..|s| - 1], radix) * radix + DigitOf(s[|s| - 1])
  }

  /** Decimal text of a non-negative integer, as `String(n)`. */
  function NatToString(n: nat): (s: string)
    ensures |s| >= 1 && forall i :: 0 <= i < |s| ==> IsDecimalDigit(s[i])
  {
    DecimalDigitsLemma(n);
    ToRadix(n, 10)
  }

  lemma DecimalDigitsLemma(n: nat)
    ensures forall i :: 0 <= i < |ToRadix(n, 10)| ==> IsDecimalDigit(ToRadix(n, 10)[i])
  {
    forall i | 0 <= i < |ToRadix(n, 10)| ensures IsDecimalDigit(ToRadix(n, 10)[i]) {
      var c := ToRadix(n, 10)[i];
      assert IsHexDigit(c) && DigitOf(c) < 10;
    }
  }

  /** Reading back what ToRadix printed gives the number. */
  lemma {:induction false} RadixRoundTrip(n: nat, radix: nat)
    requires 2 <= radix <= 16
    ensures FromRadix(ToRadix(n, radix), radix) == n
    decreases n
  {
    if n < radix {
      assert ToRadix(n, radix)[..0] == [];
    } else {
      RadixRoundTrip(n / radix, radix);
      RadixStep(n, radix);
      DivMod(n, radix);
    }
  }

  /** Reading ToRadix(n) peels off the last digit, n % radix. */
  lemma RadixStep(n: nat, radix: nat)
    requires 2 <= radix <= n && radix <= 16
    ensures FromRadix(ToRadix(n, radix), radix)
      == FromRadix(ToRadix(n / radix, radix), radix) * radix + n % radix
  {
    FromRadixSnoc(ToRadix(n / radix, radix), DigitChar(n % radix), radix);
  }

  lemma DivMod(n: nat, d: nat)
    requires d > 0
    ensures (n / d) * d + n % d == n
  {
  }

  lemma FromRadixSnoc(t: string, c: char, radix: nat)
    ensures FromRadix(t + [c], radix) == FromRadix(t, radix) * radix + DigitOf(c)
  {
    var s := t + [c];
    assert s[..|s| - 1] == t;
  }

  /** A number below radix^k prints in at most k digits. */
  lemma {:induction false} RadixLength(n: nat, radix: nat, k: nat)
    requires 2 <= radix <= 16 && k >= 1 && n < Pow(radix, k)
    ensures |ToRadix(n, radix)| <= k
    decreases k
  {
    if n >= radix {
      var p := Pow(radix, k - 1);
      assert Pow(radix, k) == radix * p;
      DivBelow(n, radix, p);
      RadixLength(n / radix, radix, k - 1);
    }
  }

  lemma DivBelow(n: nat, d: nat, p: nat)
    requires d > 0 && n < d * p
    ensures n / d < p
  {
    assert (n / d) * d <= n;
  }

  /** Leading zeros do not change the value read. */
  lemma {:induction false} LeadingZeros(k: nat, s: string, radix: nat)
    ensures FromRadix(Repeat('0', k) + s, radix) == FromRadix(s, radix)
    decreases |s|
  {
    if s == [] {
      assert Repeat('0', k) + s == Repeat('0', k);
      ZerosValue(k, radix);
    } else {
      var t := Repeat('0', k) + s;
      assert t[..|t| - 1] == Repeat('0', k) + s[..|s| - 1];
      LeadingZeros(k, s[..|s| - 1], radix);
    }
  }

  lemma {:induction false} ZerosValue(k: nat, radix: nat)
    ensures FromRadix(Repeat('0', k), radix) == 0
  {
    if k > 0 {
      assert Repeat('0', k)[..k - 1] == Repeat('0', k - 1);
      ZerosValue(k - 1, radix);
    }
  }

  // --------------------------------------------------------------- padding

  function Repeat(c: char, k: nat): (r: string)
    ensures |r| == k && forall i :: 0 <= i < k ==> r[i] == c
  {
    if k == 0 then [] else Repeat(c, k - 1) + [c]
  }

  /** `s.padStart(width, c)`: `c` repeated in front of `s` up to `width` characters. */
  function PadStart(s: string, width: nat, c: char): (r: string)
    ensures |r| == if |s| < width then width else |s|
    ensures r == Repeat(c, |r| - |s|) + s
  {
    if |s| < width then Repeat(c, width - |s|) + s else Repeat(c, 0) + s
  }

  /** The decimal text of `n` zero-padded to at least `width` digits, as
      `String(n).padStart(width, '0')` and the C format `%0<width>d`. */
  function ZeroPad(n: nat, width: nat): (r: string)
    ensures |r| >= width && forall i :: 0 <= i < |r| ==> IsDecimalDigit(r[i])
  {
    PadStart(NatToString(n), width, '0')
  }

  /** A number below 10^width pads to exactly `width` digits. */
  lemma ZeroPadLength(n: nat, width: nat)
    requires width >= 1 && n < Pow(10, width)
    ensures |ZeroPad(n, width)| == width
  {
    RadixLength(n, 10, width);
  }

  /** A zero-padded number reads back as the number. */
  lemma ZeroPadRoundTrip(n: nat, width: nat)
    ensures FromRadix(ZeroPad(n, width), 10) == n
  {
    var s := NatToString(n);
    LeadingZeros(|ZeroPad(n, width)| - |s|, s, 10);
    RadixRoundTrip(n, 10);
  }

  /** Distinct numbers give distinct padded names. */
  lemma ZeroPadInjective(m: nat, n: nat, width: nat)
    requires ZeroPad(m, width) == ZeroPad(n, width)
    ensures m == n
  {
    ZeroPadRoundTrip(m, width);
    ZeroPadRoundTrip(n, width);
  }

  // ----------------------------------------------------------- letter case

  /** ASCII part of `toLowerCase`. */
  function LowerChar(c: char): char
  {
    if 'A' <= c <= 'Z' then (c as int + 32) as char else c
  }

  function ToLower(s: string): (r: string)
    ensures |r| == |s| && forall i :: 0 <= i < |s| ==> r[i] == LowerChar(s[i])
  {
    seq(|s|, i requires 0 <= i < |s| => LowerChar(s[i]))
  }

  lemma ToLowerIdempotent(s: string)
    ensures ToLower(ToLower(s)) == ToLower(s)
  {
  }

  // ------------------------------------------------------------ whitespace

  /** The characters ECMAScript's `trim` and the regular-expression class `\s`
      treat as white space: WhiteSpace and LineTerminator of ECMA-262. */
  predicate IsJsWhitespace(c: char)
  {
    c == ' ' || c == '\t' || c == '\n' || c == '\U{000B}' || c == '\U{000C}' || c == '\r'
    || c == '\U{00A0}' || c == '\U{1680}' || ('\U{2000}' <= c <= '\U{200A}')
    || c == '\U{2028}' || c == '\U{2029}' || c == '\U{202F}' || c == '\U{205F}'
    || c == '\U{3000}' || c == '\U{FEFF}'
  }

  function TrimStart(s: string): (r: string)
    ensures |r| <= |s| && r == s[|s| - |r|..]
    ensures r == [] || !IsJsWhitespace(r[0])
    ensures forall i :: 0 <= i < |s| - |r| ==> IsJsWhitespace(s[i])
  {
    if s != [] && IsJsWhitespace(s[0]) then
      var r := TrimStart(s[1..]);
      assert forall i :: 1 <= i < |s| - |r| ==> s[i] == s[1..][i - 1];
      r
    else s
  }

  function TrimEnd(s: string): (r: string)
    ensures |r| <= |s| && r == s[..|r|]
    ensures r == [] || !IsJsWhitespace(r[|r| - 1])
    ensures forall i :: |r| <= i < |s| ==> IsJsWhitespace(s[i])
  {
    if s != [] && IsJsWhitespace(s[|s| - 1]) then TrimEnd(s[..|s| - 1]) else s
  }

  /** `s.trim()`. */
  function Trim(s: string): (r: string)
  {
    TrimEnd(TrimStart(s))
  }

  predicate NoWhitespace(s: string)
  {
    forall i :: 0 <= i < |s| ==> !IsJsWhitespace(s[i])
  }

  /** The trimmed string starts and ends with a non-space character. */
  lemma TrimEnds(s: string)
    ensures Trim(s) == [] || (!IsJsWhitespace(Trim(s)[0]) && !IsJsWhitespace(Trim(s)[|Trim(s)| - 1]))
  {
    var a := TrimStart(s);
    var r := TrimEnd(a);
    if r != [] {
      assert r[0] == a[0];
    }
  }

  /** The trimmed string is the part of the input that follows the leading
      white space. */
  lemma TrimInside(s: string)
    ensures |TrimStart(s)| >= |Trim(s)|
    ensures s[|s| - |TrimStart(s)|..|s| - |TrimStart(s)| + |Trim(s)|] == Trim(s)
  {
    var a := TrimStart(s);
    var r := TrimEnd(a);
    var k := |s| - |a|;
    assert a == s[k..] && r == a[..|r|];
    PrefixOfSuffix(s, k, |r|);
  }

  lemma PrefixOfSuffix(s: string, k: nat, n: nat)
    requires k + n <= |s|
    ensures s[k..][..n] == s[k..k + n]
  {
  }

  /** A string without white space is its own trim. */
  lemma TrimNoWhitespace(s: string)
    requires NoWhitespace(s)
    ensures Trim(s) == s
  {
    if s != [] {
      assert !IsJsWhitespace(s[0]);
      assert !IsJsWhitespace(s[|s| - 1]);
    }
  }

  // --------------------------------------------------------------- search

  predicate OccursAt(s: string, p: string, i: nat)
  {
    i + |p| <= |s| && s[i..i + |p|] == p
  }

  /** `s.includes(p)`. */
  predicate Contains(s: string, p: string)
  {
    exists i: nat | i + |p| <= |s| :: OccursAt(s, p, i)
  }

  /** `s.startsWith(p)`. */
  predicate StartsWith(s: string, p: string)
  {
    |p| <= |s| && s[..|p|] == p
  }

  /** `s.endsWith(p)`. */
  predicate EndsWith(s: string, p: string)
  {
    |p| <= |s| && s[|s| - |p|..] == p
  }

  /** The first position at or after `from` where `p` occurs, as `indexOf`. */
  function IndexOfFrom(s: string, p: string, from: nat): (r: Option<nat>)
    ensures r.Some? ==> from <= r.value && OccursAt(s, p, r.value)
    ensures r.Some? ==> forall j :: from <= j < r.value ==> !OccursAt(s, p, j)
    ensures r.None? ==> forall j :: from <= j ==> !OccursAt(s, p, j)
    decreases |s| - from
  {
    if from + |p| > |s| then None
    else if OccursAt(s, p, from) then Some(from)
    else IndexOfFrom(s, p, from + 1)
  }

  /** `s.replace(p, q)` with a string pattern: only the first occurrence is replaced. */
  function ReplaceFirst(s: string, p: string, q: string): string
  {
    match IndexOfFrom(s, p, 0)
    case None => s
    case Some(i) => s[..i] + q + s[i + |p|..]
  }

  lemma ContainsIffIndexOf(s: string, p: string)
    ensures Contains(s, p) <==> IndexOfFrom(s, p, 0).Some?
  {
    if IndexOfFrom(s, p, 0).Some? {
      assert OccursAt(s, p, IndexOfFrom(s, p, 0).value);
    }
  }

  /** `parts.join(separator)`. */
  function Join(parts: seq<string>, separator: string): string
  {
    if parts == [] then ""
    else if |parts| == 1 then parts[0]
    else Join(parts[..|parts| - 1], separator) + separator + parts[|parts| - 1]
  }

  // ---------------------------------------------------------------- parsing

  /** The longest prefix of decimal digits. */
  function LeadingDigits(s: string): (r: string)
    ensures |r| <= |s| && r == s[..|r|] && forall i :: 0 <= i < |r| ==> IsDecimalDigit(r[i])
    ensures |r| < |s| ==> !IsDecimalDigit(s[|r|])
  {
    if s != [] && IsDecimalDigit(s[0]) then [s[0]] + LeadingDigits(s[1..]) else []
  }

  /** `parseInt(s, 10)`: leading white space, an optional sign, then as many
      digits as there are; None (NaN) without a digit. */
  function ParseInt(s: string): Option<int>
  {
    var t := TrimStart(s);
    var signed := t != [] && (t[0] == '-' || t[0] == '+');
    var digits := LeadingDigits(if signed then t[1..] else t);
    if digits == [] then None
    else
      var value: int := FromRadix(digits, 10);
      if signed && t[0] == '-' then Some(-value) else Some(value)
  }

  lemma {:induction false} LeadingDigitsOf(d: string, rest: string)
    requires forall i :: 0 <= i < |d| ==> IsDecimalDigit(d[i])
    requires rest == [] || !IsDecimalDigit(rest[0])
    ensures LeadingDigits(d + rest) == d
  {
    if d == [] {
      assert d + rest == rest;
    } else {
      assert (d + rest)[1..] == d[1..] + rest;
      LeadingDigitsOf(d[1..], rest);
    }
  }

  /** Text starting with a digit parses as its leading digits. */
  lemma ParseIntUnsigned(s: string)
    requires s != [] && IsDecimalDigit(s[0])
    ensures ParseInt(s) == Some(FromRadix(LeadingDigits(s), 10))
  {
    assert !IsJsWhitespace(s[0]);
    assert TrimStart(s) == s;
  }

  /** parseInt reads back a number's decimal text, whatever non-digit text
      follows it. */
  lemma ParseIntOfDecimal(n: nat, rest: string)
    requires rest == [] || !IsDecimalDigit(rest[0])
    ensures ParseInt(NatToString(n) + rest) == Some(n)
  {
    var d := NatToString(n);
    var s := d + rest;
    assert s[0] == d[0];
    ParseIntUnsigned(s);
    LeadingDigitsOf(d, rest);
    RadixRoundTrip(n, 10);
  }

  // ------------------------------------------------------------- clock time

  /** Hours, minutes and seconds of a count of seconds. */
  lemma HmsSplit(d: nat)
    ensures d % 3600 / 60 < 60 && d % 60 < 60
    ensures 3600 * (d / 3600) + 60 * (d % 3600 / 60) + d % 60 == d
  {
    var q, r := d / 3600, d % 3600;
    var m, s := r / 60, r % 60;
    assert d == 3600 * q + r;
    assert r == 60 * m + s;
    ModUnique(d, 60 * q + m, s);
  }

  lemma UnderAnHour(d: nat)
    requires d < 3600
    ensures d / 3600 == 0 && d % 3600 == d && 60 * (d / 60) + d % 60 == d && d % 60 < 60
  {
  }

  lemma ModUnique(d: nat, k: nat, x: nat)
    requires d == 60 * k + x && x < 60
    ensures d % 60 == x
  {
  }

  /** `H:MM:SS` from one hour on, `M:SS` below: the hours (or minutes)
      unpadded, the rest `padStart(2, '0')`. */
  function CompactDuration(d: nat): string
  {
    var hrs, mins, secs := d / 3600, d % 3600 / 60, d % 60;
    if hrs > 0 then NatToString(hrs) + ":" + ZeroPad(mins, 2) + ":" + ZeroPad(secs, 2)
    else NatToString(mins) + ":" + ZeroPad(secs, 2)
  }

  /** A field, a colon and a two-character field. */
  lemma ColonJoin(a: string, b: string)
    requires |b| == 2
    ensures var t := a + ":" + b;
      |t| == |a| + 3 && t[|t| - 3] == ':' && t[..|t| - 3] == a && t[|t| - 2..] == b
  {
  }

  /** Three fields joined by colons, the last two of two characters. */
  lemma ColonJoin3(a: string, b: string, c: string)
    requires |b| == 2 && |c| == 2
    ensures var t := a + ":" + b + ":" + c;
      |t| == |a| + 6 && t[|t| - 6] == ':' && t[|t| - 3] == ':'
      && t[..|t| - 6] == a && t[|t| - 5..|t| - 3] == b && t[|t| - 2..] == c
  {
    var u := a + ":" + b;
    ColonJoin(a, b);
    ColonJoin(u, c);
    var t := u + ":" + c;
    assert t[..|t| - 3] == u;
    assert t[..|t| - 6] == u[..|u| - 3];
    assert t[|t| - 5..|t| - 3] == u[|u| - 2..];
  }

  /** The two-digit field of a number below 60 reads back as it. */
  lemma TwoDigits(x: nat)
    requires x < 60
    ensures |ZeroPad(x, 2)| == 2 && FromRadix(ZeroPad(x, 2), 10) == x
  {
    assert Pow(10, 2) == 100;
    ZeroPadLength(x, 2);
    ZeroPadRoundTrip(x, 2);
  }

  /** From one hour on the text reads back as hours, minutes and seconds. */
  lemma CompactHoursRoundTrip(d: nat)
    requires d >= 3600
    ensures var t := CompactDuration(d);
      |t| >= 7 && t[|t| - 6] == ':' && t[|t| - 3] == ':'
      && FromRadix(t[|t| - 5..|t| - 3], 10) < 60 && FromRadix(t[|t| - 2..], 10) < 60
      && 3600 * FromRadix(t[..|t| - 6], 10) + 60 * FromRadix(t[|t| - 5..|t| - 3], 10) + FromRadix(t[|t| - 2..], 10) == d
  {
    var h, m, s := d / 3600, d % 3600 / 60, d % 60;
    HmsSplit(d);
    TwoDigits(m);
    TwoDigits(s);
    var hs, mm, ss := NatToString(h), ZeroPad(m, 2), ZeroPad(s, 2);
    ColonJoin3(hs, mm, ss);
    RadixRoundTrip(h, 10);
    assert CompactDuration(d) == hs + ":" + mm + ":" + ss;
  }

  /** Below an hour the text reads back as minutes and seconds. */
  lemma CompactMinutesRoundTrip(d: nat)
    requires d < 3600
    ensures var t := CompactDuration(d);
      |t| >= 4 && t[|t| - 3] == ':' && FromRadix(t[|t| - 2..], 10) < 60
      && 60 * FromRadix(t[..|t| - 3], 10) + FromRadix(t[|t| - 2..], 10) == d
  {
    UnderAnHour(d);
    var m, s := d / 60, d % 60;
    TwoDigits(s);
    var ms, ss := NatToString(m), ZeroPad(s, 2);
    ColonJoin(ms, ss);
    RadixRoundTrip(m, 10);
    assert CompactDuration(d) == ms + ":" + ss;
  }


  /** `s || fallback` for a string that may be absent: a missing or empty
      string gives the fallback. */
  function StringOr(s: Option<string>, fallback: string): (r: string)
    ensures s.Some? && s.value != "" ==> r == s.value
    ensures !(s.Some? && s.value != "") ==> r == fallback
  {
    if s.Some? && s.value != "" then s.value else fallback
  }
}
