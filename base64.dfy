/** Base64 as the browser's `btoa` and `atob` apply it: the standard
    alphabet and padding of section 4 of RFC 4648, and the forgiving decoder
    of the HTML standard (ASCII whitespace is dropped, padding is optional,
    a remainder of one character fails). `btoa` and `atob` work on binary
    strings, whose characters stand for bytes. */
module Base64 {
  import opened Wrappers

  type Byte = x: int | 0 <= x < 256
  type Sextet = x: int | 0 <= x < 64

  // ------------------------------------------------------------ alphabet

  /** The character for a 6-bit value: A-Z, a-z, 0-9, '+', '/'. */
  function Char(v: Sextet): (c: char)
    ensures c != '='
  {
    if v < 26 then (65 + v) as char
    else if v < 52 then (97 + v - 26) as char
    else if v < 62 then (48 + v - 52) as char
    else if v == 62 then '+'
    else '/'
  }

  /** The value of an alphabet character, None for any other. */
  function Value(c: char): (r: Option<Sextet>)
  {
    if 'A' <= c <= 'Z' then Some(c as int - 65)
    else if 'a' <= c <= 'z' then Some(c as int - 97 + 26)
    else if '0' <= c <= '9' then Some(c as int - 48 + 52)
    else if c == '+' then Some(62)
    else if c == '/' then Some(63)
    else None
  }

  lemma ValueOfChar(v: Sextet)
    ensures Value(Char(v)) == Some(v)
  {
  }

  /** The five ASCII whitespace characters of the HTML standard. */
  predicate IsAsciiWhitespace(c: char)
  {
    c == '\t' || c == '\n' || c == 12 as char || c == '\r' || c == ' '
  }

  lemma CharNotWhitespace(v: Sextet)
    ensures !IsAsciiWhitespace(Char(v))
  {
  }

  // ------------------------------------------------------------ encoding

  /** The four 6-bit groups of three bytes. */
  function Group(b0: Byte, b1: Byte, b2: Byte): (g: seq<Sextet>)
    ensures |g| == 4
  {
    [b0 / 4, (b0 % 4) * 16 + b1 / 16, (b1 % 16) * 4 + b2 / 64, b2 % 64]
  }

  /** The groups of a last one or two bytes, padded with zero bits. */
  function TailGroups(b: seq<Byte>): (g: seq<Sextet>)
    requires |b| < 3
    ensures |g| == if |b| == 0 then 0 else |b| + 1
  {
    if |b| == 0 then []
    else if |b| == 1 then [b[0] / 4, (b[0] % 4) * 16]
    else [b[0] / 4, (b[0] % 4) * 16 + b[1] / 16, (b[1] % 16) * 4]
  }

  /** 6-bit groups of the bytes: three bytes give four groups, a last one
      or two bytes give two or three. */
  function EncodeSextets(b: seq<Byte>): (r: seq<Sextet>)
    ensures |r| == 4 * (|b| / 3) + (if |b| % 3 == 0 then 0 else |b| % 3 + 1)
  {
    if |b| < 3 then TailGroups(b)
    else Group(b[0], b[1], b[2]) + EncodeSextets(b[3..])
  }

  function Chars(s: seq<Sextet>): (r: string)
    ensures |r| == |s| && forall i :: 0 <= i < |s| ==> r[i] == Char(s[i])
  {
    if s == [] then [] else [Char(s[0])] + Chars(s[1..])
  }

  /** `=` signs filling the last group to four characters. */
  function Padding(n: nat): string
  {
    if n % 3 == 1 then "==" else if n % 3 == 2 then "=" else ""
  }

  /** The base64 text of the bytes. */
  function Encode(b: seq<Byte>): (r: string)
    ensures |r| % 4 == 0
  {
    Chars(EncodeSextets(b)) + Padding(|b|)
  }

  // ------------------------------------------------------------ decoding

  function High(s0: Sextet, s1: Sextet): (b: Byte) { s0 * 4 + s1 / 16 }
  function Middle(s1: Sextet, s2: Sextet): (b: Byte) { (s1 % 16) * 16 + s2 / 4 }
  function Low(s2: Sextet, s3: Sextet): (b: Byte) { (s2 % 4) * 64 + s3 }

  /** The three bytes of four groups. */
  function Ungroup(s: seq<Sextet>): (b: seq<Byte>)
    requires |s| >= 4
    ensures |b| == 3
  {
    [High(s[0], s[1]), Middle(s[1], s[2]), Low(s[2], s[3])]
  }

  /** The bytes of a last two or three groups; their spare bits are dropped. */
  function UngroupTail(s: seq<Sextet>): (b: seq<Byte>)
    requires |s| < 4 && |s| != 1
  {
    if |s| == 0 then []
    else if |s| == 2 then [High(s[0], s[1])]
    else [High(s[0], s[1]), Middle(s[1], s[2])]
  }

  /** Bytes of 6-bit groups: each four give three bytes. */
  function DecodeSextets(s: seq<Sextet>): (r: seq<Byte>)
    requires |s| % 4 != 1
  {
    if |s| < 4 then UngroupTail(s)
    else Ungroup(s) + DecodeSextets(s[4..])
  }

  /** The values of the characters, None if one is outside the alphabet. */
  function Values(t: string): (r: Option<seq<Sextet>>)
    ensures r.Some? ==> |r.value| == |t|
  {
    if t == [] then Some([])
    else match (Value(t[0]), Values(t[1..]))
      case (Some(v), Some(rest)) => Some([v] + rest)
      case _ => None
  }

  function DropWhitespace(s: string): (r: string)
    ensures |r| <= |s|
  {
    if s == [] then []
    else if IsAsciiWhitespace(s[0]) then DropWhitespace(s[1..])
    else [s[0]] + DropWhitespace(s[1..])
  }

  /** One or two trailing `=` removed from text whose length is a multiple
      of four. */
  function DropPadding(t: string): (r: string)
    ensures |r| <= |t|
  {
    if |t| % 4 != 0 then t
    else if |t| >= 2 && t[|t| - 2..] == "==" then t[..|t| - 2]
    else if |t| >= 1 && t[|t| - 1] == '=' then t[..|t| - 1]
    else t
  }

  /** The forgiving base64 decode: the bytes, or None where `atob` throws. */
  function Decode(s: string): (r: Option<seq<Byte>>)
  {
    var t := DropPadding(DropWhitespace(s));
    if |t| % 4 == 1 then None
    else match Values(t)
      case None => None
      case Some(v) => Some(DecodeSextets(v))
  }

  // ---------------------------------------------------------- round trip

  lemma Split16(a: int, c: int)
    requires 0 <= a < 16 && 0 <= c < 16
    ensures (a * 16 + c) / 16 == a && (a * 16 + c) % 16 == c
  {
  }

  lemma Split4(a: int, c: int)
    requires 0 <= a < 16 && 0 <= c < 4
    ensures (a * 4 + c) / 4 == a && (a * 4 + c) % 4 == c
  {
  }

  /** One full group of three bytes comes back. */
  lemma GroupRoundTrip(b0: Byte, b1: Byte, b2: Byte)
    ensures Ungroup(Group(b0, b1, b2)) == [b0, b1, b2]
  {
    Split16(b0 % 4, b1 / 16);
    Split4(b1 % 16, b2 / 64);
  }

  /** A last one or two bytes come back. */
  lemma TailRoundTrip(b: seq<Byte>)
    requires |b| < 3
    ensures UngroupTail(TailGroups(b)) == b
  {
    if |b| == 1 {
      Split16(b[0] % 4, 0);
    } else if |b| == 2 {
      Split16(b[0] % 4, b[1] / 16);
      Split4(b[1] % 16, 0);
    }
  }

  lemma {:induction false} SextetsRoundTrip(b: seq<Byte>)
    ensures |EncodeSextets(b)| % 4 != 1 && DecodeSextets(EncodeSextets(b)) == b
  {
    if |b| < 3 {
      TailRoundTrip(b);
    } else {
      var g, rest := Group(b[0], b[1], b[2]), EncodeSextets(b[3..]);
      assert EncodeSextets(b) == g + rest;
      SextetsRoundTrip(b[3..]);
      DecodeGroupThen(g, rest);
      GroupRoundTrip(b[0], b[1], b[2]);
      calc {
        DecodeSextets(g + rest);
        Ungroup(g) + DecodeSextets(rest);
        [b[0], b[1], b[2]] + b[3..];
        { assert b == [b[0], b[1], b[2]] + b[3..]; }
        b;
      }
    }
  }

  /** A whole group in front decodes on its own. */
  lemma DecodeGroupThen(g: seq<Sextet>, rest: seq<Sextet>)
    requires |g| == 4 && |rest| % 4 != 1
    ensures |g + rest| % 4 != 1 && DecodeSextets(g + rest) == Ungroup(g) + DecodeSextets(rest)
  {
    var s := g + rest;
    assert s[4..] == rest;
    assert s[..4] == g;
  }

  lemma ValuesOfChars(s: seq<Sextet>)
    ensures Values(Chars(s)) == Some(s)
  {
    var c := Chars(s);
    forall i | 0 <= i < |s| ensures Value(c[i]) == Some(s[i]) {
      ValueOfChar(s[i]);
    }
    ValuesAll(c, s);
  }

  /** Text whose every character reads as the sextet at its position reads
      as those sextets. */
  lemma {:induction false} ValuesAll(t: string, s: seq<Sextet>)
    requires |t| == |s| && forall i :: 0 <= i < |t| ==> Value(t[i]) == Some(s[i])
    ensures Values(t) == Some(s)
  {
    if t != [] {
      assert Value(t[0]) == Some(s[0]);
      ValuesAll(t[1..], s[1..]);
      assert [s[0]] + s[1..] == s;
    }
  }

  lemma {:induction false} NoWhitespaceKept(s: string)
    requires forall i :: 0 <= i < |s| ==> !IsAsciiWhitespace(s[i])
    ensures DropWhitespace(s) == s
  {
    if s != [] {
      NoWhitespaceKept(s[1..]);
    }
  }

  /** No character of the text is `=`. */
  predicate Unpadded(c: string)
  {
    forall i :: 0 <= i < |c| ==> c[i] != '='
  }

  lemma DropsTwo(c: string)
    requires |c + "=="| % 4 == 0
    ensures DropPadding(c + "==") == c
  {
    var e := c + "==";
    assert e[|e| - 2..] == "==";
    assert e[..|e| - 2] == c;
  }

  lemma DropsOne(c: string)
    requires |c + "="| % 4 == 0 && |c| >= 1 && c[|c| - 1] != '='
    ensures DropPadding(c + "=") == c
  {
    var e := c + "=";
    assert e[|e| - 2] == c[|c| - 1];
    assert e[..|e| - 1] == c;
  }

  lemma DropsNone(c: string)
    requires |c| == 0 || c[|c| - 1] != '='
    ensures DropPadding(c) == c
  {
  }

  lemma {:induction false} CharsUnpadded(s: seq<Sextet>)
    ensures Unpadded(Chars(s))
    ensures forall i :: 0 <= i < |Chars(s)| ==> !IsAsciiWhitespace(Chars(s)[i])
  {
    forall i | 0 <= i < |s| ensures !IsAsciiWhitespace(Chars(s)[i]) {
      CharNotWhitespace(s[i]);
    }
  }

  /** The encoder's text loses nothing to the whitespace and padding steps
      of the decoder. */
  lemma DecoderSeesSextets(b: seq<Byte>)
    ensures DropPadding(DropWhitespace(Encode(b))) == Chars(EncodeSextets(b))
  {
    var c := Chars(EncodeSextets(b));
    var e := Encode(b);
    CharsUnpadded(EncodeSextets(b));
    assert forall i :: 0 <= i < |e| ==> !IsAsciiWhitespace(e[i]);
    NoWhitespaceKept(e);
    if |b| % 3 == 1 {
      DropsTwo(c);
    } else if |b| % 3 == 2 {
      DropsOne(c);
    } else {
      assert e == c;
      DropsNone(c);
    }
  }

  /** Decoding what was encoded gives the bytes back. */
  lemma RoundTrip(b: seq<Byte>)
    ensures Decode(Encode(b)) == Some(b)
  {
    DecoderSeesSextets(b);
    ValuesOfChars(EncodeSextets(b));
    SextetsRoundTrip(b);
  }

  // ------------------------------------------------------ binary strings

  /** The binary string of bytes: one character per byte, of that code,
      as `String.fromCharCode(bytes[i])` builds it. */
  function Binary(b: seq<Byte>): (r: string)
    ensures |r| == |b| && forall i :: 0 <= i < |b| ==> r[i] as int == b[i]
  {
    if b == [] then [] else [b[0] as char] + Binary(b[1..])
  }

  /** The bytes of a string whose characters are all below 256. */
  function Bytes(s: string): (r: seq<Byte>)
    requires forall i :: 0 <= i < |s| ==> s[i] as int < 256
    ensures |r| == |s| && forall i :: 0 <= i < |s| ==> r[i] == s[i] as int
  {
    if s == [] then [] else [s[0] as int] + Bytes(s[1..])
  }

  /** `btoa`: None where a character above 255 makes it throw. */
  function Btoa(s: string): (r: Option<string>)
    ensures r.Some? <==> forall i :: 0 <= i < |s| ==> s[i] as int < 256
  {
    if forall i :: 0 <= i < |s| ==> s[i] as int < 256 then Some(Encode(Bytes(s))) else None
  }

  /** `atob`: the binary string of the decoded bytes, None where it throws. */
  function Atob(s: string): (r: Option<string>)
    ensures r.Some? ==> forall i :: 0 <= i < |r.value| ==> r.value[i] as int < 256
    ensures r.Some? <==> Decode(s).Some?
    ensures r.Some? ==> r.value == Binary(Decode(s).value)
  {
    match Decode(s)
    case None => None
    case Some(b) => Some(Binary(b))
  }

  lemma BytesOfBinary(b: seq<Byte>)
    ensures Bytes(Binary(b)) == b
  {
  }

  /** `btoa` of the binary string of bytes is their base64 text. */
  lemma BtoaOfBinary(b: seq<Byte>)
    ensures Btoa(Binary(b)) == Some(Encode(b))
  {
    BytesOfBinary(b);
  }
}
