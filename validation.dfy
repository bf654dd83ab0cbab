/** The input validators shared by the renderer and the Electron main process
    (src/utils/validation.js; the main process re-declares the same checks).
    Each either returns a normalised value or throws an `Error` whose message
    is modelled as `Err(message)`. */
module Validation {
  import opened Wrappers
  import opened Text

  // ------------------------------------------------------------ JS values

  datatype JsNumber = NaN | Infinity(positive: bool) | Finite(value: real)

  /** The JavaScript values an IPC handler can receive. */
  datatype JsValue =
    | Undefined
    | Null
    | Bool(b: bool)
    | Number(n: JsNumber)
    | Str(s: string)
    | Object(fields: map<string, JsValue>)

  predicate Truthy(v: JsValue)
  {
    match v
    case Undefined => false
    case Null => false
    case Bool(b) => b
    case Number(n) => !(n.NaN? || n == Finite(0.0))
    case Str(s) => s != ""
    case Object(_) => true
  }

  /** `!x || typeof x !== 'string'` fails exactly when this is None. */
  function RequiredString(v: JsValue): (r: Option<string>)
    ensures r.Some? <==> v.Str? && v.s != ""
    ensures r.Some? ==> r.value == v.s
  {
    if v.Str? && Truthy(v) then Some(v.s) else None
  }

  // ------------------------------------------------------------ record id

  const RecordIdRequired := "Recording ID is required"
  const RecordIdInvalid := "Invalid recording ID format"

  /** `[0-9a-f]` under the `i` flag. */
  predicate IsHexAnyCase(c: char) { '0' <= c <= '9' || 'a' <= c <= 'f' || 'A' <= c <= 'F' }

  /** `[a-zA-Z0-9_-]`. */
  predicate IsIdChar(c: char) { 'a' <= c <= 'z' || 'A' <= c <= 'Z' || '0' <= c <= '9' || c == '_' || c == '-' }

  predicate IsUuidDashPosition(i: int) { i == 8 || i == 13 || i == 18 || i == 23 }

  /** `/^[0-9a-f]{8}-[0-9a-f]{4}-[0-9a-f]{4}-[0-9a-f]{4}-[0-9a-f]{12}$/i`, the
      text form of a UUID (RFC 4122 section 3). */
  predicate UuidForm(s: string)
  {
    |s| == 36
    && (forall i :: 0 <= i < 36 && IsUuidDashPosition(i) ==> s[i] == '-')
    && (forall i :: 0 <= i < 36 && !IsUuidDashPosition(i) ==> IsHexAnyCase(s[i]))
  }

  /** `/^[a-zA-Z0-9_-]{1,64}$/`. */
  predicate SimpleIdForm(s: string)
  {
    1 <= |s| <= 64 && forall i :: 0 <= i < |s| ==> IsIdChar(s[i])
  }

  lemma UuidIsSimpleId(s: string)
    requires UuidForm(s)
    ensures SimpleIdForm(s)
  {
    forall i | 0 <= i < |s| ensures IsIdChar(s[i]) {
      if IsUuidDashPosition(i) { assert s[i] == '-'; } else { assert IsHexAnyCase(s[i]); }
    }
  }

  /** Accepts exactly the 1–64-character strings over `[A-Za-z0-9_-]` (every
      UUID is one of them), returning the input itself. */
  function ValidateRecordId(v: JsValue): (r: Result<string>)
    ensures r.Ok? <==> v.Str? && SimpleIdForm(v.s)
    ensures r.Ok? ==> r.value == v.s
    ensures RequiredString(v).None? ==> r == Err(RecordIdRequired)
    ensures RequiredString(v).Some? && r.Err? ==> r == Err(RecordIdInvalid)
  {
    match RequiredString(v)
    case None => Err(RecordIdRequired)
    case Some(id) =>
      if !UuidForm(id) && !SimpleIdForm(id) then Err(RecordIdInvalid)
      else
        assert UuidForm(id) ==> SimpleIdForm(id) by {
          if UuidForm(id) { UuidIsSimpleId(id); }
        }
        Ok(id)
  }

  /** Path-traversal and over-long IDs are refused. */
  lemma RecordIdExamples()
    ensures ValidateRecordId(Str("../../../etc/passwd")) == Err(RecordIdInvalid)
    ensures ValidateRecordId(Str(Repeat('a', 100))) == Err(RecordIdInvalid)
    ensures ValidateRecordId(Str("550e8400-e29b-41d4-a716-446655440000")) == Ok("550e8400-e29b-41d4-a716-446655440000")
    ensures ValidateRecordId(Str("")) == Err(RecordIdRequired)
    ensures ValidateRecordId(Null) == Err(RecordIdRequired)
  {
    var bad := "../../../etc/passwd";
    assert !IsIdChar(bad[0]);
    var uuid := "550e8400-e29b-41d4-a716-446655440000";
    assert forall i :: 0 <= i < |uuid| ==> IsIdChar(uuid[i]);
  }

  // ------------------------------------------------------------ extension

  const AllowedExtensions: seq<string> :=
    [".webm", ".mp3", ".wav", ".ogg", ".flac", ".m4a", ".mp4", ".aac", ".opus", ".wma", ".amr", ".3gp", ".mov", ".mkv", ".avi"]

  const ExtensionRequired := "File extension is required"

  /** Returns the lower-cased extension, accepted iff it is on the list. */
  function ValidateExtension(v: JsValue): (r: Result<string>)
    ensures r.Ok? <==> v.Str? && ToLower(v.s) in AllowedExtensions
    ensures r.Ok? ==> r.value == ToLower(v.s)
    ensures RequiredString(v).None? ==> r == Err(ExtensionRequired)
    ensures RequiredString(v).Some? && r.Err? ==> r == Err("Invalid file extension: " + v.s)
  {
    match RequiredString(v)
    case None => Err(ExtensionRequired)
    case Some(ext) =>
      var normalized := ToLower(ext);
      if normalized !in AllowedExtensions then Err("Invalid file extension: " + ext)
      else Ok(normalized)
  }

  /** Validating an accepted extension again returns it unchanged. */
  lemma ExtensionIdempotent(v: JsValue)
    requires ValidateExtension(v).Ok?
    ensures ValidateExtension(Str(ValidateExtension(v).value)) == ValidateExtension(v)
  {
    ToLowerIdempotent(v.s);
  }

  lemma ExtensionExamples()
    ensures ValidateExtension(Str(".WEBM")) == Ok(".webm")
    ensures ValidateExtension(Str(".exe")) == Err("Invalid file extension: .exe")
  {
    assert ToLower(".WEBM") == ".webm";
    assert ToLower(".exe") == ".exe";
  }

  // --------------------------------------------------------------- user id

  const UserIdRequired := "User ID is required"
  const UserIdTooLong := "User ID too long"
  const UserIdBadChars := "User ID contains invalid characters"

  /** `[a-zA-Z0-9_@.-]`. */
  predicate IsUserIdChar(c: char) { IsIdChar(c) || c == '@' || c == '.' }

  /** Accepts iff non-empty, at most 128 characters and over
      `[A-Za-z0-9_@.-]`; the length check comes before the character check. */
  function ValidateUserId(v: JsValue): (r: Result<string>)
    ensures r.Ok? <==> v.Str? && 1 <= |v.s| <= 128 && forall i :: 0 <= i < |v.s| ==> IsUserIdChar(v.s[i])
    ensures r.Ok? ==> r.value == v.s
    ensures RequiredString(v).None? ==> r == Err(UserIdRequired)
    ensures v.Str? && |v.s| > 128 ==> r == Err(UserIdTooLong)
    ensures v.Str? && 1 <= |v.s| <= 128 && r.Err? ==> r == Err(UserIdBadChars)
  {
    match RequiredString(v)
    case None => Err(UserIdRequired)
    case Some(id) =>
      if |id| > 128 then Err(UserIdTooLong)
      else if !(forall i :: 0 <= i < |id| ==> IsUserIdChar(id[i])) then Err(UserIdBadChars)
      else Ok(id)
  }

  // ----------------------------------------------------------- chunk index

  const ChunkIndexInvalid := "Invalid chunk index"
  const ChunkIndexTooLarge := "Chunk index too large"
  const MaxChunkIndex := 100000

  predicate IsIntegral(x: real) { x.Floor as real == x }

  /** Accepts exactly the integral numbers 0..100000. */
  function ValidateChunkIndex(v: JsValue): (r: Result<nat>)
    ensures r.Ok? <==> v.Number? && v.n.Finite? && IsIntegral(v.n.value) && 0.0 <= v.n.value <= MaxChunkIndex as real
    ensures r.Ok? ==> v == Number(Finite(r.value as real)) && r.value <= MaxChunkIndex
    ensures (v.Number? && v.n.Finite? && IsIntegral(v.n.value) && v.n.value > MaxChunkIndex as real) ==> r == Err(ChunkIndexTooLarge)
    ensures !(v.Number? && v.n.Finite? && IsIntegral(v.n.value) && v.n.value >= 0.0) ==> r == Err(ChunkIndexInvalid)
  {
    if !(v.Number? && v.n.Finite? && IsIntegral(v.n.value)) || v.n.value < 0.0 then Err(ChunkIndexInvalid)
    else if v.n.value > MaxChunkIndex as real then Err(ChunkIndexTooLarge)
    else
      var k: nat := v.n.value.Floor;
      assert v == Number(Finite(k as real));
      Ok(k)
  }

  // ----------------------------------------------------------------- email

  const EmailRequired := "Email is required"
  const EmailInvalid := "Invalid email format"

  /** `[^\s@]`. */
  predicate IsEmailChar(c: char) { !IsJsWhitespace(c) && c != '@' }

  predicate AllEmailChars(s: string) { forall i :: 0 <= i < |s| ==> IsEmailChar(s[i]) }

  /** `/^[^\s@]+@[^\s@]+\.[^\s@]+$/`: some split `local @ host . tld` with
      every part non-empty and free of white space and `@`. */
  predicate EmailForm(s: string)
  {
    exists a: nat, d: nat | a < d < |s| ::
      0 < a && a + 1 < d && d + 1 < |s| && s[a] == '@' && s[d] == '.'
      && AllEmailChars(s[..a]) && AllEmailChars(s[a + 1..d]) && AllEmailChars(s[d + 1..])
  }

  /** The same set described by its characters: no white space, exactly one
      `@` and not first, and a `.` after the `@` with at least one character
      on each side. */
  predicate EmailShape(s: string)
  {
    NoWhitespace(s)
    && exists a: nat | a < |s| ::
      s[a] == '@' && 0 < a
      && (forall k :: 0 <= k < |s| && k != a ==> s[k] != '@')
      && exists d: nat | a + 1 < d < |s| - 1 :: s[d] == '.'
  }

  lemma EmailFormIffShape(s: string)
    ensures EmailForm(s) <==> EmailShape(s)
  {
    if EmailForm(s) {
      FormHasShape(s);
    }
    if EmailShape(s) {
      ShapeHasForm(s);
    }
  }

  lemma FormHasShape(s: string)
    requires EmailForm(s)
    ensures EmailShape(s)
  {
    var a: nat, d: nat :| a < d < |s| && 0 < a && a + 1 < d && d + 1 < |s| && s[a] == '@' && s[d] == '.'
      && AllEmailChars(s[..a]) && AllEmailChars(s[a + 1..d]) && AllEmailChars(s[d + 1..]);
    forall k | 0 <= k < |s| && k != a ensures IsEmailChar(s[k]) {
      if k < a { assert s[..a][k] == s[k]; }
      else if k < d { assert s[a + 1..d][k - a - 1] == s[k]; }
      else if k > d { assert s[d + 1..][k - d - 1] == s[k]; }
    }
    assert !IsJsWhitespace(s[a]);
    assert NoWhitespace(s);
    assert a + 1 < d < |s| - 1 && s[d] == '.';
  }

  lemma ShapeHasForm(s: string)
    requires EmailShape(s)
    ensures EmailForm(s)
  {
    var a: nat :| a < |s| && s[a] == '@' && 0 < a
      && (forall k :: 0 <= k < |s| && k != a ==> s[k] != '@')
      && exists d: nat | a + 1 < d < |s| - 1 :: s[d] == '.';
    var d: nat :| a + 1 < d < |s| - 1 && s[d] == '.';
    assert AllEmailChars(s[..a]);
    assert AllEmailChars(s[a + 1..d]);
    assert AllEmailChars(s[d + 1..]);
  }

  /** Accepts exactly the `local@host.tld` shapes; the result is the input
      lower-cased (the trim never removes anything, because an accepted
      address contains no white space). */
  function ValidateEmail(v: JsValue): (r: Result<string>)
    ensures r.Ok? <==> v.Str? && EmailShape(v.s)
    ensures r.Ok? ==> r.value == ToLower(v.s)
    ensures RequiredString(v).None? ==> r == Err(EmailRequired)
    ensures RequiredString(v).Some? && r.Err? ==> r == Err(EmailInvalid)
  {
    match RequiredString(v)
    case None => Err(EmailRequired)
    case Some(email) =>
      EmailFormIffShape(email);
      if !EmailForm(email) then Err(EmailInvalid)
      else
        LowerKeepsNoWhitespace(email);
        TrimNoWhitespace(ToLower(email));
        Ok(Trim(ToLower(email)))
  }

  lemma LowerKeepsNoWhitespace(s: string)
    requires EmailShape(s)
    ensures NoWhitespace(ToLower(s))
  {
    forall i | 0 <= i < |s| ensures !IsJsWhitespace(ToLower(s)[i]) {
      assert !IsJsWhitespace(s[i]);
    }
  }

  lemma EmailAcceptedExample()
    ensures ValidateEmail(Str("Test@Example.COM")) == Ok("test@example.com")
  {
    var s := "Test@Example.COM";
    assert s[4] == '@' && s[12] == '.';
    assert forall k :: 0 <= k < |s| && k != 4 ==> s[k] != '@';
    assert EmailShape(s);
    assert ToLower(s) == "test@example.com";
  }

  lemma EmailRejectedExample()
    ensures ValidateEmail(Str("invalid")) == Err(EmailInvalid)
  {
    var t := "invalid";
    assert forall k :: 0 <= k < |t| ==> t[k] != '@';
  }

  // -------------------------------------------------------------- password

  const PasswordRequired := "Password is required"
  const PasswordTooShort := "Password must be at least 8 characters"

  function ValidatePassword(v: JsValue): (r: Result<string>)
    ensures r.Ok? <==> v.Str? && |v.s| >= 8
    ensures r.Ok? ==> r.value == v.s
    ensures RequiredString(v).None? ==> r == Err(PasswordRequired)
    ensures RequiredString(v).Some? && r.Err? ==> r == Err(PasswordTooShort)
  {
    match RequiredString(v)
    case None => Err(PasswordRequired)
    case Some(p) => if |p| < 8 then Err(PasswordTooShort) else Ok(p)
  }

  // -------------------------------------------------------------- metadata

  /** The object validateRecordingMetadata builds; a None field is absent. */
  datatype Metadata = Metadata(duration: Option<JsNumber>, title: Option<string>)

  const MaxTitleLength := 255

  /** `Number(v)` for the values modelled: strings per DecimalNumber. */
  function ToNumber(v: JsValue): JsNumber
  {
    match v
    case Undefined => NaN
    case Null => Finite(0.0)
    case Bool(b) => Finite(if b then 1.0 else 0.0)
    case Number(n) => n
    case Str(s) => StringToNumber(s)
    case Object(_) => NaN
  }

  /** `Number(s)` (StringToNumber, section 7.1.4.1.1 of ECMA-262): white
      space around either a `0x`, `0o` or `0b` integer, which takes no sign,
      or an optional sign and then `Infinity` or a decimal literal with an
      optional exponent. The empty string is 0; anything else is NaN. */
  function StringToNumber(s: string): JsNumber
  {
    var t := Trim(s);
    if t == "" then Finite(0.0)
    else match PrefixedInteger(t)
      case Some(n) => Finite(n as real)
      case None =>
        var negative := t[0] == '-';
        var body := if t[0] == '-' || t[0] == '+' then t[1..] else t;
        if body == "Infinity" then Infinity(!negative)
        else match UnsignedDecimal(body)
          case None => NaN
          case Some(x) => Finite(if negative then -x else x)
  }

  /** The radix a `0x`, `0o` or `0b` prefix (either case) names, 0 for none. */
  function PrefixRadix(c: char): nat
  {
    if c == 'x' || c == 'X' then 16
    else if c == 'o' || c == 'O' then 8
    else if c == 'b' || c == 'B' then 2
    else 0
  }

  /** A non-decimal integer literal: `0`, the prefix letter, then at least
      one digit of that radix, in either case. */
  function PrefixedInteger(t: string): (r: Option<nat>)
    ensures r.Some? ==> |t| >= 3 && t[0] == '0' && PrefixRadix(t[1]) != 0
  {
    if |t| < 3 || t[0] != '0' || PrefixRadix(t[1]) == 0 then None
    else
      var radix, digits := PrefixRadix(t[1]), ToLower(t[2..]);
      if forall k :: 0 <= k < |digits| ==> IsHexDigit(digits[k]) && DigitOf(digits[k]) < radix
      then Some(FromRadix(digits, radix))
      else None
  }

  /** Where the exponent marker `e` or `E` stands, if anywhere. */
  function ExponentAt(s: string): (r: Option<nat>)
    ensures r.Some? ==> (r.value < |s| && (s[r.value] == 'e' || s[r.value] == 'E')
      && forall k :: 0 <= k < r.value ==> s[k] != 'e' && s[k] != 'E')
    ensures r.None? ==> forall k :: 0 <= k < |s| ==> s[k] != 'e' && s[k] != 'E'
  {
    if s == [] then None
    else if s[0] == 'e' || s[0] == 'E' then Some(0)
    else match ExponentAt(s[1..])
      case None => None
      case Some(k) => Some(k + 1)
  }

  /** An exponent: an optional sign, then at least one decimal digit. */
  function ExponentValue(s: string): Option<int>
  {
    var signed := s != [] && (s[0] == '+' || s[0] == '-');
    var digits := if signed then s[1..] else s;
    if digits != "" && AllDecimal(digits) then
      Some(if signed && s[0] == '-' then -(FromRadix(digits, 10) as int) else FromRadix(digits, 10))
    else None
  }

  function TenTo(e: int): (r: real)
    ensures r > 0.0
  {
    if e >= 0 then Pow(10, e) as real else 1.0 / Pow(10, -e) as real
  }

  /** StrUnsignedDecimalLiteral other than `Infinity`: a decimal literal,
      then optionally `e` or `E` and a signed exponent. */
  function UnsignedDecimal(s: string): (r: Option<real>)
    ensures r.Some? ==> r.value >= 0.0
  {
    match ExponentAt(s)
    case None => DecimalValue(s)
    case Some(i) => Scaled(DecimalValue(s[..i]), ExponentValue(s[i + 1..]))
  }

  /** A mantissa times ten to an exponent, when both were read. */
  function Scaled(mantissa: Option<real>, exponent: Option<int>): (r: Option<real>)
    requires mantissa.Some? ==> mantissa.value >= 0.0
    ensures r.Some? ==> r.value >= 0.0
  {
    if mantissa.Some? && exponent.Some? then
      var scale := TenTo(exponent.value);
      ScaledNonNegative(mantissa.value, scale);
      Some(mantissa.value * scale)
    else None
  }

  lemma ScaledNonNegative(m: real, t: real)
    requires m >= 0.0 && t > 0.0
    ensures m * t >= 0.0
  {
  }

  /** `Number("1e3")` is 1000. */
  lemma ExponentForms()
    ensures StringToNumber("1e3") == Finite(1000.0)
  {
    assert NoWhitespace("1e3");
    TrimNoWhitespace("1e3");
    assert PrefixedInteger("1e3").None?;
    UnsignedThousand();
  }

  lemma UnsignedThousand()
    ensures UnsignedDecimal("1e3") == Some(1000.0)
  {
    assert ExponentAt("1e3") == Some(1);
    assert "1e3"[..1] == "1" && "1e3"[2..] == "3";
    assert DecimalValue("1") == Some(1.0);
    assert ExponentValue("3") == Some(3);
    assert Pow(10, 3) == 1000;
  }

  /** `Number("1e")` is NaN: an exponent marker needs digits after it. */
  lemma DanglingExponentIsNaN()
    ensures StringToNumber("1e") == NaN
  {
    assert NoWhitespace("1e");
    TrimNoWhitespace("1e");
    assert ExponentAt("1e") == Some(1);
    assert "1e"[2..] == "";
    assert ExponentValue("") == None;
  }

  /** `Number("0x1F")` is 31 and `Number("0b101")` is 5. */
  lemma PrefixedForms()
    ensures StringToNumber("0x1F") == Finite(31.0)
    ensures StringToNumber("0b101") == Finite(5.0)
  {
    assert NoWhitespace("0x1F");
    TrimNoWhitespace("0x1F");
    HexThirtyOne();
    assert NoWhitespace("0b101");
    TrimNoWhitespace("0b101");
    BinaryFive();
  }

  lemma HexThirtyOne()
    ensures PrefixedInteger("0x1F") == Some(31)
  {
    var digits := ToLower("0x1F"[2..]);
    assert digits == "1f";
    assert FromRadix("1f", 16) == 31 by {
      assert "1f"[..1] == "1";
    }
  }

  lemma BinaryFive()
    ensures PrefixedInteger("0b101") == Some(5)
  {
    var digits := ToLower("0b101"[2..]);
    assert digits == "101";
    assert FromRadix("101", 2) == 5 by {
      assert "101"[..2] == "10" && "10"[..1] == "1";
    }
  }

  /** A sign before a prefix gives NaN: `Number("-0x10")`. */
  lemma SignedPrefixIsNaN()
    ensures StringToNumber("-0x10") == NaN
  {
    assert NoWhitespace("-0x10");
    TrimNoWhitespace("-0x10");
    assert PrefixedInteger("-0x10").None?;
    assert "-0x10"[1..] == "0x10";
    HexIsNotDecimal();
  }

  lemma HexIsNotDecimal()
    ensures UnsignedDecimal("0x10").None?
  {
    assert ExponentAt("0x10").None?;
    assert IndexOfFrom("0x10", ".", 0).None?;
    assert !IsDecimalDigit("0x10"[1]);
  }

  predicate AllDecimal(s: string) { forall i :: 0 <= i < |s| ==> IsDecimalDigit(s[i]) }

  /** `digits`, `digits.digits`, `.digits` or `digits.`: at least one digit. */
  function DecimalValue(s: string): (r: Option<real>)
    ensures r.Some? ==> r.value >= 0.0
  {
    match IndexOfFrom(s, ".", 0)
    case None =>
      if s != "" && AllDecimal(s) then Some(FromRadix(s, 10) as real) else None
    case Some(i) =>
      var whole, frac := s[..i], s[i + 1..];
      if (whole != "" || frac != "") && AllDecimal(whole) && AllDecimal(frac)
      then
        var value := FromRadix(whole, 10) as real + FromRadix(frac, 10) as real / Pow(10, |frac|) as real;
        FractionNonNegative(FromRadix(whole, 10), FromRadix(frac, 10), Pow(10, |frac|));
        Some(value)
      else None
  }

  lemma FractionNonNegative(w: nat, f: nat, p: nat)
    requires p >= 1
    ensures w as real + f as real / p as real >= 0.0
  {
    assert f as real / p as real >= 0.0;
  }

  predicate NonNegativeNumber(n: JsNumber)
  {
    match n
    case NaN => false
    case Infinity(positive) => positive
    case Finite(x) => x >= 0.0
  }

  /** Non-objects give `{}`; a defined duration is kept when `Number` of it is a
      number ≥ 0; a non-empty string title is kept, cut to 255 characters. */
  function ValidateRecordingMetadata(v: JsValue): (r: Metadata)
    ensures !(v.Object?) ==> r == Metadata(None, None)
    ensures r.duration.Some? ==> NonNegativeNumber(r.duration.value)
    ensures r.duration.Some? ==> v.Object? && "duration" in v.fields && r.duration.value == ToNumber(v.fields["duration"])
    ensures r.title.Some? ==>
      (v.Object? && "title" in v.fields && v.fields["title"].Str?
       && 1 <= |r.title.value| <= MaxTitleLength && StartsWith(v.fields["title"].s, r.title.value)
       && r.title.value == v.fields["title"].s[..if |v.fields["title"].s| < MaxTitleLength then |v.fields["title"].s| else MaxTitleLength])
    ensures v.Object? && "title" in v.fields && v.fields["title"].Str? && v.fields["title"].s != "" ==> r.title.Some?
    ensures v.Object? && "duration" in v.fields && NonNegativeNumber(ToNumber(v.fields["duration"])) ==> r.duration.Some?
  {
    if !Truthy(v) || !v.Object? then Metadata(None, None)
    else
      var fields := v.fields;
      var duration :=
        if "duration" in fields && fields["duration"] != Undefined && NonNegativeNumber(ToNumber(fields["duration"]))
        then Some(ToNumber(fields["duration"])) else None;
      var title :=
        if "title" in fields && Truthy(fields["title"]) && fields["title"].Str?
        then Some(fields["title"].s[..if |fields["title"].s| < MaxTitleLength then |fields["title"].s| else MaxTitleLength])
        else None;
      Metadata(duration, title)
  }

  /** The object form of validated metadata. */
  function MetadataObject(m: Metadata): JsValue
  {
    var withDuration := if m.duration.Some? then map["duration" := Number(m.duration.value)] else map[];
    Object(if m.title.Some? then withDuration["title" := Str(m.title.value)] else withDuration)
  }

  /** Validating already validated metadata changes nothing. */
  lemma MetadataIdempotent(v: JsValue)
    ensures ValidateRecordingMetadata(MetadataObject(ValidateRecordingMetadata(v))) == ValidateRecordingMetadata(v)
  {
    var m := ValidateRecordingMetadata(v);
    var o := MetadataObject(m);
    if m.title.Some? {
      assert o.fields["title"] == Str(m.title.value);
      assert m.title.value[..|m.title.value|] == m.title.value;
    }
    if m.duration.Some? {
      assert o.fields["duration"] == Number(m.duration.value);
    }
  }
}
