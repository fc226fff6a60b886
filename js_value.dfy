/** JavaScript runtime values as the front-end sees them after `JSON.parse`,
    and the coercions the modelled code applies to them: `??`, `||`, truthiness,
    property reads through `?.`, `String(...)`, `Number(...)`, `parseFloat`,
    `parseInt` and `encodeURIComponent`.

    Numbers are exact reals (no binary rounding, no overflow to Infinity);
    `NaN` is its own value. An object is the ordered list of its entries, one
    entry per key, in the order `Object.entries` reports them. */
module JsValue {

  datatype Option<T> = None | Some(value: T)

  /** A call that returns a value or throws an `Error` with a message. */
  datatype Result<T> = Ok(value: T) | Failure(error: string)

  datatype Value =
    | Undefined
    | Null
    | Bool(b: bool)
    | Num(n: real)
    | NaN
    | Str(s: string)
    | Arr(items: seq<Value>)
    | Obj(fields: seq<(string, Value)>)

  /** `v === null || v === undefined`, the values `??` and `?.` skip. */
  predicate Nullish(v: Value) {
    v.Undefined? || v.Null?
  }

  /** JavaScript truthiness (`Boolean(v)`, `!!v`). */
  predicate Truthy(v: Value) {
    match v
    case Undefined => false
    case Null => false
    case Bool(b) => b
    case Num(n) => n != 0.0
    case NaN => false
    case Str(s) => s != []
    case Arr(_) => true
    case Obj(_) => true
  }

  /** `a ?? b` */
  function Coalesce(a: Value, b: Value): Value {
    if Nullish(a) then b else a
  }

  /** `a || b` */
  function Or(a: Value, b: Value): Value {
    if Truthy(a) then a else b
  }

  /** The entry stored under `key`, or `undefined`. */
  function Lookup(fields: seq<(string, Value)>, key: string): Value {
    if |fields| == 0 then Undefined
    else if fields[0].0 == key then fields[0].1
    else Lookup(fields[1..], key)
  }

  /** The entry found for `key` is the first one carrying it. */
  lemma {:induction false} LookupAt(fields: seq<(string, Value)>, key: string, i: nat)
    requires i < |fields| && fields[i].0 == key
    requires forall j :: 0 <= j < i ==> fields[j].0 != key
    ensures Lookup(fields, key) == fields[i].1
    decreases i
  {
    if i > 0 {
      LookupAt(fields[1..], key, i - 1);
    }
  }

  /** A key no entry carries reads as `undefined`. */
  lemma {:induction false} LookupAbsent(fields: seq<(string, Value)>, key: string)
    requires forall j :: 0 <= j < |fields| ==> fields[j].0 != key
    ensures Lookup(fields, key) == Undefined
    decreases |fields|
  {
    if |fields| > 0 {
      LookupAbsent(fields[1..], key);
    }
  }

  /** `v?.key`: an object's entry, the `length` of a string or an array, and
      `undefined` for everything else (including `null` and `undefined`). */
  function Get(v: Value, key: string): Value {
    match v
    case Obj(fields) => Lookup(fields, key)
    case Str(s) => if key == "length" then Num(|s| as real) else Undefined
    case Arr(items) => if key == "length" then Num(|items| as real) else Undefined
    case _ => Undefined
  }

  /** `v[0]` on a value whose `length` was found positive. */
  function First(v: Value): Value {
    match v
    case Arr(items) => if |items| > 0 then items[0] else Undefined
    case Str(s) => if |s| > 0 then Str([s[0]]) else Undefined
    case Obj(fields) => Lookup(fields, "0")
    case _ => Undefined
  }

  predicate IsArray(v: Value) {
    v.Arr?
  }

  /** `typeof v === 'object'` together with truthiness: arrays and objects. */
  predicate IsObjectLike(v: Value) {
    v.Arr? || v.Obj?
  }

  /** `v === Str(lit)`, JavaScript strict equality against a string literal. */
  predicate IsString(v: Value, lit: string) {
    v == Str(lit)
  }

  // ---------------------------------------------------------------------------
  // Decimal digits

  predicate IsDigit(c: char) {
    '0' <= c <= '9'
  }

  function DigitChar(d: nat): (c: char)
    requires d < 10
    ensures IsDigit(c) && (c as int) - ('0' as int) == d
  {
    (('0' as int) + d) as char
  }

  function DigitValue(c: char): (d: nat)
    requires IsDigit(c)
    ensures d < 10
  {
    (c as int) - ('0' as int)
  }

  /** Decimal notation of a natural number, without leading zeros. */
  function NatToDecimal(n: nat): (s: string)
    ensures |s| > 0 && forall i :: 0 <= i < |s| ==> IsDigit(s[i])
    ensures n > 0 ==> s[0] != '0'
    decreases n
  {
    if n < 10 then [DigitChar(n)] else NatToDecimal(n / 10) + [DigitChar(n % 10)]
  }

  /** `String(i)` for an integer. */
  function IntToDecimal(i: int): string {
    if i < 0 then "-" + NatToDecimal(-i) else NatToDecimal(i)
  }

  /** The number a string of decimal digits denotes. */
  function DecimalValue(s: string): nat
    requires forall i :: 0 <= i < |s| ==> IsDigit(s[i])
    decreases |s|
  {
    if |s| == 0 then 0 else DecimalValue(s[..|s| - 1]) * 10 + DigitValue(s[|s| - 1])
  }

  lemma {:induction false} DecimalOfNatToDecimal(n: nat)
    ensures DecimalValue(NatToDecimal(n)) == n
    decreases n
  {
    var s := NatToDecimal(n);
    if n >= 10 {
      DecimalOfNatToDecimal(n / 10);
      assert s[..|s| - 1] == NatToDecimal(n / 10);
    }
  }

  /** The array index a property key denotes: the canonical decimal of a
      number below 2^32 - 1. Keys like "07" or "4294967295" are not indices. */
  function ArrayIndexOf(key: string): (r: Option<nat>)
    ensures r.Some? ==> r.value < 0xFFFF_FFFF
  {
    if 0 < |key| && (forall i :: 0 <= i < |key| ==> IsDigit(key[i])) && (|key| == 1 || key[0] != '0')
       && DecimalValue(key) < 0xFFFF_FFFF
    then Some(DecimalValue(key))
    else None
  }

  /** Number of leading characters of `s` satisfying IsDigit. */
  function DigitRun(s: string): (k: nat)
    ensures k <= |s|
    ensures forall i :: 0 <= i < k ==> IsDigit(s[i])
    ensures k < |s| ==> !IsDigit(s[k])
  {
    if |s| > 0 && IsDigit(s[0]) then 1 + DigitRun(s[1..]) else 0
  }

  function Pow10(e: nat): (p: nat)
    ensures p >= 1
  {
    if e == 0 then 1 else 10 * Pow10(e - 1)
  }

  // ---------------------------------------------------------------------------
  // White space and case

  /** The characters ECMAScript's `StrWhiteSpaceChar` and the regular-expression
      class `\s` accept: white space and line terminators. */
  predicate IsJsSpace(c: char) {
    c == ' ' || c == '\t' || c == '\n' || c == '\r' || c == '\U{B}' || c == '\U{C}'
    || c == '\U{A0}' || c == '\U{1680}' || ('\U{2000}' <= c <= '\U{200A}')
    || c == '\U{2028}' || c == '\U{2029}' || c == '\U{202F}' || c == '\U{205F}'
    || c == '\U{3000}' || c == '\U{FEFF}'
  }

  predicate IsLineTerminator(c: char) {
    c == '\n' || c == '\r' || c == '\U{2028}' || c == '\U{2029}'
  }

  function TrimStart(s: string): (r: string)
    ensures |r| <= |s| && r == s[|s| - |r|..]
    ensures |r| > 0 ==> !IsJsSpace(r[0])
  {
    if |s| > 0 && IsJsSpace(s[0]) then TrimStart(s[1..]) else s
  }

  function TrimEnd(s: string): (r: string)
    ensures |r| <= |s| && r == s[..|r|]
    ensures |r| > 0 ==> !IsJsSpace(r[|r| - 1])
  {
    if |s| > 0 && IsJsSpace(s[|s| - 1]) then TrimEnd(s[..|s| - 1]) else s
  }

  function LowerChar(c: char): char {
    if 'A' <= c <= 'Z' then ((c as int) + 32) as char else c
  }

  /** `s.toLowerCase()` on the ASCII letters. */
  function ToLower(s: string): (r: string)
    ensures |r| == |s|
  {
    if |s| == 0 then [] else [LowerChar(s[0])] + ToLower(s[1..])
  }

  predicate HasNoAsciiUpper(s: string) {
    forall i :: 0 <= i < |s| ==> !('A' <= s[i] <= 'Z')
  }

  /** Lower-casing a string without ASCII capitals leaves it as it is. */
  lemma {:induction false} ToLowerIdentity(s: string)
    requires HasNoAsciiUpper(s)
    ensures ToLower(s) == s
    decreases |s|
  {
    if |s| > 0 {
      assert HasNoAsciiUpper(s[1..]) by {
        forall i | 0 <= i < |s[1..]|
          ensures !('A' <= s[1..][i] <= 'Z')
        {
          assert s[1..][i] == s[i + 1];
        }
      }
      ToLowerIdentity(s[1..]);
    }
  }

  /** `s.includes(sub)` */
  predicate Contains(s: string, sub: string) {
    sub <= s || (|s| > 0 && Contains(s[1..], sub))
  }

  lemma {:induction false} ContainsAt(s: string, sub: string, i: nat)
    requires i + |sub| <= |s| && s[i..i + |sub|] == sub
    ensures Contains(s, sub)
    decreases i
  {
    if i > 0 {
      assert s[1..][i - 1..i - 1 + |sub|] == s[i..i + |sub|];
      ContainsAt(s[1..], sub, i - 1);
    }
  }

  lemma {:induction false} ContainsWitness(s: string, sub: string) returns (i: nat)
    requires Contains(s, sub)
    ensures i + |sub| <= |s| && s[i..i + |sub|] == sub
    decreases |s|
  {
    if sub <= s {
      i := 0;
    } else {
      var j := ContainsWitness(s[1..], sub);
      assert s[1..][j..j + |sub|] == s[j + 1..j + 1 + |sub|];
      i := j + 1;
    }
  }

  // ---------------------------------------------------------------------------
  // Numeric literals: parseFloat, Number(string), parseInt

  datatype Parsed = Parsed(value: real, length: nat)

  /** The longest prefix of `s` that is an unsigned decimal literal
      (`12`, `12.`, `.5`, `1.5e-3`) with its value and length. */
  function UnsignedDecimalPrefix(s: string): (r: Option<Parsed>)
    ensures r.Some? ==> 0 < r.value.length <= |s|
  {
    match MantissaPrefix(s)
    case None => None
    case Some(m) =>
      var exp := ExponentPrefix(s[m.length..]);
      if exp.None? then Some(m)
      else Some(Parsed(Scale(m.value, exp.value.0), m.length + exp.value.1))
  }

  /** Digits, optionally followed by a point and more digits, at least one
      digit in all: the value and the length of that prefix. */
  function MantissaPrefix(s: string): (r: Option<Parsed>)
    ensures r.Some? ==> 0 < r.value.length <= |s|
  {
    var i := DigitRun(s);
    var hasDot := i < |s| && s[i] == '.';
    var j := if hasDot then DigitRun(s[i + 1..]) else 0;
    if i == 0 && j == 0 then None
    else if !hasDot then Some(Parsed(DecimalValue(s[..i]) as real, i))
    else
      var whole := s[..i] + s[i + 1..i + 1 + j];
      assert forall k :: 0 <= k < |whole| ==> IsDigit(whole[k]);
      Some(Parsed((DecimalValue(whole) as real) / (Pow10(j) as real), i + 1 + j))
  }

  /** x·10^e */
  function Scale(x: real, e: int): real {
    if e >= 0 then x * (Pow10(e) as real) else x / (Pow10(-e) as real)
  }

  /** An exponent part `e12`, `E-3`, `e+4` at the start of `s`: its value and length. */
  function ExponentPrefix(s: string): (r: Option<(int, nat)>)
    ensures r.Some? ==> 0 < r.value.1 <= |s|
  {
    if |s| < 2 || (s[0] != 'e' && s[0] != 'E') then None
    else
      var signLen := if s[1] == '+' || s[1] == '-' then 1 else 0;
      var k := DigitRun(s[1 + signLen..]);
      if k == 0 then None
      else
        var digits := s[1 + signLen..1 + signLen + k];
        var e := DecimalValue(digits) as int;
        Some((if s[1] == '-' then -e else e, 1 + signLen + k))
  }

  /** A signed decimal literal at the start of `s`. */
  function SignedDecimalPrefix(s: string): (r: Option<Parsed>)
    ensures r.Some? ==> 0 < r.value.length <= |s|
  {
    if |s| > 0 && (s[0] == '+' || s[0] == '-') then
      match UnsignedDecimalPrefix(s[1..])
      case None => None
      case Some(p) => Some(Parsed(if s[0] == '-' then -p.value else p.value, p.length + 1))
    else UnsignedDecimalPrefix(s)
  }

  /** `parseFloat(s)` when its result is finite, `None` when it is NaN. */
  function ParseFloat(s: string): Option<real> {
    match SignedDecimalPrefix(TrimStart(s))
    case None => None
    case Some(p) => Some(p.value)
  }

  /** `parseFloat(s)` as a value: NaN where nothing parses. */
  function ParseFloatValue(s: string): (r: Value)
    ensures r.Num? || r.NaN?
  {
    match ParseFloat(s)
    case Some(x) => Num(x)
    case None => NaN
  }

  /** `Number(s)` for a string: white space around a decimal literal, or
      nothing but white space (which is 0). */
  function StringToNumber(s: string): (r: Value)
    ensures r.Num? || r.NaN?
  {
    var t := TrimEnd(TrimStart(s));
    if t == "" then Num(0.0)
    else match SignedDecimalPrefix(t)
      case Some(p) => if p.length == |t| then Num(p.value) else NaN
      case None => NaN
  }

  /** `parseInt(s, 10)`: optional sign and the leading decimal digits. */
  function ParseInt(s: string): Option<int> {
    var t := TrimStart(s);
    var signLen := if |t| > 0 && (t[0] == '+' || t[0] == '-') then 1 else 0;
    var k := DigitRun(t[signLen..]);
    if k == 0 then None
    else
      var n := DecimalValue(t[signLen..][..k]) as int;
      Some(if signLen == 1 && t[0] == '-' then -n else n)
  }

  /** A string of digits is an unsigned decimal literal in full. */
  lemma UnsignedOfDigits(s: string)
    requires |s| > 0 && forall i :: 0 <= i < |s| ==> IsDigit(s[i])
    ensures UnsignedDecimalPrefix(s) == Some(Parsed(DecimalValue(s) as real, |s|))
  {
    DigitRunAll(s);
    assert s[..|s|] == s;
    assert MantissaPrefix(s) == Some(Parsed(DecimalValue(s) as real, |s|));
    assert s[|s|..] == "";
  }

  /** `String(i)` starts with a sign or a digit, so white space trimming
      leaves it alone. */
  lemma DecimalShape(i: int)
    ensures TrimStart(IntToDecimal(i)) == IntToDecimal(i)
    ensures i < 0 ==> IntToDecimal(i)[0] == '-' && IntToDecimal(i)[1..] == NatToDecimal(-i)
    ensures i >= 0 ==> IntToDecimal(i) == NatToDecimal(i)
  {
    var s := IntToDecimal(i);
    assert s[0] == '-' || IsDigit(s[0]);
    assert !IsJsSpace(s[0]);
  }

  /** `parseFloat` reads back what `String` writes for an integer. */
  lemma ParseFloatOfDecimal(i: int)
    ensures ParseFloat(IntToDecimal(i)) == Some(i as real)
  {
    DecimalShape(i);
    if i < 0 {
      NegativeDecimalPrefix(-i);
    } else {
      NaturalDecimalPrefix(i);
    }
  }

  lemma NaturalDecimalPrefix(n: nat)
    ensures SignedDecimalPrefix(NatToDecimal(n)) == Some(Parsed(n as real, |NatToDecimal(n)|))
  {
    var body := NatToDecimal(n);
    assert IsDigit(body[0]);
    DecimalOfNatToDecimal(n);
    UnsignedOfDigits(body);
  }

  lemma NegativeDecimalPrefix(n: nat)
    ensures SignedDecimalPrefix("-" + NatToDecimal(n)) == Some(Parsed(-(n as real), |NatToDecimal(n)| + 1))
  {
    var body := NatToDecimal(n);
    DecimalOfNatToDecimal(n);
    UnsignedOfDigits(body);
    assert ("-" + body)[1..] == body;
  }

  /** `parseInt` reads back what `String` writes for an integer. */
  lemma ParseIntOfDecimal(i: int)
    ensures ParseInt(IntToDecimal(i)) == Some(i)
  {
    var n: nat := if i < 0 then -i else i;
    var body := NatToDecimal(n);
    DecimalShape(i);
    DigitRunAll(body);
    assert body[..|body|] == body;
    DecimalOfNatToDecimal(n);
  }

  lemma DigitRunAll(s: string)
    requires forall i :: 0 <= i < |s| ==> IsDigit(s[i])
    ensures DigitRun(s) == |s|
  {
    if |s| > 0 {
      DigitRunAll(s[1..]);
    }
  }

  /** `Number(v)` */
  function JsNumber(v: Value): (r: Value)
    ensures r.Num? || r.NaN?
  {
    match v
    case Undefined => NaN
    case Null => Num(0.0)
    case Bool(b) => if b then Num(1.0) else Num(0.0)
    case Num(n) => v
    case NaN => NaN
    case Str(s) => StringToNumber(s)
    case Arr(items) =>
      if |items| == 0 then Num(0.0)
      else if |items| == 1 then
        (match items[0]
         case Undefined => Num(0.0)
         case Null => Num(0.0)
         case Bool(_) => NaN
         case Obj(_) => NaN
         case _ => JsNumber(items[0]))
      else NaN
    case Obj(_) => NaN
  }

  // ---------------------------------------------------------------------------
  // String(v)

  /** `String(r)` for a number whose decimal expansion has at most 20
      fractional digits (every number the parsers above produce that has few
      digits). */
  function NumberToString(r: real): string {
    if r < 0.0 then "-" + UnsignedNumberToString(-r) else UnsignedNumberToString(r)
  }

  function UnsignedNumberToString(r: real): string
    requires r >= 0.0
  {
    var whole := r.Floor;
    if (whole as real) == r then NatToDecimal(whole)
    else
      var k := FractionDigits(r - whole as real, 1);
      var f := ((r - whole as real) * (Pow10(k) as real)).Floor;
      NatToDecimal(whole) + "." + PadDigits(if f < 0 then 0 else f, k)
  }

  /** The least k in [from, 20] for which x·10^k is whole, or 20. */
  function FractionDigits(x: real, from: nat): (k: nat)
    requires 1 <= from <= 20
    ensures 1 <= k <= 20
    decreases 20 - from
  {
    var scaled := x * (Pow10(from) as real);
    if (scaled.Floor as real) == scaled || from == 20 then from else FractionDigits(x, from + 1)
  }

  /** `n` written with exactly `width` digits (leading zeros kept), trailing
      zeros removed. */
  function PadDigits(n: nat, width: nat): string {
    var s := NatToDecimal(n);
    var padded := if |s| < width then Zeros(width - |s|) + s else s;
    StripTrailingZeros(padded)
  }

  function Zeros(n: nat): (s: string)
    ensures |s| == n && forall i :: 0 <= i < n ==> s[i] == '0'
  {
    if n == 0 then "" else "0" + Zeros(n - 1)
  }

  function StripTrailingZeros(s: string): string {
    if |s| > 1 && s[|s| - 1] == '0' then StripTrailingZeros(s[..|s| - 1]) else s
  }

  /** `String(v)` */
  function JsString(v: Value): string {
    match v
    case Undefined => "undefined"
    case Null => "null"
    case Bool(b) => if b then "true" else "false"
    case Num(n) => NumberToString(n)
    case NaN => "NaN"
    case Str(s) => s
    case Arr(items) =>
      JoinComma(seq(|items|, i requires 0 <= i < |items| =>
        if items[i].Undefined? || items[i].Null? then "" else JsString(items[i])))
    case Obj(_) => "[object Object]"
  }

  /** `String(i)` of a whole number is its decimal. */
  lemma NumberToStringOfInt(i: int)
    ensures JsString(Num(i as real)) == IntToDecimal(i)
  {
    if i < 0 {
      assert -(i as real) == (-i) as real;
      assert ((-i) as real).Floor == -i;
    } else {
      assert (i as real).Floor == i;
    }
  }

  function JoinComma(parts: seq<string>): string {
    if |parts| == 0 then ""
    else if |parts| == 1 then parts[0]
    else parts[0] + "," + JoinComma(parts[1..])
  }

  /** The binary `a + b`: string concatenation as soon as either operand is a
      string, array or object (their primitive value is a string), numeric
      addition of `Number(a)` and `Number(b)` otherwise. */
  function JsPlus(a: Value, b: Value): (r: Value)
    ensures (a.Num? && b.Num?) ==> r == Num(a.n + b.n)
    ensures (a.Str? && b.Str?) ==> r == Str(a.s + b.s)
  {
    if a.Str? || a.Arr? || a.Obj? || b.Str? || b.Arr? || b.Obj? then
      Str(JsString(a) + JsString(b))
    else
      match (JsNumber(a), JsNumber(b))
      case (Num(x), Num(y)) => Num(x + y)
      case _ => NaN
  }

  // ---------------------------------------------------------------------------
  // encodeURIComponent

  /** The characters `encodeURIComponent` leaves as they are. */
  predicate IsUriUnreserved(c: char) {
    ('A' <= c <= 'Z') || ('a' <= c <= 'z') || IsDigit(c)
    || c == '-' || c == '_' || c == '.' || c == '!' || c == '~'
    || c == '*' || c == '\'' || c == '(' || c == ')'
  }

  predicate IsUpperHex(c: char) {
    IsDigit(c) || ('A' <= c <= 'F')
  }

  function HexDigit(d: nat): (c: char)
    requires d < 16
    ensures IsUpperHex(c)
  {
    if d < 10 then DigitChar(d) else (('A' as int) + d - 10) as char
  }

  function PercentByte(b: nat): (s: string)
    requires b < 256
    ensures |s| == 3 && s[0] == '%' && IsUpperHex(s[1]) && IsUpperHex(s[2])
  {
    ['%', HexDigit(b / 16), HexDigit(b % 16)]
  }

  /** The UTF-8 bytes of a Unicode scalar value. */
  function Utf8(cp: nat): (bytes: seq<nat>)
    ensures 1 <= |bytes| <= 4
    ensures forall i :: 0 <= i < |bytes| ==> bytes[i] < 256
  {
    if cp < 0x80 then [cp]
    else if cp < 0x800 then [0xC0 + cp / 64 % 32, 0x80 + cp % 64]
    else if cp < 0x10000 then [0xE0 + cp / 4096 % 16, 0x80 + cp / 64 % 64, 0x80 + cp % 64]
    else [0xF0 + cp / 262144 % 8, 0x80 + cp / 4096 % 64, 0x80 + cp / 64 % 64, 0x80 + cp % 64]
  }

  function PercentBytes(bytes: seq<nat>): (s: string)
    requires forall i :: 0 <= i < |bytes| ==> bytes[i] < 256
    ensures |s| == 3 * |bytes|
  {
    if |bytes| == 0 then "" else PercentByte(bytes[0]) + PercentBytes(bytes[1..])
  }

  function EncodeChar(c: char): (s: string)
    ensures 1 <= |s|
  {
    if IsUriUnreserved(c) then [c] else PercentBytes(Utf8(c as int))
  }

  /** A string `encodeURIComponent` can produce: unreserved characters and
      `%XX` escapes with upper-case hex digits. */
  predicate IsUriComponent(s: string) {
    |s| == 0
    || (IsUriUnreserved(s[0]) && IsUriComponent(s[1..]))
    || (|s| >= 3 && s[0] == '%' && IsUpperHex(s[1]) && IsUpperHex(s[2]) && IsUriComponent(s[3..]))
  }

  function EncodeUriComponent(s: string): (r: string)
    ensures |r| >= |s|
  {
    if |s| == 0 then "" else EncodeChar(s[0]) + EncodeUriComponent(s[1..])
  }

  lemma {:induction false} PercentBytesIsUriComponent(bytes: seq<nat>, rest: string)
    requires forall i :: 0 <= i < |bytes| ==> bytes[i] < 256
    requires IsUriComponent(rest)
    ensures IsUriComponent(PercentBytes(bytes) + rest)
    decreases |bytes|
  {
    if |bytes| > 0 {
      PercentBytesIsUriComponent(bytes[1..], rest);
      PercentByteIsUriComponent(bytes[0], PercentBytes(bytes[1..]) + rest);
      assert PercentBytes(bytes) + rest == PercentByte(bytes[0]) + (PercentBytes(bytes[1..]) + rest);
    } else {
      assert PercentBytes(bytes) + rest == rest;
    }
  }

  lemma PercentByteIsUriComponent(b: nat, rest: string)
    requires b < 256 && IsUriComponent(rest)
    ensures IsUriComponent(PercentByte(b) + rest)
  {
    var s := PercentByte(b) + rest;
    assert s[3..] == rest;
  }

  /** Every output of `encodeURIComponent` is made of unreserved characters
      and `%XX` escapes, so it can stand in a query string. */
  lemma {:induction false} EncodedIsUriComponent(s: string)
    ensures IsUriComponent(EncodeUriComponent(s))
    decreases |s|
  {
    if |s| > 0 {
      EncodedIsUriComponent(s[1..]);
      var rest := EncodeUriComponent(s[1..]);
      if IsUriUnreserved(s[0]) {
        assert ([s[0]] + rest)[1..] == rest;
      } else {
        PercentBytesIsUriComponent(Utf8(s[0] as int), rest);
      }
    }
  }

  /** A string of unreserved characters is its own encoding. */
  lemma {:induction false} EncodeUnreservedIdentity(s: string)
    requires forall i :: 0 <= i < |s| ==> IsUriUnreserved(s[i])
    ensures EncodeUriComponent(s) == s
    decreases |s|
  {
    if |s| > 0 {
      EncodeUnreservedIdentity(s[1..]);
      assert s == [s[0]] + s[1..];
    }
  }
}
