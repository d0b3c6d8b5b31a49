/** JavaScript value semantics that the chat client relies on: optional
    values, truthiness, template-literal rendering of ids, `parseInt` and the
    part of `toUpperCase` that matters when a role is compared with "ADMIN". */
module Js {

  /** `undefined`/`null` versus a present value. */
  datatype Option<+T> = None | Some(value: T)

  /** A user id as the backend's JSON carries it: a number or a string. */
  datatype Id = Num(n: int) | Text(s: string)

  /** JavaScript truthiness of an id: `0` and `""` are falsy. */
  predicate IdTruthy(id: Id) {
    match id
    case Num(n) => n != 0
    case Text(s) => s != ""
  }

  /** Truthiness of an optional id (`undefined` is falsy). */
  predicate HasId(id: Option<Id>) {
    id.Some? && IdTruthy(id.value)
  }

  /** Truthiness of a value read with `localStorage.getItem`: `null` and `""` are falsy. */
  predicate Present(v: Option<string>) {
    v.Some? && v.value != ""
  }

  function MapGet<K, V>(m: map<K, V>, k: K): (r: Option<V>)
    ensures r.Some? <==> k in m
    ensures r.Some? ==> r.value == m[k]
  {
    if k in m then Some(m[k]) else None
  }

  // ---------------------------------------------------------------------
  // Decimal rendering (template literals, `setItem` of a number)

  predicate IsDecimalDigit(c: char) {
    '0' <= c <= '9'
  }

  function DigitChar(d: nat): (c: char)
    requires d < 10
    ensures IsDecimalDigit(c) && c as int - '0' as int == d
  {
    ('0' as int + d) as char
  }

  /** The decimal numeral of `n`, as `String(n)` writes it. */
  function NatToString(n: nat): (s: string)
    ensures |s| >= 1
    ensures forall i :: 0 <= i < |s| ==> IsDecimalDigit(s[i])
    ensures |s| > 1 ==> s[0] != '0'
  {
    if n < 10 then [DigitChar(n)] else NatToString(n / 10) + [DigitChar(n % 10)]
  }

  function IntToString(n: int): string {
    if n < 0 then "-" + NatToString(-n) else NatToString(n)
  }

  /** `${v}` of an optional id: `undefined` renders as "undefined". */
  function Render(v: Option<Id>): string {
    match v
    case None => "undefined"
    case Some(Num(n)) => IntToString(n)
    case Some(Text(s)) => s
  }

  // ---------------------------------------------------------------------
  // String.prototype.toUpperCase, for the characters that matter here

  /** Upper-cases the ASCII letters and the dotless i (which becomes 'I').
      Every other character is left as it is. No other character upper-cases
      to a string made of the capitals of "ADMIN", so a comparison of the
      result with "ADMIN" is decided as JavaScript decides it; for other
      words it need not be (JavaScript upper-cases 'ſ' to "S" and 'ß' to "SS"). */
  function UpperChar(c: char): char {
    if 'a' <= c <= 'z' then (c as int - 32) as char
    else if c == '\U{131}' then 'I'
    else c
  }

  function ToUpper(s: string): (r: string)
    ensures |r| == |s|
    ensures forall i :: 0 <= i < |s| ==> r[i] == UpperChar(s[i])
  {
    seq(|s|, i requires 0 <= i < |s| => UpperChar(s[i]))
  }

  // ---------------------------------------------------------------------
  // parseInt(string) with no radix argument

  /** The white space and line terminators `parseInt` skips before the number. */
  predicate IsJsSpace(c: char) {
    c == '\t' || c == '\n' || c == '\U{B}' || c == '\U{C}' || c == '\r' || c == ' '
    || c == '\U{A0}' || c == '\U{1680}' || ('\U{2000}' <= c <= '\U{200A}')
    || c == '\U{2028}' || c == '\U{2029}' || c == '\U{202F}' || c == '\U{205F}'
    || c == '\U{3000}' || c == '\U{FEFF}'
  }

  function TrimStart(s: string): (r: string)
    ensures |r| <= |s|
    ensures r == s[|s| - |r|..]
    ensures r != [] ==> !IsJsSpace(r[0])
  {
    if s != [] && IsJsSpace(s[0]) then TrimStart(s[1..]) else s
  }

  /** The value of `c` as a digit of base `radix` (10 or 16), if it is one. */
  function DigitValue(c: char, radix: nat): (r: Option<nat>)
    ensures r.Some? ==> r.value < radix
  {
    if IsDecimalDigit(c) && (c as int - '0' as int) < radix then Some(c as int - '0' as int)
    else if radix == 16 && 'a' <= c <= 'f' then Some(c as int - 'a' as int + 10)
    else if radix == 16 && 'A' <= c <= 'F' then Some(c as int - 'A' as int + 10)
    else None
  }

  /** The longest prefix of `s` made of digits of base `radix`. */
  function DigitPrefix(s: string, radix: nat): (r: string)
    ensures |r| <= |s| && r == s[..|r|]
    ensures forall i :: 0 <= i < |r| ==> DigitValue(r[i], radix).Some?
    ensures |r| < |s| ==> DigitValue(s[|r|], radix).None?
  {
    if s != [] && DigitValue(s[0], radix).Some? then [s[0]] + DigitPrefix(s[1..], radix) else []
  }

  /** The number a string of base-`radix` digits denotes (only called on
      digit strings; another character would count as 0). */
  function DigitsValue(ds: string, radix: nat): nat
  {
    if ds == [] then 0
    else
      var d: nat := match DigitValue(ds[|ds| - 1], radix) case Some(v) => v case None => 0;
      var high: nat := DigitsValue(ds[..|ds| - 1], radix);
      high * radix + d
  }

  /** The unsigned part of `parseInt`: a "0x"/"0X" prefix selects base 16,
      then the longest digit prefix is read and the rest ignored; `None`
      when there is no digit. */
  function ParseMagnitude(u: string): Option<nat> {
    var hex := |u| >= 2 && u[0] == '0' && (u[1] == 'x' || u[1] == 'X');
    var radix := if hex then 16 else 10;
    var ds := DigitPrefix(if hex then u[2..] else u, radix);
    if ds == [] then None else Some(DigitsValue(ds, radix))
  }

  /** `parseInt(s)`: `None` stands for NaN. Leading white space is skipped
      and one sign is accepted before the magnitude. */
  function ParseInt(s: string): Option<int> {
    var t := TrimStart(s);
    if t != [] && t[0] == '-' then
      match ParseMagnitude(t[1..])
      case None => None
      case Some(v) => Some(-(v as int))
    else if t != [] && t[0] == '+' then
      match ParseMagnitude(t[1..])
      case None => None
      case Some(v) => Some(v)
    else
      match ParseMagnitude(t)
      case None => None
      case Some(v) => Some(v)
  }

  lemma {:induction false} NumeralIsDigitPrefix(s: string)
    requires forall i :: 0 <= i < |s| ==> IsDecimalDigit(s[i])
    ensures DigitPrefix(s, 10) == s
  {
    if s != [] {
      NumeralIsDigitPrefix(s[1..]);
    }
  }

  lemma {:induction false} NumeralValue(n: nat)
    ensures DigitsValue(NatToString(n), 10) == n
  {
    var s := NatToString(n);
    if n >= 10 {
      NumeralValue(n / 10);
      assert s[..|s| - 1] == NatToString(n / 10);
    }
  }

  lemma MagnitudeOfNumeral(n: nat)
    ensures ParseMagnitude(NatToString(n)) == Some(n)
  {
    var digits := NatToString(n);
    NumeralIsDigitPrefix(digits);
    NumeralValue(n);
    assert !(|digits| >= 2 && (digits[1] == 'x' || digits[1] == 'X')) by {
      if |digits| >= 2 { assert IsDecimalDigit(digits[1]); }
    }
  }

  /** What `localStorage.setItem(k, n)` stores for an integer, `parseInt` reads back. */
  lemma ParseIntRoundTrip(n: int)
    ensures ParseInt(IntToString(n)) == Some(n)
  {
    var m := if n < 0 then -n else n;
    var digits := NatToString(m);
    var s := IntToString(n);
    MagnitudeOfNumeral(m);
    assert !IsJsSpace(s[0]) by {
      if n >= 0 { assert IsDecimalDigit(digits[0]); }
    }
    assert TrimStart(s) == s;
    if n < 0 {
      assert s[1..] == digits;
    } else {
      assert IsDecimalDigit(s[0]);
    }
  }
}
