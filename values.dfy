/**
 * The slice of JavaScript values the router inspects: handler results, interceptor
 * results, filter payloads and the parts of a thrown error it reads.
 */
module JsValues {
  import opened Wrappers

  /** A JavaScript value; numbers are modelled as integers. */
  datatype Value =
    | Undefined
    | Null
    | Bool(b: bool)
    | Num(n: int)
    | Str(s: string)
    | Arr(items: seq<Value>)
    | Obj(props: map<string, Value>)

  /** JavaScript truthiness: `!v` is false exactly for these values. */
  predicate Truthy(v: Value) {
    match v
    case Undefined => false
    case Null => false
    case Bool(b) => b
    case Num(n) => n != 0
    case Str(s) => s != ""
    case Arr(_) => true
    case Obj(_) => true
  }

  /** `v == undefined` under loose equality holds for undefined and null. */
  predicate IsNullish(v: Value) {
    v.Undefined? || v.Null?
  }

  /**
   * `v == true` under loose equality: `true` converts to 1, a string to its
   * numeric value, and an array to the string of its elements joined by ",",
   * which can denote a number only when there is exactly one element.
   */
  predicate LooselyTrue(v: Value) {
    match v
    case Bool(b) => b
    case Num(n) => n == 1
    case Str(s) => NumericOne(s)
    case Arr(items) => |items| == 1 && TextIsOne(items[0])
    case _ => false
  }

  /**
   * The string `v` becomes inside `join` denotes 1. `undefined` and `null`
   * become "", booleans "true" or "false", plain objects "[object Object]".
   */
  predicate TextIsOne(v: Value) {
    match v
    case Num(n) => n == 1
    case Str(s) => NumericOne(s)
    case Arr(items) => |items| == 1 && TextIsOne(items[0])
    case _ => false
  }

  /**
   * `v == word` under loose equality, for a `word` made of letters that is
   * not "true" or "false" (such as "json" or "text"): a number, boolean,
   * `undefined`, `null` or plain object never equals it, and an array does when
   * its one element's string is the word.
   */
  predicate LooselyWord(v: Value, word: string) {
    match v
    case Str(s) => s == word
    case Arr(items) => |items| == 1 && LooselyWord(items[0], word)
    case _ => false
  }

  /** The white space and line terminators `Number(s)` ignores around a numeral. */
  predicate IsJsSpace(c: char) {
    || c == '\t' || c == '\n' || c == '\U{B}' || c == '\U{C}' || c == '\r' || c == ' '
    || c == '\U{A0}' || c == '\U{1680}' || ('\U{2000}' <= c <= '\U{200A}') || c == '\U{2028}'
    || c == '\U{2029}' || c == '\U{202F}' || c == '\U{205F}' || c == '\U{3000}' || c == '\U{FEFF}'
  }

  function TrimStart(s: string): string {
    if s != [] && IsJsSpace(s[0]) then TrimStart(s[1..]) else s
  }

  function TrimEnd(s: string): string {
    if s != [] && IsJsSpace(s[|s| - 1]) then TrimEnd(s[..|s| - 1]) else s
  }

  predicate IsDigit(c: char) {
    '0' <= c <= '9'
  }

  predicate AllDigits(s: string) {
    forall i | 0 <= i < |s| :: IsDigit(s[i])
  }

  /** The value of a string of decimal digits. */
  function DigitsValue(s: string): nat
    requires AllDigits(s)
  {
    if s == [] then 0 else DigitsValue(s[..|s| - 1]) * 10 + (s[|s| - 1] as int - '0' as int)
  }

  function Pow10(n: nat): nat {
    if n == 0 then 1 else 10 * Pow10(n - 1)
  }

  /** The index of the first `c` in `s`, or `|s|` when there is none. */
  function IndexOf(s: string, c: char): (i: nat)
    ensures i <= |s| && (i < |s| ==> s[i] == c)
    ensures forall j | 0 <= j < i :: s[j] != c
  {
    if s == [] then 0 else if s[0] == c then 0 else 1 + IndexOf(s[1..], c)
  }

  /**
   * `Number(s) === 1` for a string, where `s` is read as an exact decimal
   * numeral: after trimming, an optional "+", digits with an optional "." and
   * an optional exponent; or "0x", "0o" or "0b" (in either case) followed by
   * digits of that base whose value is 1.
   */
  predicate NumericOne(s: string) {
    var t := TrimEnd(TrimStart(s));
    DecimalOne(if t != [] && t[0] == '+' then t[1..] else t) || RadixOne(t)
  }

  predicate RadixOne(t: string) {
    && |t| >= 3 && t[0] == '0' && t[1] in "xXoObB"
    && t[|t| - 1] == '1' && forall i | 2 <= i < |t| - 1 :: t[i] == '0'
  }

  /** An unsigned decimal numeral (mantissa, then an optional exponent after "e" or "E") whose value is exactly 1. */
  predicate DecimalOne(u: string) {
    var e := if IndexOf(u, 'e') < IndexOf(u, 'E') then IndexOf(u, 'e') else IndexOf(u, 'E');
    var exponent := if e == |u| then Some(0) else ExponentValue(u[e + 1..]);
    exponent.Some? && MantissaOne(u[..e], exponent.value)
  }

  /** An exponent: an optional sign, then at least one digit. */
  function ExponentValue(x: string): Option<int> {
    if x != [] && (x[0] == '+' || x[0] == '-') then
      if |x| > 1 && AllDigits(x[1..]) then
        var magnitude: int := DigitsValue(x[1..]);
        Some(if x[0] == '-' then -magnitude else magnitude)
      else None
    else if x != [] && AllDigits(x) then Some(DigitsValue(x))
    else None
  }

  /** Digits with at most one ".", not all of it empty, whose value times 10 to the power `exponent` is 1. */
  predicate MantissaOne(m: string, exponent: int) {
    var dot := IndexOf(m, '.');
    var whole := m[..dot];
    var fraction := if dot < |m| then m[dot + 1..] else [];
    && AllDigits(whole) && AllDigits(fraction) && |whole| + |fraction| > 0
    && ScaledOne(DigitsValue(whole + fraction), exponent - |fraction|)
  }

  /** `n` times 10 to the power `e` is 1. */
  predicate ScaledOne(n: nat, e: int) {
    if e >= 0 then e == 0 && n == 1 else n == Pow10(-e)
  }

  /** `v.hasOwnProperty(name)`: only objects carry own properties here. */
  predicate HasOwn(v: Value, name: string) {
    v.Obj? && name in v.props
  }

  /** `v[name]`: undefined when the property is absent. */
  function Prop(v: Value, name: string): Value {
    if HasOwn(v, name) then v.props[name] else Undefined
  }

  lemma {:induction false} IndexOfAbsent(s: string, c: char)
    requires forall i | 0 <= i < |s| :: s[i] != c
    ensures IndexOf(s, c) == |s|
  {
    if s != [] {
      IndexOfAbsent(s[1..], c);
    }
  }

  /** A numeral of plain digits whose value is 1 ("1", "01", "001", …) equals `true` loosely. */
  lemma DigitsEqualTrue(s: string)
    requires s != [] && AllDigits(s) && DigitsValue(s) == 1
    ensures LooselyTrue(Str(s))
  {
    assert !IsDigit('e') && !IsDigit('E') && !IsDigit('.') && !IsJsSpace(s[0]) && !IsJsSpace(s[|s| - 1]);
    assert TrimStart(s) == s;
    assert TrimEnd(s) == s;
    IndexOfAbsent(s, 'e');
    IndexOfAbsent(s, 'E');
    IndexOfAbsent(s, '.');
    assert s[..|s|] == s && s + [] == s;
    assert MantissaOne(s, 0);
  }

  /** `"01" == true` holds. */
  lemma LeadingZeroEqualsTrue()
    ensures LooselyTrue(Str("01"))
  {
    assert DigitsValue("01") == 1 by {
      assert "01"[..1] == "0" && "0"[..0] == "";
    }
    DigitsEqualTrue("01");
  }

  /**
   * A thrown value as the error translator reads it: `e["name"]`, `e.message`
   * and `e.statusCode` (undefined where the thrown value lacks them).
   */
  datatype Thrown = Thrown(name: Value, message: Value, statusCode: Value)

  const HTTP_EXCEPTION := "HttpException"

  /** `new HttpException(message, statusCode)`. */
  function HttpException(message: Value, statusCode: int): Thrown {
    Thrown(Str(HTTP_EXCEPTION), message, Num(statusCode))
  }
}
