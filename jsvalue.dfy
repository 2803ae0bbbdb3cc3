/**
 * The JavaScript values that `JSON.parse` produces and that the services pass
 * around untyped, with the three coercions the core relies on: truthiness
 * (`a || b`), `String(v)` (template literals and `+=`) and `Number(v)`
 * (`Math.min`/`Math.max`). Numbers are integers here; `NaN` appears only as
 * the result of a numeric coercion.
 */
module JsValue {
  import opened Wrappers
  import opened Text

  datatype Value =
    | Null
    | Bool(b: bool)
    | Number(n: int)
    | NaN
    | Str(s: string)
    | Arr(items: seq<Value>)
    | Obj(fields: map<string, Value>)

  /** JavaScript truthiness: `null`, `false`, `0`, `NaN` and `""` are falsy. */
  predicate Truthy(v: Value) {
    match v
    case Null => false
    case Bool(b) => b
    case Number(n) => n != 0
    case NaN => false
    case Str(s) => s != ""
    case Arr(_) => true
    case Obj(_) => true
  }

  /** `a || d` where `a` may be `undefined` (`None`). */
  function Or(a: Option<Value>, d: Value): (r: Value)
    ensures a.Some? && Truthy(a.value) ==> r == a.value
    ensures (a.None? || !Truthy(a.value)) ==> r == d
  {
    if a.Some? && Truthy(a.value) then a.value else d
  }

  /** `true` exactly when `a` is present and truthy: the test of an `if (a)`. */
  predicate Present(a: Option<Value>) {
    a.Some? && Truthy(a.value)
  }

  /**
   * Property access `v.k`: a `TypeError` on `null`, the own field of an
   * object, and `undefined` on every other value (the keys the core reads
   * are not inherited names).
   */
  function Get(v: Value, k: string): (r: Result<Option<Value>>)
    ensures r.Failure? <==> v.Null?
    ensures v.Obj? ==> r == Success(if k in v.fields then Some(v.fields[k]) else None)
    ensures !v.Null? && !v.Obj? ==> r == Success(None)
  {
    match v
    case Null => Failure("TypeError: Cannot read properties of null (reading '" + k + "')")
    case Obj(fields) => Success(if k in fields then Some(fields[k]) else None)
    case _ => Success(None)
  }

  function ArrayElementText(v: Value): string
    decreases v, 1
  {
    if v.Null? then "" else ToText(v)
  }

  /** `String(v)`: arrays join their elements with `","`, printing `null` elements as empty. */
  function ToText(v: Value): string
    decreases v, 0
  {
    match v
    case Null => "null"
    case Bool(b) => if b then "true" else "false"
    case Number(n) => IntToText(n)
    case NaN => "NaN"
    case Str(s) => s
    case Arr(items) =>
      Join(seq(|items|, i requires 0 <= i < |items| => ArrayElementText(items[i])), ",")
    case Obj(_) => "[object Object]"
  }

  /** Text of an optional value inside a template literal: `undefined` prints as such. */
  function OptText(a: Option<Value>): string {
    if a.Some? then ToText(a.value) else "undefined"
  }

  predicate AllDigits(s: string) {
    forall i :: 0 <= i < |s| ==> IsDigit(s[i])
  }

  /** The value of `c` as a digit of a base up to 36, or 36 when it is none. */
  function DigitOf(c: char): nat {
    if '0' <= c <= '9' then c as int - '0' as int
    else if 'a' <= c <= 'z' then c as int - 'a' as int + 10
    else if 'A' <= c <= 'Z' then c as int - 'A' as int + 10
    else 36
  }

  /** The base that the letter of a `0x`, `0o` or `0b` prefix names, or 0. */
  function PrefixBase(c: char): nat {
    if c == 'x' || c == 'X' then 16
    else if c == 'o' || c == 'O' then 8
    else if c == 'b' || c == 'B' then 2
    else 0
  }

  /** `0x1A`, `0o17`, `0b11`: a prefix, then at least one digit of its base. No sign may precede it. */
  predicate RadixLiteral(t: string) {
    |t| > 2 && t[0] == '0' && PrefixBase(t[1]) > 0 &&
    forall i :: 2 <= i < |t| ==> DigitOf(t[i]) < PrefixBase(t[1])
  }

  /** A prefixed literal is not a run of decimal digits. */
  lemma RadixNotDigits(t: string)
    ensures RadixLiteral(t) ==> !AllDigits(t)
  {
    if RadixLiteral(t) {
      assert !IsDigit(t[1]);
    }
  }

  /** The digits of `s` read in base `base`, most significant first. */
  function RadixValue(s: string, base: nat): nat {
    if s == [] then 0 else RadixValue(s[..|s| - 1], base) * base + DigitOf(s[|s| - 1])
  }

  /**
   * `Number(s)` for a string, `None` standing for `NaN`: surrounding white
   * space is ignored, the empty string is 0, an optionally signed run of
   * decimal digits is its value, and so is an unsigned hexadecimal, octal or
   * binary literal.
   */
  function StrToNumber(s: string): (r: Option<int>)
    ensures Trim(s) == "" ==> r == Some(0)
    ensures AllDigits(Trim(s)) ==> r == Some(DigitsValue(Trim(s)))
    ensures RadixLiteral(Trim(s)) ==> r == Some(RadixValue(Trim(s)[2..], PrefixBase(Trim(s)[1])))
  {
    var t := Trim(s);
    RadixNotDigits(t);
    if t == "" then Some(0)
    else if AllDigits(t) then Some(DigitsValue(t))
    else if RadixLiteral(t) then Some(RadixValue(t[2..], PrefixBase(t[1])))
    else if t[0] == '-' && |t| > 1 && AllDigits(t[1..]) then Some(-DigitsValue(t[1..]))
    else if t[0] == '+' && |t| > 1 && AllDigits(t[1..]) then Some(DigitsValue(t[1..]))
    else None
  }

  /** `Number(v)`, `None` standing for `NaN`. */
  function ToNumber(v: Value): Option<int> {
    match v
    case Null => Some(0)
    case Bool(b) => Some(if b then 1 else 0)
    case Number(n) => Some(n)
    case NaN => None
    case Str(s) => StrToNumber(s)
    case Arr(_) => StrToNumber(ToText(v))
    case Obj(_) => None
  }

  /** The printed form of an integer is read back as that integer. */
  lemma NumberOfText(n: int)
    ensures StrToNumber(IntToText(n)) == Some(n)
  {
    var d := NatToText(if n < 0 then -n else n);
    DigitsOfNat(if n < 0 then -n else n);
    assert AllDigits(d);
    if n < 0 {
      var t := "-" + d;
      assert t[1..] == d;
      assert !IsDigit(t[0]);
      assert Trimmed(t);
      TrimOfTrimmed(t);
    } else {
      assert Trimmed(d);
      TrimOfTrimmed(d);
    }
  }

  /** `Number("0x1A")` is 26. */
  lemma HexExample()
    ensures StrToNumber("0x1A") == Some(26)
  {
    assert Trimmed("0x1A");
    TrimOfTrimmed("0x1A");
    assert "0x1A"[1] == 'x' && !IsDigit("0x1A"[1]);
    assert "0x1A"[2..] == "1A" && "1A"[..1] == "1";
    assert RadixLiteral("0x1A") && PrefixBase('x') == 16;
    assert StrToNumber("0x1A") == Some(RadixValue("1A", 16));
    assert "1"[..0] == "" && RadixValue("1", 16) == 1;
    assert RadixValue("1A", 16) == RadixValue("1", 16) * 16 + DigitOf('A');
  }

  /** `Number("0b11")` is 3. */
  lemma BinaryExample()
    ensures StrToNumber("0b11") == Some(3)
  {
    assert Trimmed("0b11");
    TrimOfTrimmed("0b11");
    var t := "0b11";
    assert t[0] == '0' && t[1] == 'b' && !IsDigit(t[1]) && !AllDigits(t);
    assert t[2..] == "11" && "11"[..1] == "1";
    assert DigitOf(t[2]) == 1 && DigitOf(t[3]) == 1;
    assert RadixLiteral(t) && PrefixBase(t[1]) == 2;
    assert "1"[..0] == "" && RadixValue("1", 2) == 1;
    assert RadixValue("11", 2) == RadixValue("1", 2) * 2 + DigitOf('1');
  }

  /** A sign before a prefixed literal gives `NaN`. */
  lemma SignedHexExample()
    ensures StrToNumber("-0x1A") == None
  {
    var t := "-0x1A";
    assert t[0] == '-' && !IsDigit(t[0]) && !AllDigits(t);
    assert Trimmed(t);
    TrimOfTrimmed(t);
    assert !RadixLiteral(t);
    var u := t[1..];
    assert u[1] == 'x' && !IsDigit(u[1]) && !AllDigits(u);
  }

  /** `Math.max(0, Math.min(100, v))` for the integral numbers of the model. */
  function Clamp(v: Value): (r: Value)
    ensures r.Number? || r.NaN?
    ensures r.NaN? <==> ToNumber(v).None?
    ensures r.Number? ==> 0 <= r.n <= 100
    ensures r.Number? && 0 <= ToNumber(v).value <= 100 ==> r.n == ToNumber(v).value
  {
    match ToNumber(v)
    case None => NaN
    case Some(x) => Number(if x < 0 then 0 else if x > 100 then 100 else x)
  }

  function Field(fields: map<string, Value>, k: string): Option<Value> {
    if k in fields then Some(fields[k]) else None
  }
}
