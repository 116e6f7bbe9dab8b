/**
 * The few pieces of PHP value semantics the module relies on: the boolean
 * cast (truthiness, `empty()`), loose `==` against a boolean, the string
 * conversion of scalars, and `filter_var(..., FILTER_VALIDATE_BOOLEAN)`.
 */
module Php {
  import opened Wrappers

  /** A PHP scalar (arrays and objects do not occur in the modelled values). */
  datatype Value = Null | Bool(b: bool) | Int(i: int) | Str(s: string)

  /** A nullable PHP string (`string|null`) as a value. */
  function OfNullable(s: Option<string>): (v: Value)
    ensures s.None? <==> v == Null
    ensures s.Some? ==> v == Str(s.value)
  {
    match s
    case None => Null
    case Some(x) => Str(x)
  }

  /** PHP's `(bool)` cast; `empty($x)` on a set variable is its negation. */
  predicate Truthy(v: Value) {
    match v
    case Null => false
    case Bool(b) => b
    case Int(i) => i != 0
    case Str(s) => s != "" && s != "0"
  }

  /** Loose comparison `$b == $v` with a boolean operand: PHP casts the other side to bool. */
  predicate LooseEqualsBool(b: bool, v: Value) {
    b == Truthy(v)
  }

  /** The only strings PHP casts to false. */
  lemma FalsyStrings(s: string)
    ensures !Truthy(Str(s)) <==> s == "" || s == "0"
  {
  }

  // ---------------------------------------------------------------------------
  // Decimal conversion of integers (PHP's `(string) $i`)

  function DigitChar(d: int): (c: char)
    requires 0 <= d < 10
    ensures '0' <= c <= '9'
  {
    "0123456789"[d]
  }

  function NatToString(n: nat): (s: string)
    decreases n
  {
    if n < 10 then [DigitChar(n)] else NatToString(n / 10) + [DigitChar(n % 10)]
  }

  function IntToString(i: int): string {
    if i < 0 then "-" + NatToString(-i) else NatToString(i)
  }

  predicate IsDigit(c: char) {
    '0' <= c <= '9'
  }

  lemma {:induction false} NatToStringShape(n: nat)
    ensures |NatToString(n)| >= 1
    ensures forall k :: 0 <= k < |NatToString(n)| ==> IsDigit(NatToString(n)[k])
    ensures n >= 10 ==> |NatToString(n)| >= 2
    decreases n
  {
    if n >= 10 {
      NatToStringShape(n / 10);
    }
  }

  /** The decimal form of an integer is "1" exactly for the integer 1. */
  lemma IntToStringIsOne(i: int)
    ensures IntToString(i) == "1" <==> i == 1
  {
    if i < 0 {
      assert IntToString(i)[0] == '-';
    } else {
      NatToStringShape(i);
      if i < 10 {
        assert IntToString(i) == [DigitChar(i)];
        assert IntToString(i) == "1" ==> "0123456789"[i] == '1';
      }
    }
  }

  lemma IntToStringChars(i: int)
    ensures |IntToString(i)| >= 1
    ensures forall k :: 0 <= k < |IntToString(i)| ==> IsDigit(IntToString(i)[k]) || IntToString(i)[k] == '-'
    ensures IsDigit(IntToString(i)[|IntToString(i)| - 1])
  {
    if i < 0 {
      NatToStringShape(-i);
      assert IntToString(i) == "-" + NatToString(-i);
    } else {
      NatToStringShape(i);
    }
  }

  /** PHP's conversion of a scalar to string, as `filter_var` applies it. */
  function ToPhpString(v: Value): string {
    match v
    case Null => ""
    case Bool(b) => if b then "1" else ""
    case Int(i) => IntToString(i)
    case Str(s) => s
  }

  // ---------------------------------------------------------------------------
  // filter_var($v, FILTER_VALIDATE_BOOLEAN)

  /** The characters the filter extension trims before validating. */
  predicate IsFilterSpace(c: char) {
    c == ' ' || c == '\t' || c == '\r' || c == '\n' || c == '\U{000B}'
  }

  function TrimLeft(s: string): string {
    if s != [] && IsFilterSpace(s[0]) then TrimLeft(s[1..]) else s
  }

  function TrimRight(s: string): string {
    if s != [] && IsFilterSpace(s[|s| - 1]) then TrimRight(s[..|s| - 1]) else s
  }

  function Trim(s: string): string {
    TrimRight(TrimLeft(s))
  }

  function LowerChar(c: char): char {
    if 'A' <= c <= 'Z' then (c as int + 32) as char else c
  }

  /** ASCII case folding, as `strncasecmp` compares. */
  function AsciiLower(s: string): (r: string)
    ensures |r| == |s|
    ensures forall k :: 0 <= k < |s| ==> r[k] == LowerChar(s[k])
  {
    seq(|s|, k requires 0 <= k < |s| => LowerChar(s[k]))
  }

  /** The three answers of the boolean validator before flags are applied. */
  datatype BooleanFilter = FilterTrue | FilterFalse | FilterFails

  function FilterBoolean(s: string): BooleanFilter {
    var t := AsciiLower(Trim(s));
    if t in {"1", "true", "on", "yes"} then FilterTrue
    else if t in {"", "0", "false", "off", "no"} then FilterFalse
    else FilterFails
  }

  /**
   * `filter_var($v, FILTER_VALIDATE_BOOLEAN)` without FILTER_NULL_ON_FAILURE:
   * a value that fails validation also yields false.
   */
  function FilterValidateBoolean(v: Value): (r: bool)
    ensures r <==> AsciiLower(Trim(ToPhpString(v))) in {"1", "true", "on", "yes"}
  {
    FilterBoolean(ToPhpString(v)) == FilterTrue
  }

  lemma TrimKeepsUnspaced(s: string)
    requires s != [] && !IsFilterSpace(s[0]) && !IsFilterSpace(s[|s| - 1])
    ensures Trim(s) == s
  {
  }

  lemma LowerKeepsNonLetters(s: string)
    requires forall k :: 0 <= k < |s| ==> !('A' <= s[k] <= 'Z')
    ensures AsciiLower(s) == s
  {
  }

  /** An integer requirement validates as true exactly when it is 1. */
  lemma FilterInt(i: int)
    ensures FilterValidateBoolean(Int(i)) <==> i == 1
  {
    var s := IntToString(i);
    IntToStringChars(i);
    TrimKeepsUnspaced(s);
    LowerKeepsNonLetters(s);
    IntToStringIsOne(i);
    assert AsciiLower(Trim(s)) == s;
  }

  lemma FilterBool(b: bool)
    ensures FilterValidateBoolean(Bool(b)) == b
  {
    if b {
      assert AsciiLower(Trim("1")) == "1";
    } else {
      assert AsciiLower(Trim("")) == "";
    }
  }

  lemma FilterNull()
    ensures !FilterValidateBoolean(Null)
  {
    assert AsciiLower(Trim("")) == "";
  }

  /** Case and surrounding white space do not matter; "2" and "false" do not validate. */
  lemma FilterExamples()
    ensures FilterValidateBoolean(Str("TRUE"))
    ensures FilterValidateBoolean(Str(" Yes\n"))
    ensures FilterValidateBoolean(Str("on"))
    ensures !FilterValidateBoolean(Str("false"))
    ensures !FilterValidateBoolean(Str("2"))
    ensures !FilterValidateBoolean(Str("0"))
  {
    assert AsciiLower(Trim("TRUE")) == "true";
    assert Trim(" Yes\n") == "Yes";
    assert AsciiLower(Trim(" Yes\n")) == "yes";
    assert AsciiLower(Trim("on")) == "on";
    assert AsciiLower(Trim("false")) == "false";
    assert AsciiLower(Trim("2")) == "2";
    assert AsciiLower(Trim("0")) == "0";
  }

  /** The truthiness of an integer agrees with its boolean validation exactly for 0 and 1. */
  lemma IntCastAgreesWithFilter(i: int)
    ensures (Truthy(Int(i)) == FilterValidateBoolean(Int(i))) <==> (i == 0 || i == 1)
  {
    FilterInt(i);
  }
}
