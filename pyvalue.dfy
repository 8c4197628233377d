/**
  Python's dynamic values as the zoning engine receives them from JSON files
  and from the rule store, together with the handful of built-ins the engine
  applies to them: truthiness, `dict.get`, `a or b or c`, `str()`,
  `str.strip()`, `str.lower()` and `float()`.
*/
module PyValue {
  import opened Wrappers

  /** A decoded JSON / database value. Python ints and floats are kept apart
      because `str()` renders them differently. */
  datatype Value =
    | VNone
    | VBool(b: bool)
    | VInt(i: int)
    | VFloat(r: real)
    | VStr(s: string)
    | VList(items: seq<Value>)
    | VDict(entries: Dict)

  /** A Python dict with string keys (insertion order is not kept). */
  type Dict = map<string, Value>

  /** Python's truth value of `v` (`bool(v)`). */
  predicate Truthy(v: Value) {
    match v
    case VNone => false
    case VBool(b) => b
    case VInt(i) => i != 0
    case VFloat(r) => r != 0.0
    case VStr(s) => s != ""
    case VList(items) => items != []
    case VDict(entries) => |entries| != 0
  }

  /** `d.get(k)`: the stored value, or None when `k` is absent. */
  function Get(d: Dict, k: string): Value {
    if k in d then d[k] else VNone
  }

  /** `vs[0] or vs[1] or ... or vs[n-1]` (see OrChainSpec). */
  function OrChain(vs: seq<Value>): Value
    requires |vs| > 0
  {
    if |vs| == 1 || Truthy(vs[0]) then vs[0] else OrChain(vs[1..])
  }

  /** The chain answers its first truthy operand, or its last operand when
      none is truthy. */
  lemma {:induction false} OrChainSpec(vs: seq<Value>)
    requires |vs| > 0
    ensures forall i :: 0 <= i < |vs| && Truthy(vs[i]) && (forall j :: 0 <= j < i ==> !Truthy(vs[j]))
                        ==> OrChain(vs) == vs[i]
    ensures (forall i :: 0 <= i < |vs| ==> !Truthy(vs[i])) ==> OrChain(vs) == vs[|vs| - 1]
  {
    if |vs| > 1 && !Truthy(vs[0]) {
      OrChainSpec(vs[1..]);
      assert forall i :: 1 <= i < |vs| ==> vs[i] == vs[1..][i - 1];
    }
  }

  // ---------------------------------------------------------------------
  // Characters and strings
  // ---------------------------------------------------------------------

  /** Python's `str.isspace()` for one character. */
  predicate IsSpace(c: char) {
    var n := c as int;
    (9 <= n <= 13) || (28 <= n <= 32) || n == 0x85 || n == 0xA0 || n == 0x1680
    || (0x2000 <= n <= 0x200A) || n == 0x2028 || n == 0x2029 || n == 0x202F
    || n == 0x205F || n == 0x3000
  }

  /** `s.lstrip()` (see TrimLeftSpec). */
  function TrimLeft(s: string): string {
    if s != [] && IsSpace(s[0]) then TrimLeft(s[1..]) else s
  }

  /** `s.rstrip()` (see TrimRightSpec). */
  function TrimRight(s: string): string {
    if s != [] && IsSpace(s[|s| - 1]) then TrimRight(s[..|s| - 1]) else s
  }

  /** `s.strip()`. */
  function Strip(s: string): string {
    TrimRight(TrimLeft(s))
  }

  /** `lstrip` keeps a suffix of the text that does not start with
      whitespace, and cuts off only whitespace. */
  lemma {:induction false} TrimLeftSpec(s: string)
    ensures var r := TrimLeft(s);
      |r| <= |s| && r == s[|s| - |r|..] && (r == [] || !IsSpace(r[0]))
      && forall i :: 0 <= i < |s| - |r| ==> IsSpace(s[i])
  {
    if s != [] && IsSpace(s[0]) {
      TrimLeftSpec(s[1..]);
      var r := TrimLeft(s);
      assert forall i :: 1 <= i < |s| - |r| ==> s[i] == s[1..][i - 1];
    }
  }

  /** `rstrip` keeps a prefix of the text that does not end with
      whitespace, and cuts off only whitespace. */
  lemma {:induction false} TrimRightSpec(s: string)
    ensures var r := TrimRight(s);
      |r| <= |s| && r == s[..|r|] && (r == [] || !IsSpace(r[|r| - 1]))
      && forall i :: |r| <= i < |s| ==> IsSpace(s[i])
  {
    if s != [] && IsSpace(s[|s| - 1]) {
      var s' := s[..|s| - 1];
      TrimRightSpec(s');
      var r := TrimRight(s);
      assert r == s'[..|r|];
      assert forall i :: |r| <= i < |s| - 1 ==> s[i] == s'[i];
    }
  }

  /** A stripped text neither starts nor ends with whitespace. */
  lemma StripTrimmed(s: string)
    ensures var r := Strip(s); r == [] || (!IsSpace(r[0]) && !IsSpace(r[|r| - 1]))
  {
    var l := TrimLeft(s);
    var r := TrimRight(l);
    TrimLeftSpec(s);
    TrimRightSpec(l);
    if r != [] {
      assert r[0] == l[0];
    }
  }

  /** A single space strips to the empty text. */
  lemma SpaceStripsToEmpty()
    ensures Strip(" ") == ""
  {
    assert IsSpace(' ');
    assert TrimLeft(" ") == TrimLeft(" "[1..]);
  }

  /** Stripping twice is stripping once. */
  lemma StripIdempotent(s: string)
    ensures Strip(Strip(s)) == Strip(s)
  {
    var r := Strip(s);
    StripTrimmed(s);
    TrimLeftSpec(s);
    TrimRightSpec(TrimLeft(s));
    assert TrimLeft(r) == r;
    assert TrimRight(r) == r;
  }

  /** Python's `str.lower()` on ASCII and Latin-1 capitals. */
  function LowerChar(c: char): char {
    var n := c as int;
    if ('A' as int <= n <= 'Z' as int) || (0xC0 <= n <= 0xDE && n != 0xD7) then (n + 32) as char else c
  }

  /** `s.lower()`. */
  function Lower(s: string): string {
    if s == [] then [] else [LowerChar(s[0])] + Lower(s[1..])
  }

  // ---------------------------------------------------------------------
  // Decimal digits
  // ---------------------------------------------------------------------

  predicate IsDigit(c: char) {
    '0' <= c <= '9'
  }

  predicate AllDigits(s: string) {
    forall i :: 0 <= i < |s| ==> IsDigit(s[i])
  }

  function Pow10(n: nat): (p: nat)
    ensures p >= 1
  {
    if n == 0 then 1 else 10 * Pow10(n - 1)
  }

  /** The number written by a run of decimal digits (0 for the empty run). */
  function DigitsValue(ds: string): nat
    requires AllDigits(ds)
  {
    if ds == [] then 0
    else DigitsValue(ds[..|ds| - 1]) * 10 + (ds[|ds| - 1] as int - '0' as int)
  }

  /** The decimal digits of `n`, without leading zeros. */
  function NatDigits(n: nat): string
  {
    if n < 10 then ['0' + n as char]
    else NatDigits(n / 10) + ['0' + (n % 10) as char]
  }

  /** Python's `str(i)` for an int. */
  function IntToString(i: int): string {
    if i < 0 then "-" + NatDigits(-i) else NatDigits(i)
  }

  // ---------------------------------------------------------------------
  // str() of a value
  // ---------------------------------------------------------------------

  function PadZeros(s: string, width: nat): string
    decreases width - |s|
  {
    if |s| >= width then s else PadZeros("0" + s, width)
  }

  function DropTrailingZeros(s: string): string {
    if s != [] && s[|s| - 1] == '0' then DropTrailingZeros(s[..|s| - 1]) else s
  }

  /** `repr(r)` for a float in positional notation: integral part, a point
      and the fractional digits (17 of them at most, trailing zeros dropped). */
  function FloatRepr(r: real): string {
    if r < 0.0 then "-" + UnsignedFloatRepr(-r) else UnsignedFloatRepr(r)
  }

  /** 10^17: the fractional digits `repr` writes at most. */
  const FracScale: real := 100_000_000_000_000_000.0

  function UnsignedFloatRepr(r: real): string
    requires r >= 0.0
  {
    var whole := r.Floor;
    var frac := ((r - whole as real) * FracScale).Floor;
    var fracDigits := DropTrailingZeros(PadZeros(NatDigits(frac), 17));
    NatDigits(whole) + "." + (if fracDigits == "" then "0" else fracDigits)
  }

  /** Python's `str(v)`. Lists and dicts are rendered by a placeholder. */
  function Str(v: Value): string {
    match v
    case VNone => "None"
    case VBool(b) => if b then "True" else "False"
    case VInt(i) => IntToString(i)
    case VFloat(r) => FloatRepr(r)
    case VStr(s) => s
    case VList(_) => "[...]"
    case VDict(_) => "{...}"
  }

  // ---------------------------------------------------------------------
  // float()
  // ---------------------------------------------------------------------

  function IndexOf(s: string, c: char): (k: nat)
    requires c in s
    ensures k < |s| && s[k] == c && c !in s[..k]
  {
    if s[0] == c then 0 else 1 + IndexOf(s[1..], c)
  }

  /** The value of `n` written after the point in `width` digits. */
  function FracValue(n: nat, width: nat): (x: real)
    ensures x >= 0.0
  {
    var d := Pow10(width) as real;
    assert d >= 1.0;
    n as real / d
  }

  /** An unsigned decimal literal: `digits`, `digits.`, `digits.digits` or `.digits`. */
  function ParseUnsigned(t: string): (r: Option<real>)
    ensures r.Some? ==> r.value >= 0.0
  {
    if t != [] && AllDigits(t) then Some(DigitsValue(t) as real)
    else if '.' in t then
      var p := IndexOf(t, '.');
      var whole, frac := t[..p], t[p + 1..];
      if AllDigits(whole) && AllDigits(frac) && |whole| + |frac| > 0
      then Some(DigitsValue(whole) as real + FracValue(DigitsValue(frac), |frac|))
      else None
    else None
  }

  /** A decimal literal with an optional sign, as `float()` reads it once
      surrounding whitespace is stripped. */
  function ParseDecimal(t: string): Option<real> {
    if t != [] && (t[0] == '+' || t[0] == '-') then
      match ParseUnsigned(t[1..])
      case None => None
      case Some(x) => Some(if t[0] == '-' then -x else x)
    else ParseUnsigned(t)
  }

  /** Python's `float(v)`; None stands for the TypeError or ValueError it raises. */
  function ToFloat(v: Value): (r: Option<real>)
    ensures v.VInt? ==> r == Some(v.i as real)
    ensures v.VFloat? ==> r == Some(v.r)
    ensures v.VNone? || v.VList? || v.VDict? ==> r.None?
  {
    match v
    case VNone => None
    case VBool(b) => Some(if b then 1.0 else 0.0)
    case VInt(i) => Some(i as real)
    case VFloat(r) => Some(r)
    case VStr(s) => ParseDecimal(Strip(s))
    case VList(_) => None
    case VDict(_) => None
  }

  /** A text that is blank after stripping is not a number. */
  lemma BlankIsNotANumber(s: string)
    requires Strip(s) == ""
    ensures ToFloat(VStr(s)).None?
  {
  }
}
