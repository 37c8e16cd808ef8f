/**
 `Number(value)` (used in packages/archive/src/import-plan.ts to compare revision numbers), for every
 JSON value that has a text (`Json.Textless` says which have none). Finite numbers are exact; the source rounds
 them to double precision.
 */
module Numbers {
  import opened Base
  import opened Text
  import opened Json

  datatype Number = NaN | Infinite(negative: bool) | Finite(value: real)

  function Rank(a: Number): int {
    if a.Infinite? then (if a.negative then -1 else 1) else 0
  }

  /** `a < b`, which is false when one of them is not a number. */
  predicate Below(a: Number, b: Number) {
    && !a.NaN? && !b.NaN?
    && (Rank(a) < Rank(b) || (a.Finite? && b.Finite? && a.value < b.value))
  }

  /** `a >= b`, which is false too when one of them is not a number. */
  predicate AtLeast(a: Number, b: Number) {
    !a.NaN? && !b.NaN? && !Below(a, b)
  }

  // ---------- numerals ----------

  /** Where one of `chars` first occurs, or the length of the text. */
  function First(chars: string, t: string): (i: nat)
    ensures i <= |t| && (i < |t| ==> t[i] in chars) && forall k :: 0 <= k < i ==> t[k] !in chars
  {
    if t == "" || t[0] in chars then 0 else First(chars, t[1..]) + 1
  }

  function TenTo(e: int): real
    decreases if e < 0 then -e else e
  {
    if e == 0 then 1.0 else if e > 0 then TenTo(e - 1) * 10.0 else TenTo(e + 1) / 10.0
  }

  predicate Signed(t: string) {
    t != "" && t[0] in "+-"
  }

  /** The digits behind an exponent's letter, with an optional sign. */
  function Exponent(t: string): Option<int> {
    var digits := if Signed(t) then t[1..] else t;
    var sign := if Signed(t) && t[0] == '-' then -1 else 1;
    match Digits(10, digits)
    case Some(v) => if digits == "" then None else Some(sign * v)
    case None => None
  }

  /** Digits with at most one point among them, scaled by a power of ten. */
  function Scaled(t: string, e: int): Number {
    var point := First(".", t);
    var fraction := if point < |t| then t[point + 1..] else "";
    match Digits(10, t[..point] + fraction)
    case Some(v) => if t[..point] + fraction == "" then NaN else Finite(v as real * TenTo(e - |fraction|))
    case None => NaN
  }

  function Unsigned(t: string): Number {
    if t == "Infinity" then Infinite(false)
    else
      var e := First("eE", t);
      match if e < |t| then Exponent(t[e + 1..]) else Some(0)
      case Some(exponent) => Scaled(t[..e], exponent)
      case None => NaN
  }

  function Negated(a: Number): Number {
    match a
    case NaN => NaN
    case Infinite(negative) => Infinite(!negative)
    case Finite(value) => Finite(-value)
  }

  /** The base that a prefix announces: hexadecimal, octal or binary. */
  function Radix(t: string): Option<nat> {
    if |t| < 2 || t[0] != '0' then None
    else if t[1] in "xX" then Some(16)
    else if t[1] in "oO" then Some(8)
    else if t[1] in "bB" then Some(2)
    else None
  }

  /** `Number` of a string. */
  function TextNumber(s: string): Number {
    var t := Trim(s);
    if t == "" then Finite(0.0)
    else
      match Radix(t)
      case Some(base) =>
        (match Digits(base, t[2..])
         case Some(v) => if |t| == 2 then NaN else Finite(v as real)
         case None => NaN)
      case None =>
        if t[0] == '-' then Negated(Unsigned(t[1..])) else if t[0] == '+' then Unsigned(t[1..]) else Unsigned(t)
  }

  // ---------- values ----------

  /** `String(value)` of an element of an array that has a text. */
  function PlainText(v: Json): string
    decreases v, 1
  {
    match v
    case Null => ""
    case Bool(b) => if b then "true" else "false"
    case Int(n) => Decimal(n)
    case Frac(text) => text
    case Str(s) => s
    case Arr(items) => Joined(items)
    case Obj(_) => "[object Object]"
  }

  function Joined(items: seq<Json>): string
    decreases items, 0
  {
    if items == [] then ""
    else if |items| == 1 then PlainText(items[0])
    else PlainText(items[0]) + "," + Joined(items[1..])
  }

  /** `Number(value)` of a value that has a text; None stands for undefined. */
  function NumberOf(value: Option<Json>): Number {
    match value
    case None => NaN
    case Some(Null) => Finite(0.0)
    case Some(Bool(b)) => Finite(if b then 1.0 else 0.0)
    case Some(Int(n)) => Finite(n as real)
    case Some(Frac(text)) => TextNumber(text)
    case Some(Str(s)) => TextNumber(s)
    case Some(Arr(items)) => TextNumber(Joined(items))
    case Some(Obj(_)) => NaN
  }

  // ---------- integers in text ----------

  lemma {:induction false} LeadingDigit(n: nat)
    ensures DecimalNat(n)[0] == '0' ==> n == 0 && |DecimalNat(n)| == 1
  {
    if n >= 10 {
      LeadingDigit(n / 10);
    }
  }

  lemma UnsignedDecimal(n: nat)
    ensures Unsigned(DecimalNat(n)) == Finite(n as real)
  {
    var t := DecimalNat(n);
    DigitsOfDecimal(n);
    assert IsDigit(t[0]) && t != "Infinity";
    assert First("eE", t) == |t| && First(".", t) == |t|;
    assert t[..|t|] == t && t + "" == t;
    assert TenTo(0) == 1.0;
  }

  lemma DecimalNotTrimmed(n: int)
    ensures Decimal(n) != "" && Trim(Decimal(n)) == Decimal(n)
  {
    var t := Decimal(n);
    assert forall i :: 0 <= i < |t| ==> IsDigit(t[i]) || t[i] == '-';
    assert !IsSpace(t[0]) && !IsSpace(t[|t| - 1]);
  }

  /** A printed integer, as text or alone in an array, counts as that integer. */
  lemma IntegerText(n: int)
    ensures NumberOf(Some(Str(Decimal(n)))) == NumberOf(Some(Int(n))) == NumberOf(Some(Arr([Str(Decimal(n))])))
  {
    hide Unsigned;
    hide Trim;
    var t := Decimal(n);
    DecimalNotTrimmed(n);
    if n < 0 {
      UnsignedDecimal(-n);
      assert t[1..] == DecimalNat(-n);
    } else {
      UnsignedDecimal(n);
      LeadingDigit(n);
    }
    assert Joined([Str(t)]) == t;
  }

  // ---------- decimal fractions ----------

  predicate AllDigits(t: string) { forall i :: 0 <= i < |t| ==> IsDigit(t[i]) }

  /** `n` with `k` zeros behind it. */
  function Shifted(n: nat, k: nat): nat {
    if k == 0 then n else Shifted(n, k - 1) * 10
  }

  /** The digits of two numbers in a row are those of the first, moved to the left, and the second. */
  lemma {:induction false} DigitsConcat(t: string, f: string)
    requires AllDigits(t) && AllDigits(f)
    ensures Digits(10, t).Some? && Digits(10, f).Some?
    ensures Digits(10, t + f) == Some(Shifted(Digits(10, t).value, |f|) + Digits(10, f).value)
  {
    SomeDigits(t);
    if f == "" {
      assert t + f == t;
    } else {
      var n := |f| - 1;
      DigitsConcat(t, f[..n]);
      assert (t + f)[..|t + f| - 1] == t + f[..n] && (t + f)[|t + f| - 1] == f[n];
    }
  }

  lemma {:induction false} SomeDigits(t: string)
    requires AllDigits(t)
    ensures Digits(10, t).Some?
  {
    if t != "" {
      SomeDigits(t[..|t| - 1]);
    }
  }

  lemma ExponentOf(e: int)
    ensures Exponent(Decimal(e)) == Some(e)
  {
    var t := Decimal(e);
    if e < 0 {
      DigitsOfDecimal(-e);
      assert t[1..] == DecimalNat(-e);
    } else {
      DigitsOfDecimal(e);
      assert IsDigit(t[0]);
    }
  }

  /** The number with these digits before and behind the point, and this exponent. */
  function Decimals(n: nat, f: string, e: int): real
    requires Digits(10, f).Some?
  {
    (Shifted(n, |f|) + Digits(10, f).value) as real * TenTo(e - |f|)
  }

  lemma ScaledAt(a: string, f: string, e: int, v: nat)
    requires a != "" && '.' !in a && Digits(10, a + f) == Some(v)
    ensures Scaled(a + "." + f, e) == Finite(v as real * TenTo(e - |f|))
  {
    hide TenTo;
    hide Digits;
    var t := a + "." + f;
    FirstAfter(".", a, "." + f);
    hide First;
    assert t == a + ("." + f);
    assert t[..|a|] == a;
    assert t[|a| + 1..] == f;
  }

  lemma PointText(n: nat, f: string, e: int)
    requires AllDigits(f)
    ensures Digits(10, f).Some? && Scaled(DecimalNat(n) + "." + f, e) == Finite(Decimals(n, f, e))
  {
    hide TenTo;
    hide Scaled;
    hide Digits;
    hide Shifted;
    DigitsOfDecimal(n);
    DigitsConcat(DecimalNat(n), f);
    ScaledAt(DecimalNat(n), f, e, Shifted(n, |f|) + Digits(10, f).value);
  }

  /** Digits, a point, more digits and an exponent mean what they do in decimal notation. */
  lemma DecimalText(n: nat, f: string, e: int)
    requires AllDigits(f)
    ensures Digits(10, f).Some?
    ensures Unsigned(DecimalNat(n) + "." + f + "e" + Decimal(e)) == Finite(Decimals(n, f, e))
  {
    var front := DecimalNat(n) + "." + f;
    var t := front + "e" + Decimal(e);
    assert t == front + ("e" + Decimal(e));
    FirstAfter("eE", front, "e" + Decimal(e));
    assert t[..|front|] == front && t[|front| + 1..] == Decimal(e);
    assert t[0] == DecimalNat(n)[0] && t != "Infinity";
    hide Scaled;
    hide Exponent;
    hide First;
    hide Digits;
    hide Decimals;
    ExponentOf(e);
    PointText(n, f, e);
  }

  lemma {:induction false} FirstAfter(chars: string, t: string, rest: string)
    requires (forall i :: 0 <= i < |t| ==> t[i] !in chars) && rest != "" && rest[0] in chars
    ensures First(chars, t + rest) == |t|
  {
    assert (t + rest)[|t|] == rest[0];
  }
}
