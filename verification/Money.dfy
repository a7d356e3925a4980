/** Exact arithmetic on integer tiyin amounts. */
module Money {
  import opened Base

  const MAX_INT64: int := 0x7FFF_FFFF_FFFF_FFFF
  const MIN_INT64: int := -0x8000_0000_0000_0000

  predicate FitsInt64(x: int) { MIN_INT64 <= x <= MAX_INT64 }

  /** `scaled` is the multiple of den nearest to num, a tie going away from zero. */
  predicate NearestMultiple(scaled: int, num: int, den: int) {
    && 2 * Abs(scaled - num) <= den
    && (2 * Abs(scaled - num) == den ==> Abs(scaled) > Abs(num))
  }

  /** The meaning of "rounded half-up": r is the integer nearest to num/den, ties away from zero. */
  predicate IsNearest(r: int, num: int, den: int) {
    NearestMultiple(r * den, num, den)
  }

  /** Division truncated toward zero, as big.Int.QuoRem does it. */
  function Quo(num: int, den: int): (q: int)
    requires den > 0
    ensures num >= 0 ==> 0 <= num - q * den < den
    ensures num <= 0 ==> 0 <= q * den - num < den
  {
    if num >= 0 then num / den else -((-num) / den)
  }

  /** The rounded quotient. */
  function Nearest(num: int, den: int): (r: int)
    requires den > 0
    ensures IsNearest(r, num, den)
  {
    var q := Quo(num, den);
    assert (q - 1) * den == q * den - den && (q + 1) * den == q * den + den;
    if 2 * Abs(num - q * den) < den then q else if num < 0 then q - 1 else q + 1
  }

  lemma MultiplesApart(x: int, y: int, num: int, den: int)
    requires den > 0 && x + den <= y && (x >= 0 || y <= 0 || x + den < y)
    requires NearestMultiple(x, num, den)
    ensures !NearestMultiple(y, num, den)
  {
  }

  /** Two integers nearest to the same fraction under the same tie rule are equal. */
  lemma NearestIsUnique(r: int, s: int, num: int, den: int)
    requires den > 0 && IsNearest(r, num, den) && IsNearest(s, num, den)
    ensures r == s
  {
    if r > s {
      StepApart(s, r, den);
      MultiplesApart(s * den, r * den, num, den);
    } else if s > r {
      StepApart(r, s, den);
      MultiplesApart(r * den, s * den, num, den);
    }
  }

  lemma StepApart(r: int, s: int, den: int)
    requires den > 0 && r < s
    ensures r * den + den <= s * den
    ensures r * den >= 0 || s * den <= 0 || r * den + den < s * den
  {
    Grows(r + 1, s, den);
    if r < 0 < s { Grows(r + 2, s, den); }
    if r >= 0 { Grows(0, r, den); }
    if s <= 0 { Grows(s, 0, den); }
    assert (r + 1) * den == r * den + den && (r + 2) * den == r * den + den + den;
  }

  lemma Grows(a: int, b: int, den: int)
    requires a <= b && den >= 0
    ensures a * den <= b * den
  {
    assert (b - a) * den >= 0;
  }

  /** roundHalfUp: the quotient is adjusted in place, then checked against the int64 range. */
  method RoundHalfUp(num: int, den: int) returns (r: Result<int>)
    requires den > 0
    ensures r == if FitsInt64(Nearest(num, den)) then Success(Nearest(num, den)) else Failure(Internal)
  {
    var quotient := Quo(num, den);
    var remainder := num - quotient * den;
    if 2 * Abs(remainder) >= den {
      if num < 0 {
        quotient := quotient - 1;
      } else {
        quotient := quotient + 1;
      }
    }
    if !FitsInt64(quotient) {
      return Failure(Internal);
    }
    return Success(quotient);
  }

  /** amount * bps / 10000, rounded half-up. */
  function ApplyBasisPoints(amount: int, bps: int): Result<int> {
    if bps < 0 then Failure(Internal)
    else
      var charge := Nearest(amount * bps, 10_000);
      if FitsInt64(charge) then Success(charge) else Failure(Internal)
  }

  /** A rate of at most 100% charges an amount by no more than itself, within half a tiyin. */
  lemma BasisPointsBound(amount: int, bps: int)
    requires 0 <= amount <= MAX_INT64 && 0 <= bps <= 10_000
    ensures ApplyBasisPoints(amount, bps).Success?
    ensures 0 <= ApplyBasisPoints(amount, bps).value <= amount
    ensures 2 * Abs(10_000 * ApplyBasisPoints(amount, bps).value - amount * bps) <= 10_000
  {
    assert 0 <= amount * bps <= amount * 10_000;
  }

  /** NUMERIC quantity times a unit price, in tiyin, rounded half-up. Quantities are exact
      decimals, so the product is taken over the reals. */
  function Multiply(quantity: real, unitPrice: int): Result<int> {
    if quantity < 0.0 then Failure(Internal)
    else
      var product := quantity * unitPrice as real;
      var rounded := if product < 0.0 then -((0.5 - product).Floor) else (product + 0.5).Floor;
      if FitsInt64(rounded) then Success(rounded) else Failure(Internal)
  }

  /** r is the whole number nearest to an exact amount, a half going away from zero. */
  predicate RoundsTo(exact: real, r: int) {
    if exact >= 0.0 then r as real - 0.5 <= exact < r as real + 0.5 else r as real - 0.5 < exact <= r as real + 0.5
  }

  /** A quantity times a price is the exact product rounded half-up, and fails for nothing but a negative
      quantity or a result outside 64 bits. */
  lemma MultiplyRounds(quantity: real, unitPrice: int, r: int)
    ensures Multiply(quantity, unitPrice) == Success(r) <==>
              quantity >= 0.0 && FitsInt64(r) && RoundsTo(quantity * unitPrice as real, r)
    ensures Multiply(quantity, unitPrice).Failure? <==>
              quantity < 0.0 || forall s :: RoundsTo(quantity * unitPrice as real, s) ==> !FitsInt64(s)
  {
    var exact := quantity * unitPrice as real;
    var rounded := if exact < 0.0 then -((0.5 - exact).Floor) else (exact + 0.5).Floor;
    assert RoundsTo(exact, rounded);
    forall s | RoundsTo(exact, s) ensures s == rounded { RoundsToOne(exact, s, rounded); }
  }

  lemma RoundsToOne(exact: real, r: int, s: int)
    requires RoundsTo(exact, r) && RoundsTo(exact, s)
    ensures r == s
  {
  }

  /** At a price above zero it fails only from half a tiyin above the 64-bit range on, and it is a positive
      amount from half a tiyin on. */
  lemma MultiplyFits(quantity: real, unitPrice: int)
    requires unitPrice > 0
    ensures Multiply(quantity, unitPrice).Success? <==> 0.0 <= quantity * unitPrice as real < MAX_INT64 as real + 0.5
    ensures Multiply(quantity, unitPrice).Success? ==>
              (Multiply(quantity, unitPrice).value > 0 <==> quantity * unitPrice as real >= 0.5)
    ensures quantity > 0.0 ==> quantity * unitPrice as real > 0.0
  {
    if quantity < 0.0 { assert quantity * unitPrice as real < 0.0; }
  }

  predicate Digit(c: char) { '0' <= c <= '9' }

  /** A plain decimal: digits with at most one interior dot. */
  predicate PlainDecimal(s: string) {
    && s != ""
    && (forall i :: 0 <= i < |s| ==> Digit(s[i]) || s[i] == '.')
    && (forall i :: 0 <= i < |s| && s[i] == '.' ==> 0 < i < |s| - 1)
    && (forall i, j :: 0 <= i < j < |s| && s[i] == '.' ==> s[j] != '.')
  }

  /** The digits read as one number, the dot skipped. */
  function Digits(s: string): nat {
    if s == "" then 0
    else
      var c := s[|s| - 1];
      if Digit(c) then 10 * Digits(s[..|s| - 1]) + (c as int - '0' as int) else Digits(s[..|s| - 1])
  }

  /** A digit string denotes a positive number exactly when it has a non-zero digit. */
  lemma {:induction false} DigitsPositive(s: string)
    ensures Digits(s) > 0 <==> exists i :: 0 <= i < |s| && Digit(s[i]) && s[i] != '0'
  {
    if s != "" {
      var rest := s[..|s| - 1];
      DigitsPositive(rest);
      if i :| 0 <= i < |rest| && Digit(rest[i]) && rest[i] != '0' {
        assert s[i] == rest[i];
      }
      if j :| 0 <= j < |s| && Digit(s[j]) && s[j] != '0' {
        assert j < |rest| ==> rest[j] == s[j];
      }
    }
  }

  /** IsPositiveDecimal: true exactly for a plain decimal whose value is above zero. */
  method IsPositiveDecimal(s: string) returns (ok: bool)
    ensures ok <==> PlainDecimal(s) && Digits(s) > 0
  {
    if s == "" { return false; }
    DigitsPositive(s);
    var seenDot, nonZero := false, false;
    for i := 0 to |s|
      invariant forall k :: 0 <= k < i ==> Digit(s[k]) || s[k] == '.'
      invariant forall k :: 0 <= k < i && s[k] == '.' ==> 0 < k < |s| - 1
      invariant forall j, k :: 0 <= j < k < i && s[j] == '.' ==> s[k] != '.'
      invariant seenDot <==> exists k :: 0 <= k < i && s[k] == '.'
      invariant nonZero <==> exists k :: 0 <= k < i && Digit(s[k]) && s[k] != '0'
    {
      if Digit(s[i]) {
        nonZero := nonZero || s[i] != '0';
      } else if s[i] == '.' {
        if seenDot || i == 0 || i == |s| - 1 { return false; }
        seenDot := true;
      } else {
        return false;
      }
    }
    return nonZero;
  }

  /** IsNonNegativeDecimal: true exactly for a plain decimal. */
  method IsNonNegativeDecimal(s: string) returns (ok: bool)
    ensures ok <==> PlainDecimal(s)
  {
    if s == "" { return false; }
    var seenDot := false;
    for i := 0 to |s|
      invariant forall k :: 0 <= k < i ==> Digit(s[k]) || s[k] == '.'
      invariant forall k :: 0 <= k < i && s[k] == '.' ==> 0 < k < |s| - 1
      invariant forall j, k :: 0 <= j < k < i && s[j] == '.' ==> s[k] != '.'
      invariant seenDot <==> exists k :: 0 <= k < i && s[k] == '.'
    {
      if s[i] == '.' {
        if seenDot || i == 0 || i == |s| - 1 { return false; }
        seenDot := true;
      } else if !Digit(s[i]) {
        return false;
      }
    }
    return true;
  }
}
