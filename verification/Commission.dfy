/** Commission on a closed order: one charge per line, their sum, and the rate to record. */
module Commission {
  import opened Base
  import opened Money
  import opened Catalog

  const MAX_RATE_BPS: int := 10_000

  /** The sum of the lines' charges, or the first line's failure. */
  function Charges(lines: seq<Line>): Result<int> {
    if lines == [] then Success(0)
    else
      var before :- Charges(lines[..|lines| - 1]);
      var charge :- ApplyBasisPoints(lines[|lines| - 1].lineAmount, lines[|lines| - 1].bps);
      Success(before + charge)
  }

  /** The unrounded commission, times 10000. */
  function Weighted(lines: seq<Line>): int {
    if lines == [] then 0
    else Weighted(lines[..|lines| - 1]) + lines[|lines| - 1].lineAmount * lines[|lines| - 1].bps
  }

  /** Every line can be charged, the total never exceeds the goods, and it is within half a tiyin a
      line of the exact commission. */
  lemma {:induction false} ChargesBound(lines: seq<Line>)
    requires GoodLines(lines)
    ensures Charges(lines).Success?
    ensures 0 <= Charges(lines).value <= Goods(lines)
    ensures 2 * Abs(10_000 * Charges(lines).value - Weighted(lines)) <= 10_000 * |lines|
  {
    if lines != [] {
      var last := lines[|lines| - 1];
      assert last in lines;
      ChargesBound(lines[..|lines| - 1]);
      BasisPointsBound(last.lineAmount, last.bps);
    }
  }

  lemma {:induction false} WeightedBetween(lines: seq<Line>, lo: int, hi: int)
    requires GoodLines(lines)
    requires forall line | line in lines :: lo <= line.bps <= hi
    ensures lo * Goods(lines) <= Weighted(lines) <= hi * Goods(lines)
  {
    if lines != [] {
      var last := lines[|lines| - 1];
      assert last in lines;
      WeightedBetween(lines[..|lines| - 1], lo, hi);
      WeighOne(lo, last.bps, Goods(lines[..|lines| - 1]), last.lineAmount);
      WeighOne(last.bps, hi, Goods(lines[..|lines| - 1]), last.lineAmount);
    }
  }

  lemma WeighOne(a: int, b: int, before: int, amount: int)
    requires a <= b && amount >= 0
    ensures a * amount <= b * amount == amount * b && amount * a == a * amount
    ensures a * (before + amount) == a * before + a * amount
    ensures b * (before + amount) == b * before + b * amount
  {
    assert (b - a) * amount >= 0;
  }

  /** Two's-complement int64 arithmetic. */
  function Wrap64(x: int): (r: int)
    ensures FitsInt64(r)
    ensures FitsInt64(x) ==> r == x
  {
    (x - MIN_INT64) % 0x1_0000_0000_0000_0000 + MIN_INT64
  }

  /** effectiveRateBps: the blended rate, rounded half-up in int64 arithmetic and clamped. */
  function EffectiveRateBps(base: int, accrued: int): int {
    if base <= 0 || accrued <= 0 then 0
    else
      var rate := Quo(Wrap64(accrued * MAX_RATE_BPS + base / 2), base);
      if rate >= MAX_RATE_BPS then MAX_RATE_BPS else rate
  }

  /** The range in which the int64 computation does not wrap. */
  predicate RateComputable(base: int, accrued: int) {
    accrued * MAX_RATE_BPS + base / 2 <= MAX_INT64
  }

  /** The recorded rate reproduces the accrual to within half a basis point of the base. */
  predicate Reproduces(rate: int, base: int, accrued: int) {
    2 * Abs(rate * base - MAX_RATE_BPS * accrued) <= base
  }

  /** For an accrual no larger than its base, the recorded rate is within half a basis point and in
      0..10000 exactly when accrued * 10000 stays inside int64. */
  lemma EffectiveRateIsExactIff(base: int, accrued: int)
    requires 0 <= accrued <= base && FitsInt64(base)
    ensures Reproduces(EffectiveRateBps(base, accrued), base, accrued) <==> accrued == 0 || RateComputable(base, accrued)
    ensures accrued == 0 || RateComputable(base, accrued) ==> 0 <= EffectiveRateBps(base, accrued) <= MAX_RATE_BPS
  {
    if 0 < accrued {
      var x := accrued * MAX_RATE_BPS + base / 2;
      var w := Wrap64(x);
      WrapDrops(x);
      RateRange(w, base);
    }
  }

  /** For any amounts the recorded rate is at most 100%, exactly that for an accrual of its base or more, and
      nothing when there is nothing to charge. */
  lemma EffectiveRateIsClamped(base: int, accrued: int)
    ensures EffectiveRateBps(base, accrued) <= 10_000
    ensures base <= 0 || accrued <= 0 ==> EffectiveRateBps(base, accrued) == 0
    ensures 0 < base <= accrued && RateComputable(base, accrued) ==> EffectiveRateBps(base, accrued) == 10_000
  {
    if 0 < base <= accrued && RateComputable(base, accrued) {
      var w := Wrap64(accrued * MAX_RATE_BPS + base / 2);
      WrapDrops(accrued * MAX_RATE_BPS + base / 2);
      var rate := Quo(w, base);
      if rate < MAX_RATE_BPS { WeighOne(rate, MAX_RATE_BPS - 1, 0, base); }
    }
  }

  lemma RateRange(w: int, base: int)
    requires base > 0 && w < (MAX_RATE_BPS + 1) * base
    ensures Quo(w, base) <= MAX_RATE_BPS
    ensures w >= 0 ==> Quo(w, base) >= 0
    ensures Quo(w, base) == MAX_RATE_BPS ==> Quo(w, base) * base == MAX_RATE_BPS * base
  {
    var rate := Quo(w, base);
    if rate > MAX_RATE_BPS { WeighOne(MAX_RATE_BPS + 1, rate, 0, base); }
    if w >= 0 && rate < 0 { WeighOne(rate, -1, 0, base); }
  }

  lemma WrapDrops(x: int)
    requires x >= 0
    ensures x > MAX_INT64 ==> Wrap64(x) <= x - 0x1_0000_0000_0000_0000
    ensures x <= MAX_INT64 ==> Wrap64(x) == x
  {
  }

  /** rateForLines: the common rate when every line carries the same one, else the blended rate. */
  function RateForLines(lines: seq<Line>, base: int, accrued: int): int {
    if lines != [] && (forall line | line in lines :: line.bps == lines[0].bps) then lines[0].bps
    else EffectiveRateBps(base, accrued)
  }

  /** The rate recorded for an order's lines is a percentage, and it lies between the smallest and
      the largest line rate, up to half a basis point and the lines' rounding. */
  lemma RecordedRateBetweenLineRates(lines: seq<Line>, lo: int, hi: int)
    requires GoodLines(lines) && lines != []
    requires forall line | line in lines :: lo <= line.bps <= hi
    requires Charges(lines).Success? && FitsInt64(Goods(lines))
    requires RateComputable(Goods(lines), Charges(lines).value)
    ensures var base, rate := Goods(lines), RateForLines(lines, Goods(lines), Charges(lines).value);
            && 0 <= rate <= MAX_RATE_BPS
            && 2 * (lo * base) - base - 10_000 * |lines| <= 2 * (rate * base) <= 2 * (hi * base) + base + 10_000 * |lines|
  {
    var base, accrued := Goods(lines), Charges(lines).value;
    assert lines[0] in lines;
    ChargesBound(lines);
    GoodsBound(lines);
    if forall line | line in lines :: line.bps == lines[0].bps {
      WeighOne(lo, lines[0].bps, 0, base);
      WeighOne(lines[0].bps, hi, 0, base);
    } else {
      WeightedBetween(lines, lo, hi);
      EffectiveRateIsExactIff(base, accrued);
      BlendBetween(EffectiveRateBps(base, accrued), base, accrued, Weighted(lines), |lines|, lo * base, hi * base);
    }
  }

  lemma BlendBetween(rate: int, base: int, accrued: int, weighted: int, n: nat, low: int, high: int)
    requires base > 0 && Reproduces(rate, base, accrued)
    requires 2 * Abs(MAX_RATE_BPS * accrued - weighted) <= 10_000 * n
    requires low <= weighted <= high
    ensures 2 * low - base - 10_000 * n <= 2 * (rate * base) <= 2 * high + base + 10_000 * n
  {
  }

  /** accrueCommission's loop over the order's lines. */
  method SumCharges(lines: seq<Line>) returns (accrued: Result<int>)
    ensures accrued == Charges(lines)
  {
    var sum := 0;
    for i := 0 to |lines|
      invariant Charges(lines[..i]) == Success(sum)
    {
      var charge := ApplyBasisPoints(lines[i].lineAmount, lines[i].bps);
      assert lines[..i + 1][..i] == lines[..i];
      if charge.Failure? {
        ChargesFail(lines, i + 1);
        return charge;
      }
      sum := sum + charge.value;
    }
    assert lines[..|lines|] == lines;
    return Success(sum);
  }

  lemma {:induction false} ChargesFail(lines: seq<Line>, n: nat)
    requires n <= |lines| && Charges(lines[..n]).Failure?
    ensures Charges(lines) == Charges(lines[..n])
    decreases |lines|
  {
    if n == |lines| {
      assert lines[..n] == lines;
    } else {
      assert lines[..|lines| - 1][..n] == lines[..n];
      ChargesFail(lines[..|lines| - 1], n);
    }
  }

  /** rateForLines' scan, which stops at the first line whose rate differs. */
  method RateOf(lines: seq<Line>, base: int, accrued: int) returns (rate: int)
    ensures rate == RateForLines(lines, base, accrued)
  {
    if lines != [] {
      var uniform, same := lines[0].bps, true;
      var i := 1;
      while i < |lines|
        invariant 1 <= i <= |lines|
        invariant same && forall k :: 0 <= k < i ==> lines[k].bps == uniform
      {
        if lines[i].bps != uniform {
          same := false;
          break;
        }
        i := i + 1;
      }
      if same { return uniform; }
    }
    return EffectiveRateBps(base, accrued);
  }
}
