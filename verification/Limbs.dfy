/**
 Big integers as sequences of 32-bit limbs, most significant first.
 The operations of `sp_arithmetic::biguint` are library code: each is given
 here by the value and the number of limbs its documentation promises, and
 that is assumed of the real one.
 */
module Limbs {
  import opened Division
  import opened Options

  const BASE: nat := 0x1_0000_0000

  type Limb = n: nat | n < BASE

  type BigUint = seq<Limb>

  function Power(n: nat): (r: nat)
    ensures 0 < r
  {
    if n == 0 then 1 else BASE * Power(n - 1)
  }

  function Value(a: BigUint): nat {
    if a == [] then 0 else Value(a[..|a| - 1]) * BASE + a[|a| - 1]
  }

  lemma {:induction false} PowerAdd(m: nat, n: nat)
    ensures Power(m + n) == Power(m) * Power(n)
  {
    if m > 0 {
      PowerAdd(m - 1, n);
      TimesAssoc(BASE, Power(m - 1), Power(n));
    }
  }

  lemma PowerMono(m: nat, n: nat)
    requires m <= n
    ensures Power(m) <= Power(n)
  {
    PowerAdd(m, n - m);
    TimesMono(Power(m), 1, Power(n - m));
  }

  lemma {:induction false} ValueBelow(a: BigUint)
    ensures Value(a) < Power(|a|)
  {
    if a != [] {
      ValueBelow(a[..|a| - 1]);
    }
  }

  /** A number without a leading zero limb needs all its limbs. */
  lemma {:induction false} ValueAtLeast(a: BigUint)
    requires a != [] && a[0] != 0
    ensures Power(|a| - 1) <= Value(a)
  {
    if |a| > 1 {
      ValueAtLeast(a[..|a| - 1]);
    }
  }

  function Encode(n: nat, len: nat): (r: BigUint)
    requires n < Power(len)
    ensures |r| == len && Value(r) == n
  {
    if len == 0 then []
    else
      assert n / BASE < Power(len - 1) by { Below(n, BASE, Power(len - 1)); }
      Encode(n / BASE, len - 1) + [n % BASE]
  }

  /** Strips zeros from the left, leaving one limb at least. */
  function Lstrip(a: BigUint): (r: BigUint)
    ensures |r| <= |a|
    ensures |r| > 1 ==> r[0] != 0
    ensures |a| > 0 ==> |r| > 0
  {
    if |a| > 1 && a[0] == 0 then Lstrip(a[1..]) else a
  }

  lemma {:induction false} ValueDropZero(a: BigUint)
    requires a != [] && a[0] == 0
    ensures Value(a[1..]) == Value(a)
  {
    if |a| > 1 {
      ValueDropZero(a[..|a| - 1]);
      assert a[1..][..|a| - 2] == a[..|a| - 1][1..];
    }
  }

  lemma {:induction false} LstripValue(a: BigUint)
    ensures Value(Lstrip(a)) == Value(a)
  {
    if |a| > 1 && a[0] == 0 {
      ValueDropZero(a);
      LstripValue(a[1..]);
    }
  }

  lemma ProductFits(a: BigUint, b: BigUint)
    ensures Value(a) * Value(b) < Power(|a| + |b|)
  {
    ValueBelow(a);
    ValueBelow(b);
    PowerAdd(|a|, |b|);
    ProductBelow(Value(a), Value(b), Power(|a|), Power(|b|));
  }

  lemma UnitQuotientFits(a: BigUint, u: nat)
    requires 0 < u
    ensures Value(a) / u < Power(|a|)
  {
    var p := Power(|a|);
    ValueBelow(a);
    TimesMono(p, 1, u);
    Below(Value(a), u, p);
  }

  /** Assumed: an `|a| + |b|` limb product, not stripped. */
  function Mul(a: BigUint, b: BigUint): (r: BigUint)
    ensures |r| == |a| + |b| && Value(r) == Value(a) * Value(b)
  {
    ProductFits(a, b);
    Encode(Value(a) * Value(b), |a| + |b|)
  }

  /** Assumed: division by one limb, keeping the number of limbs. */
  function DivUnit(a: BigUint, u: nat): (r: BigUint)
    requires 0 < u
    ensures |r| == |a| && Value(r) == Value(a) / u
  {
    UnitQuotientFits(a, u);
    Encode(Value(a) / u, |a|)
  }

  lemma QuotientFits(a: BigUint, b: BigUint)
    requires b != [] && b[0] != 0 && |b| < |a|
    ensures Value(b) > 0
    ensures Value(a) / Value(b) < Power(|a| - |b| + 1)
  {
    ValueBelow(a);
    ValueAtLeast(b);
    PowerAdd(|b| - 1, |a| - |b| + 1);
    BelowScaled(Value(a), Value(b), Power(|b| - 1), Power(|a| - |b| + 1));
  }

  function LongQuotient(a: BigUint, b: BigUint): (q: nat)
    requires b != [] && b[0] != 0 && |b| < |a|
    ensures Value(b) > 0
    ensures q == Value(a) / Value(b)
    ensures q < Power(|a| - |b| + 1)
  {
    QuotientFits(a, b);
    Value(a) / Value(b)
  }

  /**
   Assumed: long division. It answers only when the divisor has at least two
   limbs, neither operand has a leading zero and the dividend is the longer.
   */
  function Div(a: BigUint, b: BigUint): (r: Option<BigUint>)
    ensures r.Some? <==> |b| > 1 && b[0] != 0 && |a| > |b| && a[0] != 0
    ensures r.Some? ==> Value(b) > 0 && Value(r.value) == Value(a) / Value(b)
  {
    if |b| <= 1 || |a| <= |b| || b[0] == 0 || a[0] == 0 then None
    else Some(Encode(LongQuotient(a, b), |a| - |b| + 1))
  }

  lemma SumFits(a: BigUint, b: BigUint)
    ensures Value(a) + Value(b) < Power((if |a| < |b| then |b| else |a|) + 1)
  {
    var n := if |a| < |b| then |b| else |a|;
    ValueBelow(a);
    ValueBelow(b);
    PowerMono(|a|, n);
    PowerMono(|b|, n);
  }

  /** Assumed: addition, one limb longer than the longer operand. */
  function Add(a: BigUint, b: BigUint): (r: BigUint)
    ensures |r| == (if |a| < |b| then |b| else |a|) + 1 && Value(r) == Value(a) + Value(b)
  {
    SumFits(a, b);
    Encode(Value(a) + Value(b), (if |a| < |b| then |b| else |a|) + 1)
  }

  /** Assumed: comparison is by value, leading zeros or not. */
  predicate AtLeastAs(a: BigUint, b: BigUint) { Value(a) >= Value(b) }

  predicate IsZero(a: BigUint) { forall i :: 0 <= i < |a| ==> a[i] == 0 }

  lemma {:induction false} ZeroIff(a: BigUint)
    ensures IsZero(a) <==> Value(a) == 0
  {
    if a != [] {
      var init := a[..|a| - 1];
      ZeroIff(init);
      assert forall i :: 0 <= i < |init| ==> init[i] == a[i];
    }
  }

  /** Assumed: subtraction, answering only when it does not underflow. */
  function Sub(a: BigUint, b: BigUint): (r: Option<BigUint>)
    ensures r.Some? <==> Value(b) <= Value(a)
    ensures r.Some? ==> Value(r.value) == Value(a) - Value(b)
  {
    if Value(b) <= Value(a) then
      ValueBelow(a);
      Some(Encode(Value(a) - Value(b), |a|))
    else None
  }

  const ZERO: BigUint := [0]

  /** `BigUint::from(100_000u64.pow(2))`: the high and the low half of 10^10. */
  const TEN_TO_TEN: BigUint := [2, 1410065408]

  // ---- div_by_stripped ---------------------------------------------------

  function DivByStripped(a0: BigUint, b: BigUint): BigUint
    requires b != [] ==> b[0] != 0
  {
    var a := Lstrip(a0);
    if |b| == 0 then ZERO
    else if |b| == 1 then DivUnit(a, b[0])
    else if |b| > |a| then ZERO
    else if |b| == |a| then
      var q := match Div(Lstrip(Mul(a, TEN_TO_TEN)), b) case Some(v) => v case None => ZERO;
      DivUnit(DivUnit(q, 100_000), 100_000)
    else match Div(a, b) case Some(v) => v case None => ZERO
  }

  lemma TenToTen()
    ensures Value(TEN_TO_TEN) == 10_000_000_000
    ensures Value(ZERO) == 0
  {
    assert Value([2]) == 2 by { assert [2 as Limb][..0] == []; }
    assert TEN_TO_TEN[..1] == [2];
    assert ZERO[..0] == [];
  }

  /** 10^10 exceeds one limb, so the scaled dividend is longer than the divisor. */
  lemma ScaledIsLonger(a: BigUint)
    requires |a| > 1 && a[0] != 0
    ensures var n := Lstrip(Mul(a, TEN_TO_TEN)); |n| > |a| && n[0] != 0
    ensures Value(Lstrip(Mul(a, TEN_TO_TEN))) == 10_000_000_000 * Value(a)
  {
    var n := Lstrip(Mul(a, TEN_TO_TEN));
    TenToTen();
    LstripValue(Mul(a, TEN_TO_TEN));
    ValueAtLeast(a);
    ValueBelow(n);
    if |n| <= |a| {
      PowerMono(|n|, |a|);
    }
  }

  /** Every call to the long division meets its precondition. */
  lemma DivisionsAreDefined(a0: BigUint, b: BigUint)
    requires b != [] ==> b[0] != 0
    ensures var a := Lstrip(a0);
            && (|b| > 1 && |b| == |a| ==> Div(Lstrip(Mul(a, TEN_TO_TEN)), b).Some?)
            && (|b| > 1 && |b| < |a| ==> Div(a, b).Some?)
  {
    var a := Lstrip(a0);
    if |b| > 1 && |b| == |a| {
      ScaledIsLonger(a);
    }
  }

  /** Dividing by 10^5 twice undoes the scaling by 10^10. */
  lemma ScaleUpAndDown(v: nat, w: nat)
    requires 0 < w
    ensures ((10_000_000_000 * v) / w) / 100_000 / 100_000 == v / w
  {
    Nested((10_000_000_000 * v) / w, 100_000, 100_000);
    Scaled(v, w, 10_000_000_000);
  }

  lemma SameLength(a: BigUint, b: BigUint)
    requires |a| == |b| > 1 && a[0] != 0 && b[0] != 0
    ensures Value(b) > 0
    ensures Value(DivByStripped(a, b)) == Value(a) / Value(b)
  {
    var n := Lstrip(Mul(a, TEN_TO_TEN));
    ScaledIsLonger(a);
    ValueAtLeast(b);
    var q := Div(n, b);
    assert DivByStripped(a, b) == DivUnit(DivUnit(q.value, 100_000), 100_000);
    ScaleUpAndDown(Value(a), Value(b));
  }

  lemma ShorterDividend(a: BigUint, b: BigUint)
    requires |a| < |b| && b[0] != 0
    ensures Value(b) > 0
    ensures Value(a) / Value(b) == 0
  {
    ValueBelow(a);
    ValueAtLeast(b);
    PowerMono(|a|, |b| - 1);
    Small(Value(a), Value(b));
  }

  lemma OneLimb(b: BigUint)
    requires |b| == 1
    ensures Value(b) == b[0]
  {
    assert b[..0] == [];
  }

  /** All limb-length branches compute the truncated quotient. */
  lemma DivByStrippedIsDivision(a0: BigUint, b: BigUint)
    requires b != [] ==> b[0] != 0
    ensures Value(b) == 0 <==> b == []
    ensures Value(DivByStripped(a0, b)) == if b == [] then 0 else Value(a0) / Value(b)
  {
    var a := Lstrip(a0);
    LstripValue(a0);
    TenToTen();
    if b != [] {
      ValueAtLeast(b);
      if |b| == 1 {
        OneLimb(b);
      } else if |b| > |a| {
        ShorterDividend(a, b);
      } else if |b| == |a| {
        SameLength(a, b);
      }
    }
  }
}
