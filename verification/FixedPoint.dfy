/** The scaling of CPU time by weight in kernel/core/sched/sched_fair.c: reciprocal multiply and shift. */
module FixedPoint {
  import opened Bits

  const U32: nat := 0x1_0000_0000
  const U64: nat := 0x1_0000_0000_0000_0000
  const WMULT_CONST: nat := 0xFFFF_FFFF
  const WMULT_SHIFT: nat := 32
  const NICE_0_LOAD: nat := 1024
  /** `2^32 / NICE_0_LOAD`: what the reciprocal is scaled by once the nice-0 load is taken out. */
  const UNIT: nat := 0x40_0000

  /** The reciprocal __update_inv_weight stores for weight `w`. */
  function InvOf(w: nat): (r: nat)
    ensures 1 <= r <= WMULT_CONST
  {
    if w >= WMULT_CONST then 1 else if w == 0 then WMULT_CONST
    else
      InvPositive(w);
      WMULT_CONST / w
  }

  lemma InvPositive(w: nat)
    requires 1 <= w < WMULT_CONST
    ensures 1 <= WMULT_CONST / w <= WMULT_CONST
    ensures (WMULT_CONST / w) * w <= WMULT_CONST < (WMULT_CONST / w) * w + w
  {
    var q := WMULT_CONST / w;
    assert WMULT_CONST == w * q + WMULT_CONST % w;
    assert q == 0 ==> w * q == 0;
    assert q <= w * q;
  }

  /** The vruntime charged for `delta` of CPU time at weight `w`, before truncation to 64 bits. */
  function Charge(delta: nat, w: nat): nat {
    if w == NICE_0_LOAD then delta else (delta * InvOf(w)) / UNIT
  }

  /** The shifting loop: halve until the factor fits 32 bits. */
  function Normalise(fact: nat, shift: int): (nat, int) {
    if fact < U32 then (fact, shift) else Normalise(fact / 2, shift - 1)
  }

  /** The factor and shift both loops of __calc_delta arrive at. */
  function Scaled(factor: nat, inv: nat): (nat, int) {
    var a := Normalise(factor, WMULT_SHIFT);
    Normalise(a.0 * inv, a.1)
  }

  class LoadWeight {
    var weight: nat
    var invWeight: nat

    /** The cached reciprocal is unset or belongs to the weight. */
    ghost predicate Valid()
      reads this
    {
      invWeight == 0 || invWeight == InvOf(weight)
    }

    /** sched_fork: a fresh weight with no reciprocal yet. */
    constructor (w: nat)
      ensures Valid() && weight == w && invWeight == 0
    {
      weight, invWeight := w, 0;
    }

    /** __update_inv_weight. */
    method UpdateInvWeight()
      requires Valid()
      modifies this`invWeight
      ensures Valid() && invWeight == InvOf(weight)
    {
      if invWeight != 0 {
        return;
      }
      if weight >= WMULT_CONST {
        invWeight := 1;
      } else if weight == 0 {
        invWeight := WMULT_CONST;
      } else {
        invWeight := WMULT_CONST / weight;
      }
    }

    /** __calc_delta; C leaves a shift by a negative count undefined. */
    method CalcDelta(delta: nat, factor: nat) returns (r: nat)
      requires Valid() && Scaled(factor, InvOf(weight)).1 >= 0
      modifies this`invWeight
      ensures Valid() && invWeight == InvOf(weight)
      ensures var n := Scaled(factor, InvOf(weight)); r == ((delta * n.0) / Pow2(n.1)) % U64
    {
      var fact: nat, shift: int := factor, WMULT_SHIFT;
      UpdateInvWeight();
      while fact >= U32
        invariant Normalise(fact, shift) == Normalise(factor, WMULT_SHIFT)
      {
        fact := fact / 2;
        shift := shift - 1;
      }
      fact := fact * invWeight;
      while fact >= U32
        invariant Normalise(fact, shift) == Scaled(factor, invWeight)
      {
        fact := fact / 2;
        shift := shift - 1;
      }
      r := ((delta * fact) / Pow2(shift)) % U64;
    }

    /** calc_delta_fair. */
    method CalcDeltaFair(delta: nat) returns (r: nat)
      requires Valid() && delta < U64
      modifies this`invWeight
      ensures Valid() && weight == old(weight)
      ensures r == Charge(delta, weight) % U64
    {
      if weight != NICE_0_LOAD {
        ScaledExact(delta, InvOf(weight));
        r := CalcDelta(delta, NICE_0_LOAD);
      } else {
        r := delta;
      }
    }
  }

  lemma Pow2At32()
    ensures Pow2(10) == 1024 && Pow2(22) == UNIT && Pow2(32) == U32
  {
    assert Pow2(10) == 1024;
    assert Pow2(20) == 1024 * 1024 by { assert Pow2(15) == 32768; }
    assert Pow2(22) == UNIT;
    assert Pow2(32) == U32 by { assert Pow2(27) == 32 * UNIT; }
  }

  lemma MulLe(a: nat, b: nat, c: nat)
    requires b <= c
    ensures a * b <= a * c
  {
  }

  // ----- the loop loses no bits

  /** A factor divisible by `2^k` and below `2^(32+k)` comes out of the loop exactly, only rescaled. */
  lemma {:induction false} NormaliseShifts(c: nat, k: nat, shift: int)
    requires c < U32
    ensures var n := Normalise(c * Pow2(k), shift);
            n.0 < U32 && 0 <= shift - n.1 <= k && n.0 * Pow2(shift - n.1) == c * Pow2(k)
    decreases k
  {
    var f := c * Pow2(k);
    if f >= U32 {
      assert k > 0;
      assert f == 2 * (c * Pow2(k - 1));
      assert f / 2 == c * Pow2(k - 1);
      NormaliseShifts(c, k - 1, shift - 1);
      var n := Normalise(f / 2, shift - 1);
      assert n.0 * Pow2(shift - n.1) == 2 * (n.0 * Pow2(shift - 1 - n.1));
    }
  }

  /** Either loop: it halves just as often as 32 bits demand, rounds down, and counts its halvings off the shift. */
  lemma {:induction false} NormaliseIs(fact: nat, shift: int)
    ensures var n := Normalise(fact, shift); var d := shift - n.1;
            && d >= 0 && n.0 < U32 && (d > 0 ==> 2 * n.0 >= U32 - 1)
            && n.0 * Pow2(d) <= fact < n.0 * Pow2(d) + Pow2(d)
    decreases fact
  {
    if fact >= U32 {
      NormaliseIs(fact / 2, shift - 1);
      var n := Normalise(fact / 2, shift - 1);
      var d: nat := shift - 1 - n.1;
      assert Pow2(d + 1) == 2 * Pow2(d);
      DoubleBound(n.0, Pow2(d), fact);
      if d == 0 { assert n.0 == fact / 2; }
    }
  }

  lemma DoubleBound(n: nat, p: nat, fact: nat)
    requires n * p <= fact / 2 < n * p + p
    ensures n * (2 * p) <= fact < n * (2 * p) + 2 * p
  {
    assert n * (2 * p) == 2 * (n * p);
  }

  /** The reciprocal: 2^32 - 1 over the weight, rounded down, and at the two ends what the code puts there. */
  lemma InvExact(w: nat)
    ensures w == 0 ==> InvOf(w) == WMULT_CONST
    ensures w >= WMULT_CONST ==> InvOf(w) == 1
    ensures 1 <= w < WMULT_CONST ==> InvOf(w) * w <= WMULT_CONST < InvOf(w) * w + w
  {
    if 1 <= w < WMULT_CONST { InvPositive(w); }
  }

  lemma DivScale(a: nat, b: nat, c: nat)
    requires b > 0 && c > 0
    ensures b * c > 0 && (a * c) / (b * c) == a / b
  {
    var q: nat, r: nat := a / b, a % b;
    assert a == b * q + r;
    assert a * c == b * q * c + r * c;
    assert b * q * c == b * c * q;
    MulLe(c, r + 1, b);
    assert c * (r + 1) == r * c + c;
    QuotientUnique(a * c, b * c, q);
  }

  lemma QuotientUnique(x: nat, n: nat, q: nat)
    requires n > 0 && n * q <= x < n * q + n
    ensures x / n == q
  {
    var d: nat := x / n;
    assert n * d <= x < n * d + n by { assert x == n * d + x % n; }
    if d < q { MulLe(n, d + 1, q); }
    if q < d { MulLe(n, q + 1, d); }
  }

  lemma {:induction false} Pow2Add(a: nat, b: nat)
    ensures Pow2(a + b) == Pow2(a) * Pow2(b)
    decreases b
  {
    if b > 0 { Pow2Add(a, b - 1); }
  }

  lemma QuotientScaled(delta: nat, f: nat, ps: nat, pd: nat, c: nat, u: nat, k: nat)
    requires ps > 0 && pd > 0 && u > 0 && k > 0 && f * pd == c * k && ps * pd == u * k
    ensures (delta * f) / ps == (delta * c) / u
  {
    DivScale(delta * f, ps, pd);
    DivScale(delta * c, u, k);
    assert (delta * f) * pd == delta * (f * pd);
    assert (delta * c) * k == delta * (c * k);
  }

  /** For the nice-0 load the loops lose no bits: factor and shift give exactly `delta * inv / 2^22`. */
  lemma ScaledExact(delta: nat, inv: nat)
    requires inv < U32
    ensures var n := Scaled(NICE_0_LOAD, inv);
            n.1 >= 0 && (delta * n.0) / Pow2(n.1) == (delta * inv) / UNIT
  {
    var n := Scaled(NICE_0_LOAD, inv);
    assert n == Normalise(NICE_0_LOAD * inv, WMULT_SHIFT);
    hide Scaled, Normalise;
    Pow2At32();
    NormaliseShifts(inv, 10, WMULT_SHIFT);
    var d: nat := WMULT_SHIFT - n.1;
    Pow2Add(n.1, d);
    hide Pow2;
    assert Pow2(n.1) * Pow2(d) == UNIT * 1024;
    QuotientScaled(delta, n.0, Pow2(n.1), Pow2(d), inv, UNIT, 1024);
  }

  // ----- error bound

  /** `c` is at most `delta * 1024 / w` and falls short of it by less than `1 + delta / 2^22`. */
  ghost predicate Accurate(c: nat, delta: nat, w: nat) {
    && c * w <= delta * NICE_0_LOAD
    && delta * NICE_0_LOAD * UNIT < (c * w + w) * UNIT + delta * w
  }

  /** The reciprocal product lies just below `delta * 2^32 / w`. */
  lemma ProductBound(delta: nat, w: nat)
    requires 1 <= w < WMULT_CONST
    ensures delta * InvOf(w) * w <= delta * U32 <= delta * InvOf(w) * w + delta * w
  {
    InvPositive(w);
    var i := InvOf(w);
    assert i * w <= U32 <= i * w + w;
    assert delta * (i * w) <= delta * U32 <= delta * (i * w + w) by {
      MulLe(delta, i * w, U32);
      MulLe(delta, U32, i * w + w);
    }
    assert delta * (i * w) == delta * i * w;
    assert delta * (i * w + w) == delta * (i * w) + delta * w;
  }

  lemma ChargeAccurate(delta: nat, w: nat)
    requires 1 <= w < WMULT_CONST
    ensures Accurate(Charge(delta, w), delta, w)
  {
    if w != NICE_0_LOAD {
      ProductBound(delta, w);
      QuotientBound(delta * InvOf(w), w);
      Rescale(Charge(delta, w) * w, delta);
    }
  }

  lemma QuotientBound(x: nat, w: nat)
    requires w >= 1
    ensures (x / UNIT) * w * UNIT <= x * w < ((x / UNIT) * w + w) * UNIT
  {
    Division(x, x / UNIT, x % UNIT, UNIT, w);
  }

  lemma Division(x: nat, q: nat, r: nat, u: nat, w: nat)
    requires w >= 1 && x == q * u + r && r < u
    ensures q * w * u <= x * w < (q * w + w) * u
  {
    assert x * w == q * u * w + r * w;
    assert q * u * w == q * w * u;
    assert (q * w + w) * u == q * w * u + w * u;
    assert r * w < u * w;
  }

  lemma Rescale(a: nat, delta: nat)
    ensures a * UNIT <= delta * U32 ==> a <= delta * NICE_0_LOAD
  {
  }

  /** Truncation to 64 bits keeps the bound exactly when the charge fits, a test on the operands. */
  lemma TruncatedAccurateIff(delta: nat, w: nat)
    requires 1 <= w < WMULT_CONST && delta < U64
    ensures Accurate(Charge(delta, w) % U64, delta, w) <==> w == NICE_0_LOAD || delta * InvOf(w) < U64 * UNIT
  {
    var c := Charge(delta, w);
    ChargeAccurate(delta, w);
    ChargeFitsIff(delta, w);
    hide Charge, InvOf;
    if c >= U64 {
      assert c * w <= delta * NICE_0_LOAD;
      hide Accurate;
      FarShort(c, c % U64, delta, w);
    } else {
      assert c % U64 == c;
    }
  }

  lemma ChargeFitsIff(delta: nat, w: nat)
    requires delta < U64
    ensures Charge(delta, w) < U64 <==> w == NICE_0_LOAD || delta * InvOf(w) < U64 * UNIT
  {
    hide InvOf;
    var x := delta * InvOf(w);
    if w != NICE_0_LOAD {
      assert Charge(delta, w) == x / UNIT;
      hide Charge;
      FitsIff(x);
    }
  }

  /** The witness: 2^60 ns at the lightest weight of the table. */
  lemma TruncationLosesTime()
    ensures !Accurate(Charge(0x1000_0000_0000_0000, 15) % U64, 0x1000_0000_0000_0000, 15)
  {
    TruncatedAccurateIff(0x1000_0000_0000_0000, 15);
    assert InvOf(15) == 286331153;
  }

  lemma FarShort(c: nat, t: nat, delta: nat, w: nat)
    requires w >= 1 && delta < U64 && t + U64 <= c && c * w <= delta * NICE_0_LOAD
    ensures !Accurate(t, delta, w)
  {
    MulLe(w, t + U64, c);
    assert t * w + U64 * w <= c * w;
    assert delta * w <= U64 * w;
  }

  lemma FitsIff(x: nat)
    ensures x / UNIT < U64 <==> x < U64 * UNIT
  {
  }

  // ----- monotonicity

  lemma ChargeMonotone(d: nat, e: nat, w: nat)
    requires d <= e
    ensures Charge(d, w) <= Charge(e, w)
  {
    MulLe(InvOf(w), d, e);
  }

  /** Heavier entities are never charged more, also across the weight the code short-cuts. */
  lemma ChargeAntitone(delta: nat, v: nat, w: nat)
    requires 1 <= v <= w < WMULT_CONST
    ensures Charge(delta, w) <= Charge(delta, v)
  {
    if v != w {
      InvAntitone(v, w);
      if w == NICE_0_LOAD {
        InvAntitone(v, NICE_0_LOAD - 1);
        MulLe(delta, UNIT, InvOf(v));
      } else if v == NICE_0_LOAD {
        InvAntitone(NICE_0_LOAD + 1, w);
        MulLe(delta, InvOf(w), UNIT);
      } else {
        MulLe(delta, InvOf(w), InvOf(v));
      }
    }
  }

  lemma InvAntitone(v: nat, w: nat)
    requires 1 <= v <= w < WMULT_CONST
    ensures InvOf(w) <= InvOf(v)
  {
    InvPositive(v);
    InvPositive(w);
    var a, b := InvOf(v), InvOf(w);
    if a < b {
      MulLe(v, a + 1, b);
      MulLe(b, v, w);
    }
  }

  // ----- the bound on real numbers

  /** The scaled CPU time `delta * 1024 / w` minus the charge lies in `[0, 1 + delta / 2^22)`. */
  lemma ChargeError(delta: nat, w: nat)
    requires 1 <= w < WMULT_CONST
    ensures 0.0 <= (delta * NICE_0_LOAD) as real / w as real - Charge(delta, w) as real
            < 1.0 + delta as real / UNIT as real
  {
    ChargeAccurate(delta, w);
    var c := Charge(delta, w);
    var x, y := (delta * NICE_0_LOAD) as real, w as real;
    assert (c * w) as real == c as real * y;
    assert c as real * y <= x;
    DivBound(x, y, c as real, delta as real);
  }

  lemma DivBound(x: real, y: real, c: real, d: real)
    requires y > 0.0 && c * y <= x && d >= 0.0
    requires x * UNIT as real < (c * y + y) * UNIT as real + d * y
    ensures 0.0 <= x / y - c < 1.0 + d / UNIT as real
  {
    var q := x / y;
    assert x == q * y;
    var u := UNIT as real;
    assert q >= c by { RealMulPositive(c - q, y); }
    var e := 1.0 + d / u - (q - c);
    assert e * u == u + d - (q - c) * u;
    assert e * u * y == u * y + d * y - (q - c) * u * y;
    assert (q - c) * u * y == x * u - c * y * u;
    assert e * u * y > 0.0;
    RealMulPositive(-e, u * y);
  }

  lemma RealMulPositive(a: real, b: real)
    requires b > 0.0
    ensures a > 0.0 ==> a * b > 0.0
    ensures a >= 0.0 ==> a * b >= 0.0
  {
  }
}
