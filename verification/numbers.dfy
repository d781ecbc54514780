/**
 * BigNumber values as the wallet uses them: either NaN or an exact decimal
 * `units / 10^scale`. Each operation is proved against the rational number
 * it denotes. `plus`, `minus`, `multipliedBy` and ×10^k are exact in
 * bignumber.js as well; `decimalPlaces(0)` is modelled where it is used.
 * Division by 10^k is modelled exactly, while bignumber.js rounds a
 * quotient to 20 decimal places; the two agree whenever the dividend has
 * at most 20 - k decimal places.
 */
module Numbers {

  function Pow10(k: nat): (r: nat)
    ensures r >= 1
  {
    if k == 0 then 1 else 10 * Pow10(k - 1)
  }

  lemma {:induction false} Pow10Add(a: nat, b: nat)
    ensures Pow10(a + b) == Pow10(a) * Pow10(b)
  {
    if b > 0 {
      Pow10Add(a, b - 1);
      var pa, pb := Pow10(a), Pow10(b - 1);
      assert Pow10(a + b) == 10 * (pa * pb);
      assert Pow10(b) == 10 * pb;
      MulAssoc(pa, 10, pb);
    }
  }

  /** A BigNumber: NaN, or the decimal `units / 10^scale`. */
  datatype Num = NaN | Dec(units: int, scale: nat)

  /** The rational number a non-NaN BigNumber denotes. */
  function Value(n: Num): real
    requires n.Dec?
  {
    n.units as real / Pow10(n.scale) as real
  }

  function Int(i: int): (r: Num)
    ensures r.Dec? && Value(r) == i as real
  {
    Dec(i, 0)
  }

  /** Equality of two fractions, reduced to integers. */
  lemma CrossMultiply(u: int, p: nat, v: int, q: nat)
    requires p >= 1 && q >= 1
    ensures (u as real / p as real == v as real / q as real) <==> u * q == v * p
  {
    var a, b := u as real / p as real, v as real / q as real;
    var pr, qr := p as real, q as real;
    assert a * pr == u as real;
    assert b * qr == v as real;
    assert (u * q) as real == u as real * qr;
    assert (v * p) as real == v as real * pr;
    if a == b {
      assert u as real * qr == a * pr * qr;
      assert v as real * pr == a * qr * pr;
    }
    if u * q == v * p {
      assert a * (pr * qr) == b * (pr * qr);
      assert pr * qr > 0.0;
    }
  }

  /** The same value written with `extra` more digits after the point. */
  function Rescale(n: Num, extra: nat): (r: Num)
    requires n.Dec?
    ensures r.Dec? && r.scale == n.scale + extra && Value(r) == Value(n)
  {
    var r := Dec(n.units * Pow10(extra), n.scale + extra);
    assert (n.scale + extra) - n.scale == extra;
    StripZeros(r.units, r.scale, n.scale, n.units);
    r
  }

  /** Multiplication by 10^k (`toWei`, `toWei(x, 'shannon')`, `× 10^decimals`). */
  function Shift(n: Num, k: nat): (r: Num)
    ensures r.Dec? <==> n.Dec?
    ensures n.Dec? ==> Value(r) == Value(n) * Pow10(k) as real
  {
    match n
    case NaN => NaN
    case Dec(u, s) =>
      if k <= s then
        ShiftValue(u, s - k, k, s);
        Dec(u, s - k)
      else
        ShiftPastPoint(u, s, k - s);
        Dec(u * Pow10(k - s), 0)
  }

  /** The same units at `b` more digits after the point denote a 10^b times smaller value. */
  lemma ShiftValue(u: int, a: nat, b: nat, s: nat)
    requires a + b == s
    ensures Value(Dec(u, a)) == Value(Dec(u, s)) * Pow10(b) as real
  {
    var pa, pb, ps := Pow10(a), Pow10(b), Pow10(s);
    assert ps == pa * pb by { Pow10Add(a, b); }
    var x, y := Value(Dec(u, a)), Value(Dec(u, s));
    assert x == y * pb as real by { RescaledQuotient(u, x, y, pa, pb, ps); }
  }

  /** u / p == (u / (p·q)) · q, with the powers of ten as plain integers. */
  lemma RescaledQuotient(u: int, x: real, y: real, p: int, q: int, pq: int)
    requires p >= 1 && q >= 1 && pq == p * q
    requires x == u as real / p as real && y == u as real / pq as real
    ensures x == y * q as real
  {
    assert pq as real == p as real * q as real;
    assert y * (p as real * q as real) == u as real;
    assert (y * q as real) * p as real == u as real;
  }

  lemma ShiftPastPoint(u: int, s: nat, e: nat)
    ensures Value(Dec(u * Pow10(e), 0)) == Value(Dec(u, s)) * Pow10(s + e) as real
  {
    var ps, pe, pse := Pow10(s), Pow10(e), Pow10(s + e);
    assert pse == ps * pe by { Pow10Add(s, e); }
    var x, y := Value(Dec(u * pe, 0)), Value(Dec(u, s));
    assert x == (u * pe) as real by { assert Pow10(0) == 1; }
    assert x == y * pse as real by { PastPointReal(u, x, y, ps, pe, pse); }
  }

  /** u·q == (u / p) · (p·q), with the powers of ten as plain integers. */
  lemma PastPointReal(u: int, x: real, y: real, p: int, q: int, pq: int)
    requires p >= 1 && pq == p * q
    requires x == (u * q) as real && y == u as real / p as real
    ensures x == y * pq as real
  {
    assert pq as real == p as real * q as real;
    assert (u * q) as real == u as real * q as real;
    assert y * p as real == u as real;
    assert y * (p as real * q as real) == (y * p as real) * q as real;
  }

  /** Division by 10^k (`fromWei`), without the rounding to 20 decimal places of bignumber.js. */
  function Unshift(n: Num, k: nat): (r: Num)
    ensures r.Dec? <==> n.Dec?
    ensures n.Dec? ==> Value(r) * Pow10(k) as real == Value(n)
  {
    match n
    case NaN => NaN
    case Dec(u, s) =>
      ShiftValue(u, s, k, s + k);
      Dec(u, s + k)
  }

  function Neg(n: Num): (r: Num)
    ensures r.Dec? <==> n.Dec?
    ensures n.Dec? ==> Value(r) == - Value(n)
  {
    match n
    case NaN => NaN
    case Dec(u, s) => Dec(-u, s)
  }

  /** Both operands are brought to the larger scale, then the units added. */
  function Add(a: Num, b: Num): (r: Num)
    ensures r.Dec? <==> a.Dec? && b.Dec?
    ensures r.Dec? ==> Value(r) == Value(a) + Value(b)
  {
    if a.NaN? || b.NaN? then NaN
    else
      var m := if a.scale <= b.scale then b.scale else a.scale;
      var x := Rescale(a, m - a.scale);
      var y := Rescale(b, m - b.scale);
      SumOverCommonDenominator(x.units, y.units, Pow10(m));
      Dec(x.units + y.units, m)
  }

  lemma SumOverCommonDenominator(u: int, v: int, p: nat)
    requires p >= 1
    ensures (u + v) as real / p as real == u as real / p as real + v as real / p as real
  {
  }

  function Sub(a: Num, b: Num): (r: Num)
    ensures r.Dec? <==> a.Dec? && b.Dec?
    ensures r.Dec? ==> Value(r) == Value(a) - Value(b)
  {
    Add(a, Neg(b))
  }

  function Mul(a: Num, b: Num): (r: Num)
    ensures r.Dec? <==> a.Dec? && b.Dec?
    ensures r.Dec? ==> Value(r) == Value(a) * Value(b)
  {
    if a.NaN? || b.NaN? then NaN
    else
      MulValue(a.units, a.scale, b.units, b.scale);
      Dec(a.units * b.units, a.scale + b.scale)
  }

  lemma MulValue(u: int, s: nat, v: int, t: nat)
    ensures Value(Dec(u * v, s + t)) == Value(Dec(u, s)) * Value(Dec(v, t))
  {
    var ps, pt, pst := Pow10(s), Pow10(t), Pow10(s + t);
    assert pst == ps * pt by { Pow10Add(s, t); }
    assert (u * v) as real / pst as real == (u as real / ps as real) * (v as real / pt as real) by {
      ProductOfFractions(u, v, ps, pt);
    }
  }

  lemma ProductOfFractions(u: int, v: int, p: nat, q: nat)
    requires p >= 1 && q >= 1
    ensures (u * v) as real / (p * q) as real == (u as real / p as real) * (v as real / q as real)
  {
    var a, b, c, d := u as real, v as real, p as real, q as real;
    assert (u * v) as real == a * b;
    assert (p * q) as real == c * d;
    assert (a * b) / (c * d) == (a / c) * (b / d);
  }

  predicate IsZero(n: Num)
  {
    n.Dec? && n.units == 0
  }

  predicate IsNegative(n: Num)
  {
    n.Dec? && n.units < 0
  }

  /** The zero and sign tests read the units; they agree with the value. */
  lemma SignOfValue(n: Num)
    requires n.Dec?
    ensures IsZero(n) <==> Value(n) == 0.0
    ensures IsNegative(n) <==> Value(n) < 0.0
  {
    var p := Pow10(n.scale) as real;
    assert Value(n) * p == n.units as real;
  }

  /** `a.lt(b)`: false whenever either side is NaN. */
  predicate Lt(a: Num, b: Num)
  {
    IsNegative(Sub(a, b))
  }

  /** `a.gt(b)`. */
  predicate Gt(a: Num, b: Num)
  {
    Lt(b, a)
  }

  /** `a.eq(b)`: value equality, false whenever either side is NaN. */
  predicate Eq(a: Num, b: Num)
  {
    IsZero(Sub(a, b))
  }

  lemma CompareValues(a: Num, b: Num)
    ensures Lt(a, b) <==> a.Dec? && b.Dec? && Value(a) < Value(b)
    ensures Eq(a, b) <==> a.Dec? && b.Dec? && Value(a) == Value(b)
  {
    if a.Dec? && b.Dec? {
      SignOfValue(Sub(a, b));
    }
  }

  /** `u` is a multiple of 10^j, tested digit by digit. */
  predicate DivisibleByPow10(u: int, j: nat)
    decreases j
  {
    j == 0 || (u % 10 == 0 && DivisibleByPow10(u / 10, j - 1))
  }

  /** `u / 10^j` for a multiple `u` of 10^j. */
  function DropZeros(u: int, j: nat): (q: int)
    requires DivisibleByPow10(u, j)
    ensures u == q * Pow10(j)
    decreases j
  {
    if j == 0 then u
    else
      var q := DropZeros(u / 10, j - 1);
      assert u == 10 * (u / 10);
      assert u == q * (10 * Pow10(j - 1));
      q
  }

  lemma {:induction false} DivisibleFewer(u: int, a: nat, b: nat)
    requires b <= a && DivisibleByPow10(u, a)
    ensures DivisibleByPow10(u, b)
    decreases b
  {
    if b > 0 {
      DivisibleFewer(u / 10, a - 1, b - 1);
    }
  }

  lemma {:induction false} DivisibleOneMore(u: int, j: nat)
    requires DivisibleByPow10(u, j) && DropZeros(u, j) % 10 == 0
    ensures DivisibleByPow10(u, j + 1)
    decreases j
  {
    if j > 0 {
      DivisibleOneMore(u / 10, j - 1);
    }
  }

  /** `n × 10^k` is a whole number. */
  predicate WholeAfterShift(n: Num, k: nat)
    requires n.Dec?
  {
    k >= n.scale || DivisibleByPow10(n.units, n.scale - k)
  }

  /**
   * `dp()`: the number of digits after the decimal point once trailing zeros
   * are dropped, i.e. the least k for which `n × 10^k` is whole.
   */
  function DecimalPlaces(n: Num): (r: nat)
    requires n.Dec?
    ensures r <= n.scale
    ensures WholeAfterShift(n, r)
    ensures forall k: nat :: k < r ==> !WholeAfterShift(n, k)
    decreases n.scale
  {
    if n.scale == 0 || n.units % 10 != 0 then n.scale
    else
      var m := Dec(n.units / 10, n.scale - 1);
      forall k: nat | k < n.scale
        ensures WholeAfterShift(n, k) <==> WholeAfterShift(m, k)
      {
        assert DivisibleByPow10(n.units, n.scale - k) <==> DivisibleByPow10(m.units, m.scale - k);
      }
      DecimalPlaces(m)
  }

  /** Once `n × 10^k` is whole, so is `n × 10^j` for every larger j. */
  lemma WholeUpward(n: Num, k: nat, j: nat)
    requires n.Dec? && k <= j && WholeAfterShift(n, k)
    ensures WholeAfterShift(n, j)
  {
    if j < n.scale {
      DivisibleFewer(n.units, n.scale - k, n.scale - j);
    }
  }

  /** More than d places after the point exactly when `n × 10^d` is not whole. */
  lemma DecimalPlacesExceed(n: Num, d: nat)
    requires n.Dec?
    ensures DecimalPlaces(n) > d <==> !WholeAfterShift(n, d)
  {
    if DecimalPlaces(n) <= d {
      WholeUpward(n, DecimalPlaces(n), d);
    }
  }

  /**
   * The canonical decimal for a value, trailing zeros removed. It stands
   * for the string a BigNumber serialises to, one per value. The
   * characters of that string are not modelled, and neither is negative
   * zero, which bignumber.js prints as "-0" and so apart from zero.
   */
  function Canonical(n: Num): (r: Num)
    ensures r.Dec? <==> n.Dec?
    ensures n.Dec? ==> r.scale == DecimalPlaces(n) && Value(r) == Value(n)
  {
    match n
    case NaN => NaN
    case Dec(u, s) =>
      var d := DecimalPlaces(n);
      var q := DropZeros(u, s - d);
      StripZeros(u, s, d, q);
      Dec(q, d)
  }

  /** Dropping `s - d` trailing zeros together with as many places keeps the value. */
  lemma StripZeros(u: int, s: nat, d: nat, q: int)
    requires d <= s && u == q * Pow10(s - d)
    ensures Value(Dec(q, d)) == Value(Dec(u, s))
  {
    var pd, pz, ps := Pow10(d), Pow10(s - d), Pow10(s);
    assert q * ps == u * pd by {
      Pow10Add(d, s - d);
      MulAssoc(q, pd, pz);
    }
    CrossMultiply(q, pd, u, ps);
  }

  /** A reduced decimal has no trailing zero in its units. */
  predicate Reduced(n: Num)
  {
    n.Dec? && (n.scale == 0 || n.units % 10 != 0)
  }

  lemma CanonicalIsReduced(n: Num)
    requires n.Dec?
    ensures Reduced(Canonical(n))
  {
    var d := DecimalPlaces(n);
    if d > 0 && Canonical(n).units % 10 == 0 {
      DivisibleOneMore(n.units, n.scale - d);
      assert WholeAfterShift(n, d - 1);
    }
  }

  lemma ReducedUnique(x: Num, y: Num)
    requires Reduced(x) && Reduced(y) && Value(x) == Value(y)
    ensures x == y
  {
    if x.scale < y.scale {
      TrailingZeroAtFinerScale(x, y);
    } else if y.scale < x.scale {
      TrailingZeroAtFinerScale(y, x);
    } else {
      CrossMultiply(x.units, Pow10(x.scale), y.units, Pow10(y.scale));
    }
  }

  /** Writing a value with more digits after the point leaves a trailing zero. */
  lemma TrailingZeroAtFinerScale(x: Num, y: Num)
    requires x.Dec? && y.Dec? && Value(x) == Value(y)
    requires x.scale < y.scale
    ensures y.units % 10 == 0
  {
    var k := y.scale - x.scale;
    var ux, uy := x.units, y.units;
    var px, pk, py := Pow10(x.scale), Pow10(k), Pow10(y.scale);
    assert ux * py == uy * px by { CrossMultiply(ux, px, uy, py); }
    assert py == px * pk by { Pow10Add(x.scale, k); }
    assert pk == 10 * Pow10(k - 1);
    MultipleOfTen(ux, uy, px, pk, py, Pow10(k - 1));
  }

  /** The integer core: uy = ux·pk with pk a multiple of ten. */
  lemma MultipleOfTen(ux: int, uy: int, px: int, pk: int, py: int, t: int)
    requires px >= 1 && py == px * pk && pk == 10 * t && ux * py == uy * px
    ensures uy % 10 == 0
  {
    MulAssoc(ux, px, pk);
    Cancel(ux * pk, uy, px);
    MulAssoc(ux, 10, t);
    assert uy == 10 * (ux * t);
  }

  lemma MulAssoc(a: int, b: int, c: int)
    ensures a * (b * c) == (a * c) * b == (a * b) * c
  {
  }

  lemma Cancel(a: int, b: int, c: nat)
    requires c >= 1 && a * c == b * c
    ensures a == b
  {
  }

  /** Two BigNumbers serialise alike exactly when they have the same value. */
  lemma CanonicalIffSameValue(a: Num, b: Num)
    requires a.Dec? && b.Dec?
    ensures Canonical(a) == Canonical(b) <==> Value(a) == Value(b)
  {
    if Value(a) == Value(b) {
      CanonicalIsReduced(a);
      CanonicalIsReduced(b);
      ReducedUnique(Canonical(a), Canonical(b));
    }
  }
}
