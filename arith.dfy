/** Integer facts about multiples and Euclidean division used by the time-grid proofs. */
module Arith {

  lemma {:induction false} MulAtLeast(k: int, d: int)
    requires k >= 1 && d > 0
    ensures k * d >= d
  {
    if k > 1 {
      MulAtLeast(k - 1, d);
      assert k * d == (k - 1) * d + d;
    }
  }

  lemma {:induction false} MulAtMost(k: int, d: int)
    requires k <= -1 && d > 0
    ensures k * d <= -d
    decreases -k
  {
    if k < -1 {
      MulAtMost(k + 1, d);
      assert k * d == (k + 1) * d - d;
    }
  }

  /** A multiple of `d` strictly between `-d` and `d` is zero. */
  lemma SmallMultiple(k: int, d: int)
    requires d > 0 && -d < k * d < d
    ensures k == 0
  {
    if k >= 1 {
      MulAtLeast(k, d);
    } else if k <= -1 {
      MulAtMost(k, d);
    }
  }

  /** Quotient and remainder are unique. */
  lemma DivModUnique(x: int, d: int, q: int, r: int)
    requires d > 0 && 0 <= r < d && x == q * d + r
    ensures x / d == q && x % d == r
  {
    var q0, r0 := x / d, x % d;
    assert x == q0 * d + r0;
    assert (q0 - q) * d == r - r0;
    SmallMultiple(q0 - q, d);
  }

  lemma MultipleMod(q: int, d: int)
    requires d > 0
    ensures (q * d) % d == 0 && (q * d) / d == q
  {
    DivModUnique(q * d, d, q, 0);
  }

  /** `x` is a multiple of `d`: x == (x / d) * d. */
  lemma MultipleShape(x: int, d: int)
    requires d > 0 && x % d == 0
    ensures x == (x / d) * d
  {
  }

  /** Rounding down to a multiple of `d` gives a multiple of `d`, at most `d - 1` below. */
  lemma FloorShape(t: int, d: int)
    requires d > 0
    ensures (t - t % d) % d == 0
    ensures t - t % d <= t < t - t % d + d
  {
    assert t - t % d == (t / d) * d;
    MultipleMod(t / d, d);
  }

  /** A multiple of `a * m` is a multiple of `a`. */
  lemma MultipleOfFactor(x: int, a: int, m: int)
    requires a > 0 && m > 0 && x % (a * m) == 0
    ensures x % a == 0
  {
    var q := x / (a * m);
    assert x == q * (a * m);
    assert x == (q * m) * a;
    MultipleMod(q * m, a);
  }

  /** Two distinct multiples of `d` are at least `d` apart. */
  lemma MultiplesApart(b: int, c: int, d: int)
    requires d > 0 && b % d == 0 && c % d == 0 && b < c
    ensures b + d <= c
  {
    var p, q := b / d, c / d;
    assert b == p * d && c == q * d;
    assert (q - p) * d == c - b;
    if q - p <= 0 {
      if q - p <= -1 { MulAtMost(q - p, d); }
    } else {
      MulAtLeast(q - p, d);
    }
  }

  lemma Distribute(q: int, p: int, d: int)
    ensures q * d - p * d == (q - p) * d && q * d + p * d == (q + p) * d
  {
  }

  /** The difference and the sum of two multiples of `d` are multiples of `d`. */
  lemma MultipleDiff(b: int, c: int, d: int)
    requires d > 0 && b % d == 0 && c % d == 0
    ensures (c - b) % d == 0 && (c + b) % d == 0
  {
    var p, q := b / d, c / d;
    var pd, qd := p * d, q * d;
    assert b == pd && c == qd;
    Distribute(q, p, d);
    MultipleMod(q - p, d);
    MultipleMod(q + p, d);
  }

  /** Euclidean division of a non-negative number by a positive one is non-negative. */
  lemma NonNegQuotient(x: int, d: int)
    requires x >= 0 && d > 0
    ensures x / d >= 0 && (x / d) * d >= 0
  {
  }

  lemma Regroup(q: int, m: int, p: int, a: int)
    ensures q * (a * m) + p * a == (q * m + p) * a
  {
  }

  /** Rounding down to `a` and then to a multiple `a * m` of it is rounding down to `a * m`. */
  lemma FloorFloor(t: int, a: int, m: int)
    requires a > 0 && m > 0
    ensures var f := t - t % a;
      f - f % (a * m) == t - t % (a * m)
  {
    var b := a * m;
    assert b > 0 by { MulAtLeast(m, a); }
    var Q, R := t / b, t % b;
    var p, s := R / a, R % a;
    var qb, pa := Q * b, p * a;
    assert t == qb + R;
    assert R == pa + s;
    Regroup(Q, m, p, a);
    DivModUnique(t, a, Q * m + p, s);
    var f := t - t % a;
    assert f == qb + pa;
    NonNegQuotient(R, a);
    DivModUnique(f, b, Q, pa);
  }

  /** `x <= y` scales by a positive factor. */
  lemma MulMonotone(x: int, y: int, u: int)
    requires x <= y && u > 0
    ensures x * u <= y * u
  {
  }

  /**
   * Rounding down inside the hour: with `k * m` units of `u` per hour, taking
   * the hour start plus the whole groups of `m` units before `t` is rounding
   * `t` down to a multiple of `m * u`.
   */
  lemma {:induction false} HourFloor(t: int, u: int, k: int, m: int)
    requires u > 0 && k > 0 && m > 0
    ensures t - t % (k * (m * u)) + ((t % (k * (m * u))) / u / m) * m * u == t - t % (m * u)
  {
    var span := m * u;
    assert span > 0 by { MulAtLeast(m, u); }
    var H := k * span;
    assert H > 0 by { MulAtLeast(k, span); }
    var Q, R := t / H, t % H;
    var minute, s := R / u, R % u;
    var p, rr := minute / m, minute % m;
    var qh, mu, pm, rm := Q * H, minute * u, p * m, rr * u;
    assert t == qh + R;
    assert R == mu + s;
    assert minute == pm + rr;
    var pspan, pmu := p * span, pm * u;
    assert pmu == pspan;
    assert mu == pmu + rm by { Distribute(pm, -rr, u); }
    var qk := Q * k;
    assert qh == qk * span;
    var low := rm + s;
    assert 0 <= rm by { MulMonotone(0, rr, u); }
    assert rm <= span - u by { MulMonotone(rr, m - 1, u); Distribute(m, 1, u); }
    var qks := qk * span;
    assert qks + pspan == (qk + p) * span by { Distribute(qk, p, span); }
    DivModUnique(t, span, qk + p, low);
  }
}
