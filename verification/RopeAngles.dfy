/**
 Which way, how far and how fast pairs are turned: a pair at some angle is moved on by the
 position's angle, the first pair by the position itself, and each later pair slower by the same
 factor, down to the position over the base.
 */
module RopeAngles {
  import opened Sums
  import opened Rotary

  /** What is needed of a power of the base. */
  ghost predicate IsPower(pow: real -> real) {
    && pow(0.0) == 1.0 && (forall e :: pow(e) > 0.0)
    && forall x, y :: Times(pow(x), pow(y)) == pow(x + y)
  }

  lemma Multiplies(a: real, b: real)
    requires b > 0.0
    ensures Times(a / b, b) == a
  {
  }

  /** Over twice as many entries as there are steps, exponents grow by the same step. */
  lemma Exponents(i: nat, dim: nat)
    requires dim > 0
    ensures (2 * (i + 1)) as real / dim as real == (2 * i) as real / dim as real + 2.0 / dim as real
    ensures 0.0 / dim as real == 0.0 && dim as real / dim as real == 1.0
  {
    assert (2 * (i + 1)) as real == (2 * i) as real + 2.0;
    SumOver((2 * i) as real, 2.0, dim as real);
  }

  lemma SumOver(a: real, b: real, d: real)
    requires d > 0.0
    ensures (a + b) / d == a / d + b / d
  {
    var x := a / d + b / d;
    assert x * d == a / d * d + b / d * d == a + b;
  }

  /**
   The first pair turns by the position, each next one slower by the base to the power two over
   the dimension, and one past the last of an even dimension would turn by the position over the base.
   */
  lemma Frequencies(trig: Trig, pos: nat, i: nat, dim: nat)
    requires trig.Valid() && IsPower(trig.pow) && dim > 0
    ensures trig.Angle(pos, 0, dim) == pos as real
    ensures Times(trig.Angle(pos, i + 1, dim), trig.pow(2.0 / dim as real)) == trig.Angle(pos, i, dim)
    ensures dim == 2 * i ==> Times(trig.Angle(pos, i, dim), trig.pow(1.0)) == pos as real
  {
    hide Times, IsPower;
    FirstFrequency(trig, pos, dim);
    NextFrequency(trig, pos, i, dim);
    if dim == 2 * i {
      LastFrequency(trig, pos, i, dim);
    }
  }

  lemma FirstFrequency(trig: Trig, pos: nat, dim: nat)
    requires trig.Valid() && IsPower(trig.pow) && dim > 0
    ensures trig.Angle(pos, 0, dim) == pos as real
  {
    hide Times;
    Exponents(0, dim);
    assert (2 * 0) as real / dim as real == 0.0;
  }

  lemma NextFrequency(trig: Trig, pos: nat, i: nat, dim: nat)
    requires trig.Valid() && IsPower(trig.pow) && dim > 0
    ensures Times(trig.Angle(pos, i + 1, dim), trig.pow(2.0 / dim as real)) == trig.Angle(pos, i, dim)
  {
    var e, step, next := (2 * i) as real / dim as real, 2.0 / dim as real, (2 * (i + 1)) as real / dim as real;
    hide Times, Trig.Valid;
    Exponents(i, dim);
    assert trig.pow(e) > 0.0 && trig.pow(step) > 0.0;
    assert Times(trig.pow(e), trig.pow(step)) == trig.pow(e + step) == trig.pow(next);
    Slower(pos as real, trig.pow(e), trig.pow(step));
  }

  lemma LastFrequency(trig: Trig, pos: nat, i: nat, dim: nat)
    requires trig.Valid() && dim > 0 && dim == 2 * i
    ensures Times(trig.Angle(pos, i, dim), trig.pow(1.0)) == pos as real
  {
    Exponents(i, dim);
    Multiplies(pos as real, trig.pow(1.0));
  }

  lemma Slower(a: real, p: real, q: real)
    requires p > 0.0 && q > 0.0
    ensures Times(p, q) > 0.0 && Times(a / Times(p, q), q) == a / p
  {
    var x := a / Times(p, q);
    assert x * (p * q) == a;
    assert (x * q) * p == a;
    assert (x * q - a / p) * p == 0.0;
  }

  /** Positions add up as angles do. */
  lemma AnglesAdd(trig: Trig, m: nat, n: nat, i: nat, dim: nat)
    requires trig.Valid() && dim > 0
    ensures trig.Angle(m + n, i, dim) == trig.Angle(m, i, dim) + trig.Angle(n, i, dim)
  {
    SumOver(m as real, n as real, trig.pow((2 * i) as real / dim as real));
  }

  /** The addition formulas. */
  lemma Added(trig: Trig, t: real, a: real)
    requires trig.Valid()
    ensures trig.cos(t) * trig.cos(a) - trig.sin(t) * trig.sin(a) == trig.cos(t + a)
    ensures trig.sin(t) * trig.cos(a) + trig.cos(t) * trig.sin(a) == trig.sin(t + a)
  {
    AnglesDiffer(trig, 0.0, 0.0);
    AnglesDiffer(trig, 0.0, a);
    AnglesDiffer(trig, t, -a);
    assert t - (-a) == t + a && 0.0 - a == -a;
    assert trig.sin(0.0) == 0.0;
    assert trig.cos(-a) == trig.cos(a) && trig.sin(-a) == -trig.sin(a);
  }

  /** A pair at angle t and distance r is turned to angle t plus the position's angle, at the same distance. */
  lemma TurnsBy(trig: Trig, dim: nat, pos: nat, x: nat -> real, i: nat, r: real, t: real)
    requires trig.Valid() && 2 * i + 1 < dim
    requires x(2 * i) == Times(r, trig.cos(t)) && x(2 * i + 1) == Times(r, trig.sin(t))
    ensures var a := trig.Angle(pos, i, dim);
      && Turned(trig, dim, pos, x, 2 * i) == Times(r, trig.cos(t + a))
      && Turned(trig, dim, pos, x, 2 * i + 1) == Times(r, trig.sin(t + a))
  {
    hide Trig.Angle, Turned, Trig.Valid;
    CanDivide(trig, i, dim);
    var a := trig.Angle(pos, i, dim);
    TurnedPair(trig, dim, pos, x, i);
    Added(trig, t, a);
    PairAt(r, trig.cos(t), trig.sin(t), trig.cos(a), trig.sin(a));
  }

  lemma PairAt(r: real, ct: real, st: real, ca: real, sa: real)
    ensures First(Times(r, ct), Times(r, st), ca, sa) == Times(r, ct * ca - st * sa)
    ensures Second(Times(r, ct), Times(r, st), ca, sa) == Times(r, st * ca + ct * sa)
  {
  }
}
