/** Shared value types and the handful of Unity `Mathf` helpers the blade's
    logic is written in. Floats are modelled as `real`; the only IEEE corner
    the model needs (division by zero in the imbue ratio) is spelled out where
    it is used. */
module Base {

  /** Stands in for a nullable reference. */
  datatype Option<T> = None | Some(value: T)

  /** A 3-vector, used only where the model carries a velocity through
      unchanged or scales it. */
  datatype Vec3 = Vec3(x: real, y: real, z: real) {
    function Scale(k: real): Vec3 {
      Vec3(k * x, k * y, k * z)
    }
  }

  /** Which hand. */
  datatype Side = Left | Right

  /** An effect instance, once spawned: not yet played, playing, or
      ended. Ending it does not clear the field that holds it. */
  datatype Effect =
    | Spawned   // spawned but not yet played
    | Playing
    | Ended

  /** `effect?.End()`: a spawned effect ends; no effect stays none. */
  function EndEffect(e: Option<Effect>): (r: Option<Effect>)
    ensures r.Some? <==> e.Some?
    ensures r.Some? ==> r.value == Ended
  {
    if e.Some? then Some(Ended) else None
  }

  /** The charge spells the blade reacts to; `OtherSpell` is every other
      spell instance, and "no spell" is `None` where it can happen. */
  datatype SpellKind = Gravity | Lightning | Projectile | OtherSpell

  function Abs(x: real): (r: real)
    ensures r >= 0.0
    ensures r == x || r == -x
  {
    if x < 0.0 then -x else x
  }

  function Min(a: real, b: real): (r: real)
    ensures r <= a && r <= b
    ensures r == a || r == b
  {
    if a <= b then a else b
  }

  function Max(a: real, b: real): (r: real)
    ensures r >= a && r >= b
    ensures r == a || r == b
  {
    if a >= b then a else b
  }

  /** `Mathf.Clamp`: the lower bound is checked first. */
  function Clamp(v: real, lo: real, hi: real): (r: real)
    requires lo <= hi
    ensures lo <= r <= hi
    ensures lo <= v <= hi ==> r == v
    ensures v < lo ==> r == lo
    ensures v > hi ==> r == hi
  {
    if v < lo then lo else if v > hi then hi else v
  }

  /** `Mathf.Clamp01`. */
  function Clamp01(v: real): (r: real)
    ensures 0.0 <= r <= 1.0
    ensures 0.0 <= v <= 1.0 ==> r == v
    ensures v <= 0.0 ==> r == 0.0
    ensures v >= 1.0 ==> r == 1.0
  {
    Clamp(v, 0.0, 1.0)
  }

  /** `Mathf.Lerp`, which clamps its parameter to [0, 1]: the ends of the
      interval outside (0, 1), the straight line inside. */
  function Lerp(a: real, b: real, t: real): (r: real)
    ensures a <= b ==> a <= r <= b
    ensures b <= a ==> b <= r <= a
    ensures t <= 0.0 ==> r == a
    ensures t >= 1.0 ==> r == b
  {
    if t <= 0.0 then a
    else if t >= 1.0 then b
    else MulUnit(b - a, t); a + (b - a) * t
  }

  /** `Mathf.InverseLerp`: 0 when the interval is empty, otherwise the
      clamped position of `v` between `a` and `b`. */
  function InverseLerp(a: real, b: real, v: real): (r: real)
    ensures 0.0 <= r <= 1.0
    ensures a == b ==> r == 0.0
    ensures a != b && v == a ==> r == 0.0
    ensures a != b && v == b ==> r == 1.0
  {
    if a != b then
      var q := (v - a) / (b - a);
      assert v == a ==> q == 0.0 by {
        if v == a { assert v - a == 0.0; DivEnds(b - a); }
      }
      assert v == b ==> q == 1.0 by {
        if v == b { assert v - a == b - a; DivEnds(b - a); }
      }
      Clamp01(q)
    else 0.0
  }

  /** Zero over anything is zero, and anything nonzero over itself is one. */
  lemma DivEnds(d: real)
    requires d != 0.0
    ensures 0.0 / d == 0.0 && d / d == 1.0
  {
  }

  /** Scaling by a factor in [0, 1] stays between 0 and the scaled value. */
  lemma MulUnit(d: real, c: real)
    requires 0.0 <= c <= 1.0
    ensures d >= 0.0 ==> 0.0 <= d * c <= d
    ensures d <= 0.0 ==> d <= d * c <= 0.0
  {
    assert d - d * c == d * (1.0 - c);
  }

  /** Multiplying both sides by a non-negative factor keeps the order. */
  lemma MulMono(d: real, s: real, t: real)
    requires d >= 0.0 && s <= t
    ensures d * s <= d * t
  {
    assert d * t - d * s == d * (t - s);
  }

  /** Lerp is monotone in its parameter when the interval rises. */
  lemma LerpMonotone(a: real, b: real, s: real, t: real)
    requires a <= b && s <= t
    ensures Lerp(a, b, s) <= Lerp(a, b, t)
  {
    if s <= 0.0 {
      assert Lerp(a, b, s) == a;
    } else if t >= 1.0 {
      assert Lerp(a, b, t) == b;
    } else {
      var d, e := b - a, t - s;
      assert Lerp(a, b, t) - Lerp(a, b, s) == d * e;
      assert d * e >= 0.0;
    }
  }
}
