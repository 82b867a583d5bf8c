/** The pure helpers of the blade's utility library: clamping, axis tests,
    side flipping, the mass modifier, minimum-by-key selection, the
    de-duplicated area push shared by `Explosion` and `PushForce`, and the
    cone filter over a sphere cast. Engine queries (overlap and sphere casts)
    are inputs: lists of hits whose angles and bodies are already known. */
module Utils {
  import opened Base

  /** `SafetyClamp`: clamps a magnitude to [-1000, 1000]. */
  function SafetyClamp(x: real): (r: real)
    ensures -1000.0 <= r <= 1000.0
    ensures -1000.0 <= x <= 1000.0 ==> r == x
    ensures x < -1000.0 ==> r == -1000.0
    ensures x > 1000.0 ==> r == 1000.0
  {
    Clamp(x, -1000.0, 1000.0)
  }

  /** The x component strictly dominates the other two. */
  predicate MostlyX(v: Vec3) {
    Abs(v.x) > Abs(v.y) && Abs(v.x) > Abs(v.z)
  }

  predicate MostlyY(v: Vec3) {
    Abs(v.y) > Abs(v.x) && Abs(v.y) > Abs(v.z)
  }

  predicate MostlyZ(v: Vec3) {
    Abs(v.z) > Abs(v.x) && Abs(v.z) > Abs(v.y)
  }

  /** The largest absolute component is shared by at least two axes. */
  predicate TopTie(v: Vec3) {
    var m := Max(Max(Abs(v.x), Abs(v.y)), Abs(v.z));
    (Abs(v.x) == m && Abs(v.y) == m) || (Abs(v.x) == m && Abs(v.z) == m) || (Abs(v.y) == m && Abs(v.z) == m)
  }

  /** Because every comparison is strict, at most one axis test holds, and
      none holds exactly when the largest component is tied. */
  lemma MostlyExclusive(v: Vec3)
    ensures !(MostlyX(v) && MostlyY(v)) && !(MostlyX(v) && MostlyZ(v)) && !(MostlyY(v) && MostlyZ(v))
    ensures !MostlyX(v) && !MostlyY(v) && !MostlyZ(v) <==> TopTie(v)
  {
  }

  /** `Side.Other`. */
  function Other(s: Side): (r: Side)
    ensures r != s
  {
    if s == Left then Right else Left
  }

  /** Flipping a side twice gives it back. */
  lemma OtherInvolutive(s: Side)
    ensures Other(Other(s)) == s
    ensures Other(s) != s
  {
  }

  /** `GetMassModifier`: light items (mass below 1) are tripled. */
  function GetMassModifier(mass: real): (r: real)
    ensures mass >= 1.0 ==> r == mass
    ensures mass < 1.0 ==> r == 3.0 * mass
    ensures 0.0 <= mass ==> mass <= r <= 3.0 * mass
    ensures r > 0.0 <==> mass > 0.0
    ensures r == mass <==> (mass >= 1.0 || mass == 0.0)
  {
    if mass < 1.0 then mass * 3.0 else mass
  }

  /** `m` is the first position holding the smallest key. */
  predicate FirstMinimal<T>(xs: seq<T>, key: T -> real, m: nat) {
    && m < |xs|
    && (forall j :: 0 <= j < |xs| ==> key(xs[m]) <= key(xs[j]))
    && (forall j :: 0 <= j < m ==> key(xs[m]) < key(xs[j]))
  }

  /** The left fold `MinBy` performs: the running minimum is replaced only
      by a strictly smaller key, so ties keep the earlier element. */
  function MinIndex<T>(xs: seq<T>, key: T -> real): (m: nat)
    requires |xs| > 0
    ensures FirstMinimal(xs, key, m)
    decreases |xs|
  {
    if |xs| == 1 then 0
    else
      var p := MinIndex(xs[..|xs| - 1], key);
      if key(xs[|xs| - 1]) < key(xs[p]) then |xs| - 1 else p
  }

  /** `MinBy`: the type's default (here `None`) for an empty sequence,
      otherwise the first element with the least key. */
  function MinBy<T>(xs: seq<T>, key: T -> real): (r: Option<T>)
    ensures r.None? <==> |xs| == 0
    ensures r.Some? ==> exists m: nat :: FirstMinimal(xs, key, m) && xs[m] == r.value
  {
    if |xs| == 0 then None
    else
      var m := MinIndex(xs, key);
      Some(xs[m])
  }

  /** `MinBy`'s answer has a key no greater than any element's. */
  lemma MinByLeast<T>(xs: seq<T>, key: T -> real)
    ensures MinBy(xs, key).Some? ==> forall x :: x in xs ==> key(MinBy(xs, key).value) <= key(x)
  {
    var r := MinBy(xs, key);
    if r.Some? {
      var m: nat :| FirstMinimal(xs, key, m) && xs[m] == r.value;
      forall x | x in xs ensures key(r.value) <= key(x) {
        var j :| 0 <= j < |xs| && xs[j] == x;
      }
    }
  }

  // ---------------------------------------------------------------------
  // Explosion / PushForce

  datatype Layer = PlayerHandAndFoot | PlayerLocomotion | PlayerLocomotionObject | OtherLayer

  /** A rigid body met by the cast, with the layer of its game object. */
  datatype Body = Body(id: nat, layer: Layer, mass: real)

  /** One collider returned by the overlap or sphere cast: its attached
      body (if any) and the creature it belongs to (if any). */
  datatype Collider = Collider(body: Option<Body>, creature: Option<nat>)

  /** What the helper does to the world: an impulse on a body scaled by a
      modifier, or a push of a creature (with an optional disarm). */
  datatype Impact = Impulse(body: Body, modifier: real) | Push(creature: nat, disarm: bool)

  predicate PlayerLayer(l: Layer) {
    l != OtherLayer
  }

  /** Mass compensation: light bodies are doubled; without compensation
      the modifier is 1. */
  function ForceModifier(mass: real, massCompensation: bool): (r: real)
    ensures !massCompensation ==> r == 1.0
    ensures massCompensation && mass >= 1.0 ==> r == mass
    ensures massCompensation && mass < 1.0 ==> r == 2.0 * mass
  {
    if !massCompensation then 1.0
    else if mass < 1.0 then mass * 2.0 else mass
  }

  /** The two mass corrections agree on bodies of mass 1 or more and
      differ only in the factor for light bodies (3 against 2), so a
      light positive body always gets more from `GetMassModifier`; neither
      correction is monotone across mass 1. */
  lemma MassModifiersAgree(mass: real)
    ensures mass >= 1.0 ==> ForceModifier(mass, true) == GetMassModifier(mass)
    ensures mass < 1.0 ==> 3.0 * ForceModifier(mass, true) == 2.0 * GetMassModifier(mass)
    ensures 0.0 < mass < 1.0 ==> ForceModifier(mass, true) < GetMassModifier(mass)
    ensures GetMassModifier(0.9) > GetMassModifier(1.0) && ForceModifier(0.9, true) > ForceModifier(1.0, true)
  {
  }

  /** The collider loop shared by `Explosion` and `PushForce`. A body is
      impulsed the first time it is seen; a collider of an already seen body
      may push its creature, once per creature. */
  function Walk(cs: seq<Collider>, massCompensation: bool, disarm: bool,
                seenBodies: set<Body>, seenCreatures: set<nat>): (r: seq<Impact>)
    ensures forall i :: 0 <= i < |r| && r[i].Impulse? ==>
              r[i].body !in seenBodies && !PlayerLayer(r[i].body.layer)
              && r[i].modifier == ForceModifier(r[i].body.mass, massCompensation)
    ensures forall i :: 0 <= i < |r| && r[i].Push? ==> r[i].creature !in seenCreatures
    ensures forall i, j :: 0 <= i < j < |r| && r[i].Impulse? && r[j].Impulse? ==> r[i].body != r[j].body
    ensures forall i, j :: 0 <= i < j < |r| && r[i].Push? && r[j].Push? ==> r[i].creature != r[j].creature
    ensures forall k :: (0 <= k < |cs| && cs[k].body.Some? && !PlayerLayer(cs[k].body.value.layer)
                         && cs[k].body.value !in seenBodies) ==>
              Impulse(cs[k].body.value, ForceModifier(cs[k].body.value.mass, massCompensation)) in r
    decreases |cs|
  {
    if |cs| == 0 then []
    else
      var c := cs[0];
      var rest := cs[1..];
      assert forall k :: 1 <= k < |cs| ==> cs[k] == rest[k - 1];
      if c.body.None? || PlayerLayer(c.body.value.layer) then
        Walk(rest, massCompensation, disarm, seenBodies, seenCreatures)
      else if c.body.value !in seenBodies then
        var b := c.body.value;
        [Impulse(b, ForceModifier(b.mass, massCompensation))]
          + Walk(rest, massCompensation, disarm, seenBodies + {b}, seenCreatures)
      else if c.creature.Some? && c.creature.value !in seenCreatures then
        [Push(c.creature.value, disarm)]
          + Walk(rest, massCompensation, disarm, seenBodies, seenCreatures + {c.creature.value})
      else
        Walk(rest, massCompensation, disarm, seenBodies, seenCreatures)
  }

  /** `Explosion` and `PushForce`: the walk starts having already "seen" the
      player creature, so the player is never pushed. */
  function Impacts(cs: seq<Collider>, massCompensation: bool, disarm: bool, player: nat): (r: seq<Impact>)
    ensures forall i :: 0 <= i < |r| && r[i].Impulse? ==> !PlayerLayer(r[i].body.layer)
    ensures forall i :: 0 <= i < |r| && r[i].Push? ==> r[i].creature != player
    ensures forall i, j :: 0 <= i < j < |r| && r[i].Impulse? && r[j].Impulse? ==> r[i].body != r[j].body
    ensures forall i, j :: 0 <= i < j < |r| && r[i].Push? && r[j].Push? ==> r[i].creature != r[j].creature
    ensures !massCompensation ==> forall i :: 0 <= i < |r| && r[i].Impulse? ==> r[i].modifier == 1.0
    ensures forall k :: 0 <= k < |cs| && cs[k].body.Some? && !PlayerLayer(cs[k].body.value.layer) ==>
              Impulse(cs[k].body.value, ForceModifier(cs[k].body.value.mass, massCompensation)) in r
  {
    Walk(cs, massCompensation, disarm, {}, {player})
  }

  // ---------------------------------------------------------------------
  // ConeCastAll

  /** A sphere-cast hit, reduced to the angle between the cast direction and
      the hit point, and (when the hit has a rigid body) the angle to that
      body's position. */
  datatype CastHit = CastHit(pointAngle: real, bodyAngle: Option<real>)

  predicate InCone(h: CastHit, coneAngle: real) {
    h.pointAngle < coneAngle || (h.bodyAngle.Some? && h.bodyAngle.value < coneAngle)
  }

  /** `ConeCastAll`: keeps, in order, the hits inside the cone. */
  function ConeCastAll(hits: seq<CastHit>, coneAngle: real): (r: seq<CastHit>)
    ensures |r| <= |hits|
    ensures forall h :: h in r ==> h in hits && InCone(h, coneAngle)
    ensures forall h :: h in hits && InCone(h, coneAngle) ==> h in r
    decreases |hits|
  {
    if |hits| == 0 then []
    else (if InCone(hits[0], coneAngle) then [hits[0]] else []) + ConeCastAll(hits[1..], coneAngle)
  }

  /** The filter distributes over concatenation, so it keeps the relative
      order of the hits it retains. */
  lemma {:induction false} ConeCastAllAppend(a: seq<CastHit>, b: seq<CastHit>, coneAngle: real)
    ensures ConeCastAll(a + b, coneAngle) == ConeCastAll(a, coneAngle) + ConeCastAll(b, coneAngle)
    decreases |a|
  {
    if |a| == 0 {
      assert a + b == b;
    } else {
      assert (a + b)[0] == a[0];
      assert (a + b)[1..] == a[1..] + b;
      ConeCastAllAppend(a[1..], b, coneAngle);
    }
  }
}
