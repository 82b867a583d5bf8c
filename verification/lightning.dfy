/** `LightningMode`: shard 11 held with a lightning spell. Holding the
    trigger builds a charge while the rings spin up; letting go fires a
    bolt at the best creature part in a cone, or else at the nearest thing
    straight ahead, or else at a point fifty units out, followed by an
    explosion there. After each shot the trigger is dead for a second,
    and the rings widen and spin fast while that cooldown runs down. */
module Lightning {
  import opened Base
  import opened Utils
  import opened Annotations
  import opened ModeInput
  import opened Blade
  import opened Poses
  import opened GrabbedModes

  datatype LightningState = LightningState(
    core: ModeCore,
    rotation: real,
    charge: Option<Effect>,    // chargeEffect
    chargeLevel: real,         // the intensity last given to it
    wasPressed: bool)

  /** `cooldown`, the time the rings take to settle after a shot, and
      the trigger delay `Cooldown()` gives the input base. */
  const ChargeCooldown: real := 1.0
  const TriggerCooldown: real := 1.0

  /** The shot's damage, and the explosion that follows it. */
  const Damage: real := 50.0
  const ExplosionForce: real := 50.0
  const ExplosionRadius: real := 3.0

  /** Within the trigger delay after a release the trigger cannot fire
      again, not even its held callback. */
  lemma TriggerDead(i: Inputs, raw: bool, button: bool, now: real)
    requires now - i.lastTriggerReleased <= 1.0
    ensures Pressed(Trigger) !in CheckInputs(i, TriggerReads(raw, now, i.lastTriggerReleased, TriggerCooldown), button).1
    ensures Held(Trigger) !in CheckInputs(i, TriggerReads(raw, now, i.lastTriggerReleased, TriggerCooldown), button).1
  {
    CooldownBlocksPress(i, raw, button, now, TriggerCooldown);
  }

  // ---------------------------------------------------------------------
  // The cooldown ratio

  /** `CooldownTime`: 1 at the moment of release, falling linearly to 0
      as the cooldown runs out. */
  function CooldownTime(now: real, lastTriggerReleased: real): (c: real)
    ensures 0.0 <= c <= 1.0
    ensures now <= lastTriggerReleased ==> c == 1.0
    ensures now - lastTriggerReleased >= ChargeCooldown ==> c == 0.0
    ensures 0.0 <= now - lastTriggerReleased <= ChargeCooldown ==> c == 1.0 - (now - lastTriggerReleased)
  {
    1.0 - Clamp01(InverseLerp(0.0, ChargeCooldown, now - lastTriggerReleased))
  }

  /** The ratio only falls as time passes. */
  lemma CooldownTimeFalls(now1: real, now2: real, released: real)
    requires now1 <= now2
    ensures CooldownTime(now2, released) <= CooldownTime(now1, released)
  {
  }

  /** The idle spin: 80 degrees a second, five times that right after a
      shot. */
  function IdleRate(c: real): (r: real)
    requires 0.0 <= c <= 1.0
    ensures 80.0 <= r <= 400.0
    ensures c == 0.0 ==> r == 80.0
    ensures c == 1.0 ==> r == 400.0
  {
    80.0 * (1.0 + c * 4.0)
  }

  /** The idle spin slows as the cooldown runs down. */
  lemma IdleRateSlows(now1: real, now2: real, released: real)
    requires now1 <= now2
    ensures IdleRate(CooldownTime(now2, released)) <= IdleRate(CooldownTime(now1, released))
  {
    CooldownTimeFalls(now1, now2, released);
  }

  // ---------------------------------------------------------------------
  // Poses

  /** A pose: a placement, whether it is around the palm rather than the
      mode's centre, and the amplitude of the random shake along the
      pointing direction (the shake itself is random). */
  datatype LightningPose = LightningPose(p: Placement, aroundPalm: bool, shake: real)

  /** `GetPos`: poses 1 and 2 ahead of the centre; 3..9 on a ring of seven
      around the palm, 0.2 behind it, turning with the rotation; the rest
      on a ring of five around the palm turning against it. The distances
      and ring radii grow with the cooldown ratio `c`; while the trigger
      reads pressed the outer ring shakes by `c` and the inner ring by
      the charge so far. */
  function GetPos(i: int, c: real, rotation: real, trigger: bool, charged: real): (r: LightningPose)
    ensures i == 1 ==> r == LightningPose(Placement(Ahead, 1, 1, 0.0, 0.0, 0.1 + c * 0.1), false, 0.0)
    ensures i == 2 ==> r == LightningPose(Placement(Ahead, 2, 1, 0.0, 0.0, 0.3 + c * 0.2), false, 0.0)
    ensures i != 1 && i != 2 && i < 10 ==>
              r == LightningPose(Placement(OuterRing, i - 2, 7, 0.15 + c * 0.1, RingAngle(i - 2, 7, rotation), -0.2),
                                 true, if trigger then 0.1 * c else 0.0)
    ensures 10 <= i ==>
              r == LightningPose(Placement(InnerRing, i - 10, 5, 0.1 + c * 0.1, RingAngle(i - 10, 5, -rotation), 0.0),
                                 true, if trigger then 0.1 * charged else 0.0)
  {
    if i == 1 then LightningPose(Placement(Ahead, 1, 1, 0.0, 0.0, 0.1 + c * 0.1), false, 0.0)
    else if i == 2 then LightningPose(Placement(Ahead, 2, 1, 0.0, 0.0, 0.3 + c * 0.2), false, 0.0)
    else if i < 10 then
      LightningPose(Placement(OuterRing, i - 2, 7, 0.15 + c * 0.1, RingAngle(i - 2, 7, rotation), -0.2),
                    true, if trigger then 0.1 * c else 0.0)
    else
      LightningPose(Placement(InnerRing, i - 10, 5, 0.1 + c * 0.1, RingAngle(i - 10, 5, -rotation), 0.0),
                    true, if trigger then 0.1 * charged else 0.0)
  }

  /** With the ratio in [0, 1] the two front shards stay ahead of the
      centre, the rings' radii stay between their resting and widest
      values, and nothing shakes unless the trigger reads pressed. */
  lemma GetPosBounds(i: int, c: real, rotation: real, trigger: bool, charged: real)
    requires 1 <= i <= 14 && 0.0 <= c <= 1.0 && 0.0 <= charged <= 1.0
    ensures var r := GetPos(i, c, rotation, trigger, charged);
            i <= 2 ==> r.p.group == Ahead && 0.1 <= r.p.forward <= 0.5 && !r.aroundPalm
    ensures var r := GetPos(i, c, rotation, trigger, charged);
            3 <= i < 10 ==> r.p.group == OuterRing && 0.15 <= r.p.radius <= 0.25 && r.aroundPalm
    ensures var r := GetPos(i, c, rotation, trigger, charged);
            10 <= i ==> r.p.group == InnerRing && 0.1 <= r.p.radius <= 0.2 && r.aroundPalm
    ensures var r := GetPos(i, c, rotation, trigger, charged);
            0.0 <= r.shake <= 0.1 && (!trigger ==> r.shake == 0.0)
  {
  }

  // ---------------------------------------------------------------------
  // Aiming

  /** A creature part the cone cast found, with the score the query
      orders by (distance over 30, times 2, times the angle off the
      pointing direction over 50). */
  datatype PartHit = PartHit(id: nat, distance: real, angle: real)

  function PartScore(p: PartHit): real {
    p.distance / 30.0 * 2.0 * p.angle / 50.0
  }

  /** `GetRagdollPartHit`: the first part with the least score, or none. */
  function PartHitFor(parts: seq<PartHit>): (r: Option<PartHit>)
    ensures r.None? <==> |parts| == 0
    ensures r.Some? ==> r.value in parts && forall p :: p in parts ==> PartScore(r.value) <= PartScore(p)
  {
    MinByLeast(parts, PartScore);
    MinBy(parts, PartScore)
  }

  /** A ray hit, with its distance from the centre, whether the body hit
      belongs to one of the sword's shards, and whether it belongs to the
      player. A hit without a body belongs to neither. */
  datatype RayHit = RayHit(id: nat, distance: real, onShard: bool, onPlayer: bool)

  predicate Qualifies(h: RayHit) {
    !h.onShard && !h.onPlayer
  }

  function Distance(h: RayHit): real {
    h.distance
  }

  /** The hits the query keeps, in ray order. */
  function Qualifying(hits: seq<RayHit>): (r: seq<RayHit>)
    ensures forall h :: h in r <==> h in hits && Qualifies(h)
    ensures r == [] <==> forall h :: h in hits ==> !Qualifies(h)
    decreases |hits|
  {
    if |hits| == 0 then []
    else
      assert hits == [hits[0]] + hits[1..];
      (if Qualifies(hits[0]) then [hits[0]] else []) + Qualifying(hits[1..])
  }

  /** Where the bolt goes: a creature part, a ray hit, or fifty units
      straight ahead of the centre. */
  datatype Strike = AtPart(part: nat) | AtHit(hit: nat) | FarAhead

  /** `GetTargetPoint`: the nearest hit that is neither a shard nor the
      player, or fifty units ahead when there is none. */
  function TargetPoint(hits: seq<RayHit>): (r: Strike)
    ensures r.FarAhead? <==> forall h :: h in hits ==> !Qualifies(h)
    ensures !r.AtPart?
    ensures r.AtHit? ==> exists h :: h in hits && Qualifies(h) && h.id == r.hit &&
                          forall k :: k in hits && Qualifies(k) ==> h.distance <= k.distance
  {
    var q := Qualifying(hits);
    MinByLeast(q, Distance);
    var m := MinBy(q, Distance);
    if m.Some? then
      assert m.value in q;
      AtHit(m.value.id)
    else FarAhead
  }

  /** The bolt's target: the part hit when there is one, the target point
      otherwise. */
  function StrikeFor(parts: seq<PartHit>, hits: seq<RayHit>): (r: Strike)
    ensures |parts| > 0 ==> r == AtPart(PartHitFor(parts).value.id)
    ensures |parts| == 0 ==> r == TargetPoint(hits)
  {
    var p := PartHitFor(parts);
    if p.Some? then AtPart(p.value.id) else TargetPoint(hits)
  }

  // ---------------------------------------------------------------------
  // Callbacks

  /** What a frame does to the world outside the mode. */
  datatype Act =
    | Bolt(to: Strike)                                  // the lightning effect, from shard 11
    | Shock(part: nat, damage: real)                    // damage and a shock on the creature hit
    | Explode(at: Strike, force: real, radius: real)    // 0.5 short of the target

  /** What a frame's callbacks see besides the mode: the time, the
      frame's duration, and the two queries' results. */
  datatype Frame = Frame(now: real, dt: real, parts: seq<PartHit>, hits: seq<RayHit>)

  /** A shot: the bolt, the shock when a part was hit, and the
      explosion. */
  function Shot(parts: seq<PartHit>, hits: seq<RayHit>): (r: seq<Act>)
    ensures |r| >= 2 && r[0] == Bolt(StrikeFor(parts, hits)) && r[|r| - 1] == Explode(StrikeFor(parts, hits), 50.0, 3.0)
    ensures |r| == 3 <==> |parts| > 0
    ensures |parts| > 0 ==> r[1] == Shock(PartHitFor(parts).value.id, 50.0)
    ensures forall k :: 0 < k < |r| ==> !r[k].Bolt?
  {
    var s := StrikeFor(parts, hits);
    var p := PartHitFor(parts);
    [Bolt(s)] + (if p.Some? then [Shock(p.value.id, Damage)] else []) + [Explode(s, ExplosionForce, ExplosionRadius)]
  }

  function Record(x: LightningState, e: InputEvent, now: real): (r: LightningState)
    ensures r == x.(core := x.core.(inputs := BaseCallback(x.core.inputs, e, now)))
  {
    x.(core := x.core.(inputs := BaseCallback(x.core.inputs, e, now)))
  }

  /** `OnTriggerPressed`: the press time is recorded and a charge effect
      is spawned and played. */
  function OnTriggerPressed(x: LightningState, f: Frame): (r: LightningState)
    ensures r == x.(core := r.core, charge := Some(Playing))
    ensures r.core.inputs == x.core.inputs.(lastTriggerPress := f.now)
  {
    Record(x, Pressed(Trigger), f.now).(charge := Some(Playing))
  }

  /** `OnTriggerHeld`: the shot is armed, the rings spin at the ramped
      rate and the charge grows with the time since the press. */
  function OnTriggerHeld(x: LightningState, f: Frame): (r: LightningState)
    ensures r.wasPressed && r.core == x.core && r.charge == x.charge
    ensures r.rotation == Turn(x.rotation, f.dt, SpinRate(true, f.now, x.core.inputs.lastTriggerPress))
    ensures x.charge.Some? ==> r.chargeLevel == Clamp01(f.now - x.core.inputs.lastTriggerPress)
    ensures x.charge.None? ==> r.chargeLevel == x.chargeLevel
  {
    var level := Clamp01(f.now - x.core.inputs.lastTriggerPress);
    x.(wasPressed := true,
       rotation := Turn(x.rotation, f.dt, SpinRate(true, f.now, x.core.inputs.lastTriggerPress)),
       chargeLevel := if x.charge.Some? then level else x.chargeLevel)
  }

  /** `OnTriggerNotHeld`: the rings spin at the idle rate for the current
      cooldown ratio. */
  function OnTriggerNotHeld(x: LightningState, f: Frame): (r: LightningState)
    ensures r == x.(rotation := Turn(x.rotation, f.dt, IdleRate(CooldownTime(f.now, x.core.inputs.lastTriggerReleased))))
  {
    x.(rotation := Turn(x.rotation, f.dt, IdleRate(CooldownTime(f.now, x.core.inputs.lastTriggerReleased))))
  }

  /** `OnTriggerReleased`: the release time is recorded; an armed shot is
      disarmed, its charge ends and it fires. Unarmed, nothing else
      happens. */
  function OnTriggerReleased(x: LightningState, f: Frame): (r: (LightningState, seq<Act>))
    ensures r.0.core.inputs == x.core.inputs.(lastTriggerReleased := f.now)
    ensures !r.0.wasPressed && r.0.rotation == x.rotation
    ensures x.wasPressed ==> r.0.charge == EndEffect(x.charge) && r.1 == Shot(f.parts, f.hits)
    ensures !x.wasPressed ==> r.0.charge == x.charge && r.1 == []
  {
    var y := Record(x, Released(Trigger), f.now);
    if !x.wasPressed then (y, [])
    else (y.(wasPressed := false, charge := EndEffect(x.charge)), Shot(f.parts, f.hits))
  }

  /** A frame's callback log. */
  datatype Step = Step(x: LightningState, acts: seq<Act>)

  /** The mode's callback table: the four trigger overrides, and the
      default time-recording callbacks for the button. */
  function OnEvent(s: Step, e: InputEvent, f: Frame): (r: Step)
    ensures e.c == Button ==> r == Step(Record(s.x, e, f.now), s.acts)
    ensures e == Pressed(Trigger) ==> r == Step(OnTriggerPressed(s.x, f), s.acts)
    ensures e == Held(Trigger) ==> r == Step(OnTriggerHeld(s.x, f), s.acts)
    ensures e == NotHeld(Trigger) ==> r == Step(OnTriggerNotHeld(s.x, f), s.acts)
    ensures e == Released(Trigger) ==> r == Step(OnTriggerReleased(s.x, f).0, s.acts + OnTriggerReleased(s.x, f).1)
  {
    match e
    case Pressed(Trigger) => Step(OnTriggerPressed(s.x, f), s.acts)
    case Held(Trigger) => Step(OnTriggerHeld(s.x, f), s.acts)
    case NotHeld(Trigger) => Step(OnTriggerNotHeld(s.x, f), s.acts)
    case Released(Trigger) =>
      var r := OnTriggerReleased(s.x, f);
      Step(r.0, s.acts + r.1)
    case _ => Step(Record(s.x, e, f.now), s.acts)
  }

  function Callbacks(f: Frame): (cb: (Step, InputEvent) -> Step)
    ensures forall x: Step, e: InputEvent :: cb(x, e) == OnEvent(x, e, f)
  {
    (x: Step, e: InputEvent) => OnEvent(x, e, f)
  }

  /** The button's callbacks only record times. */
  lemma {:induction false} ButtonKeeps(s: Step, es: seq<InputEvent>, f: Frame)
    requires forall e :: e in es ==> e.c == Button
    ensures var d := Dispatch(s, es, Callbacks(f));
            d.acts == s.acts && d.x.wasPressed == s.x.wasPressed && d.x.charge == s.x.charge
            && d.x.rotation == s.x.rotation && d.x.core.inputs.wasTrigger == s.x.core.inputs.wasTrigger
    decreases |es|
  {
    if |es| > 0 {
      assert es[0] in es;
      assert forall e :: e in es[1..] ==> e in es;
      ButtonKeeps(OnEvent(s, es[0], f), es[1..], f);
    }
  }

  /** The trigger's callbacks for a frame, dispatched on their own: a
      press spawns the charge and arms the shot, holding keeps it armed,
      and a release fires exactly the armed shot. */
  lemma TriggerPart(s: Step, was: bool, down: bool, f: Frame)
    ensures var d := Dispatch(s, ControlEvents(Trigger, was, down), Callbacks(f));
            down ==> d.x.wasPressed && d.acts == s.acts && d.x.charge == (if was then s.x.charge else Some(Playing))
    ensures var d := Dispatch(s, ControlEvents(Trigger, was, down), Callbacks(f));
            !down && was ==> !d.x.wasPressed &&
                             d.acts == s.acts + (if s.x.wasPressed then Shot(f.parts, f.hits) else []) &&
                             d.x.charge == (if s.x.wasPressed then EndEffect(s.x.charge) else s.x.charge)
    ensures var d := Dispatch(s, ControlEvents(Trigger, was, down), Callbacks(f));
            !down && !was ==> d.x.wasPressed == s.x.wasPressed && d.acts == s.acts && d.x.charge == s.x.charge
    ensures Dispatch(s, ControlEvents(Trigger, was, down), Callbacks(f)).x.core.inputs.wasTrigger == s.x.core.inputs.wasTrigger
  {
    var cb := Callbacks(f);
    if down && !was {
      DispatchShort(s, Pressed(Trigger), Held(Trigger), cb);
    } else if down {
      DispatchShort(s, Held(Trigger), Held(Trigger), cb);
    } else if was {
      DispatchShort(s, Released(Trigger), NotHeld(Trigger), cb);
    } else {
      DispatchShort(s, NotHeld(Trigger), NotHeld(Trigger), cb);
    }
  }

  // ---------------------------------------------------------------------
  // One frame

  /** What a frame leaves behind: the mode, what it did to the world, and
      the pose of every guide the pose loop walks. */
  datatype FrameResult = FrameResult(x: LightningState, acts: seq<Act>, poses: seq<(nat, LightningPose)>)

  const ReleaseText := "Release to fire"
  const ChargeText := "Hold Trigger to charge"

  /** `GetUseAnnotation`: what to do next with the trigger. */
  function UseText(trigger: bool): (r: string)
    ensures r == ReleaseText <==> trigger
    ensures r == ChargeText <==> !trigger
  {
    if trigger then ReleaseText else ChargeText
  }

  /** The controls read for the frame, the trigger through the one-second
      delay, and the callbacks they fire. */
  function Polled(x: LightningState, h: Holder, now: real): (ModeCore, seq<InputEvent>) {
    Poll(x.core, h, now, TriggerCooldown)
  }

  function Start(x: LightningState, h: Holder, now: real): Step {
    Step(x.(core := Polled(x, h, now).0), [])
  }

  /** The input half of `Update`. */
  function Dispatched(x: LightningState, h: Holder, f: Frame): Step {
    Dispatch(Start(x, h, f.now), Polled(x, h, f.now).1, Callbacks(f))
  }

  /** The rest of `Update`: the trigger label is pushed when its text
      changes and the button label stays hidden; the guides take their
      poses for the trigger reading, the cooldown ratio and the charge
      after the callbacks. */
  function Finish(s: Step, h: Holder, now: real): (r: FrameResult)
    ensures r.x == s.x.(core := r.x.core) && r.acts == s.acts
    ensures r.x.core.inputs == s.x.core.inputs
    ensures !r.x.core.altUse.ann.visible
    ensures |r.poses| == |s.x.core.jointParts|
    ensures var i := s.x.core.inputs;
            var trigger := TriggerReads(h.trigger, now, i.lastTriggerReleased, TriggerCooldown);
            forall j :: 0 <= j < |r.poses| ==>
              r.poses[j].1 == GetPos(j + 1, CooldownTime(now, i.lastTriggerReleased), s.x.rotation, trigger,
                                     Clamp01(now - i.lastTriggerPress))
  {
    var i := s.x.core.inputs;
    var trigger := TriggerReads(h.trigger, now, i.lastTriggerReleased, TriggerCooldown);
    var core := RefreshLabels(s.x.core, h.side, true, UseText(trigger), false, "");
    var c := CooldownTime(now, i.lastTriggerReleased);
    var charged := Clamp01(now - i.lastTriggerPress);
    var poses := PoseLoop(core.jointParts, k => GetPos(k, c, s.x.rotation, trigger, charged));
    FrameResult(s.x.(core := core), s.acts, poses)
  }

  /** `Update`: the grabbed-shard base's dispatch, labels and pose loop.
      `h` is the holder of shard 11. Every frame keeps the shot armed with
      the trigger and fires exactly when its trigger reading falls: one
      bolt, at the target the queries give. So every press discharges
      once, and the charge effect the release ends always exists. */
  function Update(x: LightningState, h: Holder, f: Frame): (r: FrameResult)
    ensures Armed(x) ==> Armed(r.x)
    ensures Armed(x) ==>
              var fell := x.core.inputs.wasTrigger && !TriggerReads(h.trigger, f.now, x.core.inputs.lastTriggerReleased, TriggerCooldown);
              r.acts == if fell then Shot(f.parts, f.hits) else []
    ensures !r.x.core.altUse.ann.visible
  {
    if Armed(x) then
      DispatchedDischargesOncePerPress(x, h, f);
      Finish(Dispatched(x, h, f), h, f.now)
    else Finish(Dispatched(x, h, f), h, f.now)
  }

  /** Between frames the shot is armed exactly while the trigger's edge
      flag is up, and an armed shot has a playing charge. */
  predicate Armed(x: LightningState) {
    && x.wasPressed == x.core.inputs.wasTrigger
    && (x.wasPressed ==> x.charge == Some(Playing))
  }

  /** The callbacks of a frame keep the shot armed with the trigger and
      fire exactly when the trigger reading falls. */
  lemma DispatchedDischargesOncePerPress(x: LightningState, h: Holder, f: Frame)
    requires Armed(x)
    ensures Armed(Dispatched(x, h, f).x)
    ensures var fell := x.core.inputs.wasTrigger && !TriggerReads(h.trigger, f.now, x.core.inputs.lastTriggerReleased, TriggerCooldown);
            Dispatched(x, h, f).acts == if fell then Shot(f.parts, f.hits) else []
  {
    var down := TriggerReads(h.trigger, f.now, x.core.inputs.lastTriggerReleased, TriggerCooldown);
    var cb := Callbacks(f);
    var s0 := Start(x, h, f.now);
    var t := ControlEvents(Trigger, x.core.inputs.wasTrigger, down);
    var b := ControlEvents(Button, x.core.inputs.wasButton, h.button);
    CheckInputsOrder(x.core.inputs, down, h.button);
    assert Polled(x, h, f.now).1 == t + b;
    assert s0.x.wasPressed == x.wasPressed && s0.x.charge == x.charge && s0.x.core.inputs.wasTrigger == down;
    DispatchAppend(s0, t, b, cb);
    TriggerPart(s0, x.core.inputs.wasTrigger, down, f);
    ButtonKeeps(Dispatch(s0, t, cb), b, f);
  }

  /** A frame's shot, when it fires, is one bolt, a shock exactly when the
      cone found a creature part, and the explosion. */
  lemma ShotBoltsOnce(parts: seq<PartHit>, hits: seq<RayHit>)
    ensures multiset(Shot(parts, hits))[Bolt(StrikeFor(parts, hits))] == 1
    ensures forall k :: 0 <= k < |Shot(parts, hits)| && Shot(parts, hits)[k].Bolt? ==> k == 0
  {
    var r := Shot(parts, hits);
    var s := StrikeFor(parts, hits);
    var p := PartHitFor(parts);
    assert r == [Bolt(s)] + ((if p.Some? then [Shock(p.value.id, Damage)] else []) + [Explode(s, ExplosionForce, ExplosionRadius)]);
  }

  // ---------------------------------------------------------------------
  // Entry and exit

  /** `Enter`: the grabbed-shard entry on shard 11, unarmed, without a
      charge, the rings at rest. */
  function Enter(sw: Sword, side: Side, now: real): (r: (Sword, LightningState))
    requires SpellTarget in sw.parts
    ensures r.0 == EnterCore(sw, Grabbed, SpellTarget, side, now).0
    ensures r.1.core == EnterCore(sw, Grabbed, SpellTarget, side, now).1
    ensures Armed(r.1) && !r.1.wasPressed && r.1.charge.None? && r.1.rotation == 0.0
  {
    var e := EnterCore(sw, Grabbed, SpellTarget, side, now);
    (e.0, LightningState(e.1, 0.0, None, 0.0, false))
  }

  /** `Exit`: the charge ends, then the grabbed-shard exit. */
  function Exit(sw: Sword, x: LightningState): (r: (Sword, LightningState))
    ensures r.0 == ExitCore(sw, x.core).0
    ensures r.1.charge == EndEffect(x.charge)
    ensures r.1 == x.(core := r.1.core, charge := r.1.charge)
  {
    var e := ExitCore(sw, x.core);
    (e.0, x.(core := e.1, charge := EndEffect(x.charge)))
  }
}
