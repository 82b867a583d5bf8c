/** `FlamethrowerMode`: shard 11 held and imbued with fire. The trigger
    alone lights a cone of flame that burns what it touches and shoves with
    a volley of spheres; the trigger pulled with the button held lights
    three fire charges instead, which grow over a second and fly as
    fireballs when either control is let go after that second (and fizzle
    before it). The other shards stand on two counter-turning rings or,
    with the button held, gather in three clusters of four. Vector
    geometry, effect rendering, projectile physics and damage are reduced
    to the decisions that drive them. */
module Flamethrower {
  import opened Base
  import opened Annotations
  import opened ModeInput
  import opened Blade
  import opened Poses
  import opened GrabbedModes

  datatype FlameState = FlameState(
    core: ModeCore,
    rotation: real,
    flame: Option<Effect>,     // flameEffect
    charges: seq<real>,        // fireballEffects, by the intensity of each
    targets: seq<Placement>)   // fireballTargets, by where each stands

  /** What a frame does to the world outside the mode. */
  datatype Act =
    | Ignite                   // a flame effect spawned and played
    | Burn                     // one cone cast of fire damage
    | Spheres                  // `FireSpheres`: the volley of pushing spheres
    | Fireball(at: Placement)  // one fireball spawned and fired ahead

  // ---------------------------------------------------------------------
  // Poses

  /** How far ahead the charges float, and how far ahead the clusters
      around them stand. */
  const ChargeForward: real := 0.25
  const ClusterForward: real := 0.15

  /** `GetBasePos`: point `c` of three on a ring of radius 0.3 turning
      with the rotation. */
  function BasePos(c: int, rotation: real): (p: Placement)
    ensures p.group == Cluster && p.slot == c && p.size == 3
    ensures p.radius == 0.3 && p.forward == 0.0
    ensures p.angle == RingAngle(c, 3, rotation)
  {
    Placement(Cluster, c, 3, 0.3, RingAngle(c, 3, rotation), 0.0)
  }

  /** Where charge `c` floats, and where its fireball starts. */
  function ChargeTarget(c: int, rotation: real): (p: Placement)
    ensures p == BasePos(c, rotation).(forward := ChargeForward)
  {
    BasePos(c, rotation).(forward := ChargeForward)
  }

  /** The first `n` charge points at the given rotation, in order. */
  function ChargeTargets(n: nat, rotation: real): (r: seq<Placement>)
    ensures |r| == n
    ensures forall c :: 0 <= c < n ==> r[c] == ChargeTarget(c, rotation)
  {
    seq(n, c requires 0 <= c => ChargeTarget(c, rotation))
  }

  /** The three charge points stand a third of a turn apart, and the
      first stands at the rotation itself. */
  lemma ChargeTargetsSpread(rotation: real)
    ensures ChargeTargets(3, rotation)[0].angle == rotation
    ensures ChargeTargets(3, rotation)[1].angle - ChargeTargets(3, rotation)[0].angle == 120.0
    ensures ChargeTargets(3, rotation)[2].angle - ChargeTargets(3, rotation)[1].angle == 120.0
  {
  }

  /** A pose: a place relative to the mode's centre, or a place around a
      cluster whose own centre is given relative to the mode's centre. */
  datatype FlamePose = Single(p: Placement) | InCluster(cluster: Placement, member: Placement)

  /** `NormalPos`: pose 1 at the centre, pose 2 half a unit up, poses 3..9
      on an outer ring of seven (radius 0.3) turning with the rotation,
      the rest on an inner ring of five (radius 0.2) turning against it,
      counted from slot 1. */
  function NormalPos(i: int, rotation: real): (r: FlamePose)
    ensures r.Single?
    ensures i == 1 ==> r.p.group == Centre && r.p.radius == 0.0
    ensures i == 2 ==> r.p.group == Raised && r.p.radius == 0.5 && r.p.angle == 0.0
    ensures i != 1 && i != 2 && i < 10 ==> r.p == Placement(OuterRing, i - 2, 7, 0.3, RingAngle(i - 2, 7, rotation), 0.0)
    ensures 10 <= i ==> r.p == Placement(InnerRing, i - 9, 5, 0.2, RingAngle(i - 9, 5, -rotation), 0.0)
  {
    if i == 1 then Single(Placement(Centre, 0, 1, 0.0, 0.0, 0.0))
    else if i == 2 then Single(Placement(Raised, 0, 1, 0.5, 0.0, 0.0))
    else if i < 10 then Single(Placement(OuterRing, i - 2, 7, 0.3, RingAngle(i - 2, 7, rotation), 0.0))
    else Single(Placement(InnerRing, i - 9, 5, 0.2, RingAngle(i - 9, 5, -rotation), 0.0))
  }

  /** Which cluster a pressed pose joins and its place in it: the ring of
      base points is read modulo its three points, so pose 14, the only
      one the division sends to a fourth point, completes the first
      cluster. */
  function ClusterSlot(i: int): (r: (int, int))
    requires 3 <= i <= 14
    ensures 0 <= r.0 < 3 && 0 <= r.1 < 4
  {
    (((i - 2) / 4) % 3, (i - 2) % 4)
  }

  /** The pressed pose that lands on a given place of a given cluster. */
  function PressedIndex(c: int, m: int): (i: int)
    requires 0 <= c < 3 && 0 <= m < 4
    ensures 3 <= i <= 14
  {
    if c == 0 && m == 0 then 14 else 2 + 4 * c + m
  }

  /** The twelve pressed poses fill the three clusters of four exactly:
      the two maps are inverse to each other. */
  lemma ClusterSlotRoundTrip(i: int, c: int, m: int)
    requires 3 <= i <= 14 && 0 <= c < 3 && 0 <= m < 4
    ensures ClusterSlot(PressedIndex(c, m)) == (c, m)
    ensures PressedIndex(ClusterSlot(i).0, ClusterSlot(i).1) == i
  {
  }

  /** `PressedPos`: pose 1 0.2 ahead of the centre, pose 2 at the centre,
      and pose `i` from 3 on around base point `(i - 2) / 4`, 0.15 ahead
      of it, in place `(i - 2) % 4` of four on a ring of radius 0.15
      turning against the rotation at one and a half times its rate. */
  function PressedPos(i: int, rotation: real): (r: FlamePose)
    ensures i == 1 ==> r.Single? && r.p.group == Ahead && r.p.forward == 0.2
    ensures i == 2 ==> r.Single? && r.p.group == Centre && r.p.radius == 0.0
    ensures i != 1 && i != 2 ==> r.InCluster?
    ensures i != 1 && i != 2 ==> r.cluster == BasePos((i - 2) / 4, rotation).(forward := ClusterForward)
    ensures i != 1 && i != 2 ==>
              r.member == Placement(ClusterRing, (i - 2) % 4, 4, 0.15, RingAngle((i - 2) % 4, 4, -1.5 * rotation), 0.0)
  {
    if i == 1 then Single(Placement(Ahead, 0, 1, 0.0, 0.0, 0.2))
    else if i == 2 then Single(Placement(Centre, 0, 1, 0.0, 0.0, 0.0))
    else
      var m := (i - 2) % 4;
      InCluster(BasePos((i - 2) / 4, rotation).(forward := ClusterForward),
                Placement(ClusterRing, m, 4, 0.15, RingAngle(m, 4, -1.5 * rotation), 0.0))
  }

  /** A pressed pose stands around the cluster `ClusterSlot` names, at the
      place it names: pose 14's base point is a full turn past the first
      cluster's, which is the same point. */
  lemma PressedPosCluster(i: int, rotation: real)
    requires 3 <= i <= 14
    ensures PressedPos(i, rotation).cluster.angle ==
            RingAngle(ClusterSlot(i).0, 3, rotation) + (if i == 14 then 360.0 else 0.0)
    ensures PressedPos(i, rotation).member.slot == ClusterSlot(i).1
  {
    if i == 14 {
      RingAnglePeriodic(0, 3, rotation);
    }
  }

  /** Two poses on one of the normal rings stand a whole number of steps
      apart, less than a full turn. */
  lemma NormalPosRings(i: int, j: int, rotation: real)
    requires 1 <= i < j <= 14
    ensures NormalPos(i, rotation).p.group == NormalPos(j, rotation).p.group <==> (3 <= i && j < 10) || 10 <= i
    ensures 3 <= i && j < 10 ==>
              0.0 < NormalPos(j, rotation).p.angle - NormalPos(i, rotation).p.angle < 360.0
    ensures 10 <= i ==>
              0.0 < NormalPos(j, rotation).p.angle - NormalPos(i, rotation).p.angle < 360.0
  {
    if 3 <= i && j < 10 {
      RingAngleGap(i - 2, j - 2, 7, rotation);
    } else if 10 <= i {
      RingAngleGap(i - 9, j - 9, 5, -rotation);
    }
  }

  /** `GetPos`: the pressed poses while the button is held. */
  function GetPos(i: int, button: bool, rotation: real): (r: FlamePose)
    ensures button ==> r == PressedPos(i, rotation)
    ensures !button ==> r == NormalPos(i, rotation)
  {
    if button then PressedPos(i, rotation) else NormalPos(i, rotation)
  }

  // ---------------------------------------------------------------------
  // Facing (finding)

  /** `GetRot` turns a clustered shard to look along its offset from its
      cluster's base point plus a push ahead: 0.25 with the trigger down,
      and without it the literal `015f`, which is fifteen. Only that push
      is modelled. */
  function AimPushAsWritten(trigger: bool): (r: real)
    ensures trigger ==> r == ChargeForward
    ensures !trigger ==> r == 15.0
  {
    if trigger then 0.25 else 15.0
  }

  /** As written, with the trigger up the push is a hundred times the
      clusters' own forward offset, and a hundred times longer than any
      offset the mode's poses use, so the shards face straight ahead. */
  lemma AimPushOutOfScale()
    ensures AimPushAsWritten(false) == 100.0 * ClusterForward
    ensures AimPushAsWritten(false) > 10.0 * AimPushAsWritten(true)
  {
  }

  /** The push with the literal read as `0.15f`: with the trigger up it
      is the clusters' forward offset, so both pushes are offsets the
      poses use and neither exceeds the charges' own. */
  function AimPush(trigger: bool): (r: real)
    ensures trigger ==> r == ChargeForward
    ensures !trigger ==> r == ClusterForward
    ensures 0.0 < r <= ChargeForward
  {
    if trigger then ChargeForward else ClusterForward
  }

  // ---------------------------------------------------------------------
  // Callbacks

  /** The frame's time and duration. */
  datatype Clock = Clock(now: real, dt: real)

  /** The press time, the release time and the other fields of the input
      base, as a callback leaves them. */
  function Record(x: FlameState, e: InputEvent, now: real): (r: FlameState)
    ensures r == x.(core := x.core.(inputs := BaseCallback(x.core.inputs, e, now)))
  {
    x.(core := x.core.(inputs := BaseCallback(x.core.inputs, e, now)))
  }

  /** `OnTriggerPressed`: the press time is recorded; with the button
      held, any old charges end and three fresh ones are lit at intensity
      0 at the three charge points; otherwise the flame is lit. */
  function OnTriggerPressed(x: FlameState, h: Holder, c: Clock): (r: (FlameState, seq<Act>))
    ensures r.0.core.inputs == x.core.inputs.(lastTriggerPress := c.now)
    ensures r.0.rotation == x.rotation
    ensures h.button ==> r.0.charges == [0.0, 0.0, 0.0] && r.0.targets == ChargeTargets(3, x.rotation)
    ensures h.button ==> r.0.flame == x.flame && r.1 == []
    ensures !h.button ==> r.0.flame == Some(Playing) && r.1 == [Ignite]
    ensures !h.button ==> r.0.charges == x.charges && r.0.targets == x.targets
  {
    var y := Record(x, Pressed(Trigger), c.now);
    if h.button then (y.(charges := [0.0, 0.0, 0.0], targets := ChargeTargets(3, x.rotation)), [])
    else (y.(flame := Some(Playing)), [Ignite])
  }

  /** The flame's damage as written: whenever a flame effect was ever
      spawned, even one that has since ended. */
  function BurnsAsWritten(flame: Option<Effect>): (r: bool)
    ensures r <==> flame.Some?
  {
    flame.Some?
  }

  /** The flame's damage as meant: only while the flame plays. */
  function Burns(flame: Option<Effect>): (r: bool)
    ensures r <==> flame == Some(Playing)
  {
    flame == Some(Playing)
  }

  /** `OnTriggerHeld`: the rotation advances by the ramped rate; with the
      button held every charge follows its point and grows to the time
      since the press (capped at 1); otherwise the flame burns and the
      spheres fly. `asWritten` selects the flame test. */
  function OnTriggerHeldWith(x: FlameState, h: Holder, c: Clock, asWritten: bool): (r: (FlameState, seq<Act>))
    ensures r.0.rotation == Turn(x.rotation, c.dt, SpinRate(true, c.now, x.core.inputs.lastTriggerPress))
    ensures r.0.core == x.core && r.0.flame == x.flame
    ensures h.button ==> r.1 == []
    ensures h.button ==> r.0.targets == ChargeTargets(|x.targets|, r.0.rotation)
    ensures h.button ==> |r.0.charges| == |x.charges|
    ensures h.button ==> forall k :: 0 <= k < |r.0.charges| ==> r.0.charges[k] == Clamp01(c.now - x.core.inputs.lastTriggerPress)
    ensures !h.button ==> r.0.charges == x.charges && r.0.targets == x.targets
    ensures !h.button ==> Spheres in r.1 && Ignite !in r.1 && |r.1| <= 2
    ensures !h.button ==> (Burn in r.1 <==> if asWritten then BurnsAsWritten(x.flame) else Burns(x.flame))
  {
    var rot := Turn(x.rotation, c.dt, SpinRate(true, c.now, x.core.inputs.lastTriggerPress));
    var y := x.(rotation := rot);
    if h.button then
      var level := Clamp01(c.now - x.core.inputs.lastTriggerPress);
      (y.(targets := ChargeTargets(|x.targets|, rot), charges := seq(|x.charges|, _ => level)), [])
    else
      var burns := if asWritten then BurnsAsWritten(x.flame) else Burns(x.flame);
      (y, (if burns then [Burn] else []) + [Spheres])
  }

  /** `OnTriggerNotHeld`: the rotation advances at the slow rate. */
  function OnTriggerNotHeld(x: FlameState, c: Clock): (r: FlameState)
    ensures r == x.(rotation := Turn(x.rotation, c.dt, SpinRate(false, c.now, x.core.inputs.lastTriggerPress)))
  {
    x.(rotation := Turn(x.rotation, c.dt, 80.0))
  }

  /** The charges fly or fizzle, as written: a second or more after the
      trigger press three fireballs fly from the three charge points,
      whether or not any charge was lit; both ways every charge ends. */
  function ResolveAsWritten(x: FlameState, now: real): (r: (FlameState, seq<Act>))
    ensures r.0 == x.(charges := [], targets := [])
    ensures now - x.core.inputs.lastTriggerPress > 1.0 ==>
              r.1 == [Fireball(ChargeTarget(0, x.rotation)), Fireball(ChargeTarget(1, x.rotation)), Fireball(ChargeTarget(2, x.rotation))]
    ensures now - x.core.inputs.lastTriggerPress <= 1.0 ==> r.1 == []
  {
    var cleared := x.(charges := [], targets := []);
    if now - x.core.inputs.lastTriggerPress > 1.0 then
      (cleared, [Fireball(ChargeTarget(0, x.rotation)), Fireball(ChargeTarget(1, x.rotation)), Fireball(ChargeTarget(2, x.rotation))])
    else (cleared, [])
  }

  /** The charges fly or fizzle as meant: fireballs fly only from lit
      charges. */
  function Resolve(x: FlameState, now: real): (r: (FlameState, seq<Act>))
    ensures r.0 == x.(charges := [], targets := [])
    ensures |x.charges| > 0 && now - x.core.inputs.lastTriggerPress > 1.0 ==> r == ResolveAsWritten(x, now)
    ensures |x.charges| == 0 || now - x.core.inputs.lastTriggerPress <= 1.0 ==> r.1 == []
  {
    if |x.charges| > 0 then ResolveAsWritten(x, now) else (x.(charges := [], targets := []), [])
  }

  /** Either reading of the throw: both end every charge, and they agree
      whenever a charge is lit. */
  function ResolveWith(x: FlameState, now: real, asWritten: bool): (r: (FlameState, seq<Act>))
    ensures r.0 == x.(charges := [], targets := [])
    ensures |x.charges| > 0 ==> r == ResolveAsWritten(x, now)
    ensures !asWritten && |x.charges| == 0 ==> r.1 == []
  {
    if asWritten then ResolveAsWritten(x, now) else Resolve(x, now)
  }

  /** As written, a player who holds the trigger for a second (lighting
      the flame, not a charge) and then taps the button throws three
      fireballs on the button's release without ever charging them. */
  lemma ThrowsUncharged(x: FlameState, now: real)
    requires x.charges == [] && now - x.core.inputs.lastTriggerPress > 1.0
    ensures |ResolveAsWritten(x, now).1| == 3
    ensures Resolve(x, now).1 == []
  {
  }

  /** As meant, every fireball flies from a lit charge's point: a resolve
      throws three exactly when charges were lit and held long enough,
      and none otherwise. */
  lemma FireballsNeedCharges(x: FlameState, now: real)
    ensures |Resolve(x, now).1| == (if |x.charges| > 0 && now - x.core.inputs.lastTriggerPress > 1.0 then 3 else 0)
    ensures forall k :: 0 <= k < |Resolve(x, now).1| ==> Resolve(x, now).1[k] == Fireball(ChargeTarget(k, x.rotation))
  {
  }

  /** `OnTriggerReleased`: the release time is recorded and the flame
      ends; with the button still held the charges fly or fizzle. */
  function OnTriggerReleasedWith(x: FlameState, h: Holder, c: Clock, asWritten: bool): (r: (FlameState, seq<Act>))
    ensures r.0.core.inputs == x.core.inputs.(lastTriggerReleased := c.now)
    ensures r.0.flame == EndEffect(x.flame) && r.0.rotation == x.rotation
    ensures h.button ==> r.0.charges == [] && r.0.targets == []
    ensures h.button ==> r.1 == ResolveWith(Record(x, Released(Trigger), c.now).(flame := EndEffect(x.flame)), c.now, asWritten).1
    ensures !h.button ==> r.0.charges == x.charges && r.0.targets == x.targets && r.1 == []
  {
    var y := Record(x, Released(Trigger), c.now).(flame := EndEffect(x.flame));
    if h.button then ResolveWith(y, c.now, asWritten) else (y, [])
  }

  /** `OnButtonReleased`: the release time is recorded; with the trigger
      still reading pressed the charges fly or fizzle. */
  function OnButtonReleasedWith(x: FlameState, h: Holder, c: Clock, asWritten: bool): (r: (FlameState, seq<Act>))
    ensures r.0.core.inputs == x.core.inputs.(lastButtonReleased := c.now)
    ensures r.0.flame == x.flame && r.0.rotation == x.rotation
    ensures TriggerReads(h.trigger, c.now, x.core.inputs.lastTriggerReleased, 0.0) ==>
              r == ResolveWith(Record(x, Released(Button), c.now), c.now, asWritten)
    ensures !TriggerReads(h.trigger, c.now, x.core.inputs.lastTriggerReleased, 0.0) ==>
              r.0.charges == x.charges && r.0.targets == x.targets && r.1 == []
  {
    var y := Record(x, Released(Button), c.now);
    if TriggerReads(h.trigger, c.now, x.core.inputs.lastTriggerReleased, 0.0) then ResolveWith(y, c.now, asWritten)
    else (y, [])
  }

  /** As written, once a flame has been lit and let go, holding the
      trigger without the button burns again although no flame plays:
      after a charge is thrown with the button released first, say. */
  lemma BurnsWithoutFlame(x: FlameState, h: Holder, c: Clock)
    requires x.flame == Some(Ended) && !h.button
    ensures Burn in OnTriggerHeldWith(x, h, c, true).1
    ensures Burn !in OnTriggerHeldWith(x, h, c, false).1
  {
  }

  /** As meant, the flame burns exactly while it plays. */
  lemma BurnsOnlyWhileLit(x: FlameState, h: Holder, c: Clock)
    ensures Burn in OnTriggerHeldWith(x, h, c, false).1 <==> !h.button && x.flame == Some(Playing)
  {
  }

  // ---------------------------------------------------------------------
  // Dispatch

  /** A frame's callback log. */
  datatype Step = Step(x: FlameState, acts: seq<Act>)

  function Append(s: Step, r: (FlameState, seq<Act>)): Step {
    Step(r.0, s.acts + r.1)
  }

  /** The mode's callback table: the four trigger overrides and the
      button release, and the default time-recording callbacks for the
      rest. */
  function OnEvent(s: Step, e: InputEvent, h: Holder, c: Clock, asWritten: bool): (r: Step)
    ensures |r.acts| >= |s.acts| && r.acts[..|s.acts|] == s.acts
    ensures e.c == Button ==> r.x.rotation == s.x.rotation && r.x.core.inputs.lastTriggerPress == s.x.core.inputs.lastTriggerPress
    ensures e.c == Button ==> r.x.flame == s.x.flame
    ensures e != Released(Button) ==> r.x.core.inputs.lastTriggerReleased == (if e == Released(Trigger) then c.now else s.x.core.inputs.lastTriggerReleased)
    ensures e == Pressed(Trigger) ==> r.x.rotation == s.x.rotation && r.x.core.inputs.lastTriggerPress == c.now
    ensures e == Held(Trigger) ==> r.x.rotation == Turn(s.x.rotation, c.dt, SpinRate(true, c.now, s.x.core.inputs.lastTriggerPress))
    ensures e == Released(Trigger) || e.NotHeld? || e.Held? ==> r.x.core.inputs.lastTriggerPress == s.x.core.inputs.lastTriggerPress
    ensures e == Released(Trigger) ==> r.x.rotation == s.x.rotation
    ensures e == NotHeld(Trigger) ==> r.x.rotation == Turn(s.x.rotation, c.dt, SpinRate(false, c.now, s.x.core.inputs.lastTriggerPress))
  {
    match e
    case Pressed(Trigger) => Append(s, OnTriggerPressed(s.x, h, c))
    case Held(Trigger) => Append(s, OnTriggerHeldWith(s.x, h, c, asWritten))
    case Released(Trigger) => Append(s, OnTriggerReleasedWith(s.x, h, c, asWritten))
    case NotHeld(Trigger) => Step(OnTriggerNotHeld(s.x, c), s.acts)
    case Released(Button) => Append(s, OnButtonReleasedWith(s.x, h, c, asWritten))
    case _ => Step(Record(s.x, e, c.now), s.acts)
  }

  /** The callback table a frame dispatches to. */
  function Callbacks(h: Holder, c: Clock, asWritten: bool): (cb: (Step, InputEvent) -> Step)
    ensures forall x: Step, e: InputEvent :: cb(x, e) == OnEvent(x, e, h, c, asWritten)
  {
    (x: Step, e: InputEvent) => OnEvent(x, e, h, c, asWritten)
  }

  /** The mode's charge bookkeeping: no charges, or three of one
      intensity between 0 and 1 standing at the three charge points of
      one rotation. */
  predicate WellFormed(x: FlameState) {
    && |x.charges| == |x.targets|
    && (x.charges == [] || (x.charges == [x.charges[0], x.charges[0], x.charges[0]] && 0.0 <= x.charges[0] <= 1.0))
    && (x.targets == [] || x.targets == ChargeTargets(3, x.targets[0].angle))
  }

  /** Every callback keeps the charge bookkeeping. */
  lemma OnEventWellFormed(s: Step, e: InputEvent, h: Holder, c: Clock, asWritten: bool)
    requires WellFormed(s.x)
    ensures WellFormed(OnEvent(s, e, h, c, asWritten).x)
  {
    var r := OnEvent(s, e, h, c, asWritten).x;
    if e == Held(Trigger) && h.button && s.x.targets != [] {
      assert r.targets[0].angle == r.rotation;
      assert r.charges == [r.charges[0], r.charges[0], r.charges[0]];
    }
    if e == Pressed(Trigger) && h.button {
      assert r.targets[0].angle == s.x.rotation;
    }
  }

  lemma {:induction false} KeepsWellFormed(s: Step, es: seq<InputEvent>, h: Holder, c: Clock, asWritten: bool)
    requires WellFormed(s.x)
    ensures WellFormed(Dispatch(s, es, Callbacks(h, c, asWritten)).x)
    decreases |es|
  {
    if |es| > 0 {
      OnEventWellFormed(s, es[0], h, c, asWritten);
      KeepsWellFormed(OnEvent(s, es[0], h, c, asWritten), es[1..], h, c, asWritten);
    }
  }

  /** The button's callbacks never turn the rings, touch the flame or
      move the trigger's press time. */
  lemma {:induction false} ButtonKeeps(s: Step, es: seq<InputEvent>, h: Holder, c: Clock, asWritten: bool)
    requires forall e :: e in es ==> e.c == Button
    ensures Dispatch(s, es, Callbacks(h, c, asWritten)).x.rotation == s.x.rotation
    ensures Dispatch(s, es, Callbacks(h, c, asWritten)).x.flame == s.x.flame
    ensures Dispatch(s, es, Callbacks(h, c, asWritten)).x.core.inputs.lastTriggerPress == s.x.core.inputs.lastTriggerPress
    decreases |es|
  {
    if |es| > 0 {
      assert es[0] in es;
      assert forall e :: e in es[1..] ==> e in es;
      ButtonKeeps(OnEvent(s, es[0], h, c, asWritten), es[1..], h, c, asWritten);
    }
  }

  // ---------------------------------------------------------------------
  // One frame

  /** What a frame leaves behind: the mode, what it did to the world, and
      the pose of every guide the pose loop walks. */
  datatype FrameResult = FrameResult(x: FlameState, acts: seq<Act>, poses: seq<(nat, FlamePose)>)

  const BurnText := "Pull trigger to burn your foes"

  /** The controls read for the frame (the imbue base has no trigger
      cooldown) and the callbacks they fire. */
  function Polled(x: FlameState, h: Holder, now: real): (ModeCore, seq<InputEvent>) {
    Poll(x.core, h, now, 0.0)
  }

  function Start(x: FlameState, h: Holder, now: real): Step {
    Step(x.(core := Polled(x, h, now).0), [])
  }

  /** The input half of `Update`: the frame's callbacks run in order. */
  function Dispatched(x: FlameState, h: Holder, c: Clock, asWritten: bool): Step {
    Dispatch(Start(x, h, c.now), Polled(x, h, c.now).1, Callbacks(h, c, asWritten))
  }

  /** The rest of `Update`, after the callbacks: the trigger label is
      set every frame and the button label hidden, and the guides in
      `PartsInOrder` order take their poses at the rotation the
      callbacks left. */
  function Finish(s: Step, h: Holder, rbs: seq<nat>): (r: FrameResult)
    ensures r.x == s.x.(core := r.x.core) && r.acts == s.acts
    ensures r.x.core.inputs == s.x.core.inputs
    ensures s.x.core.flavour == Imbued && s.x.core.use.ann.shouldShow ==> r.x.core.use.ann.visible && r.x.core.use.ann.text == Render(BurnText, None)
    ensures !r.x.core.altUse.ann.visible
    ensures s.x.core.flavour == Imbued ==> |r.poses| == |PartsInOrder(rbs)|
    ensures forall j :: 0 <= j < |r.poses| ==> r.poses[j].1 == GetPos(j + 1, h.button, s.x.rotation)
  {
    var core := RefreshLabels(s.x.core, h.side, true, BurnText, false, "");
    var poses := PoseLoop(PoseBodies(core, rbs), i => GetPos(i, h.button, s.x.rotation));
    FrameResult(s.x.(core := core), s.acts, poses)
  }

  /** `Update`: the imbue base's input dispatch, labels and pose loop.
      `h` is the holder of shard 11, `rbs` the rig's guides. `asWritten`
      selects the flame test and the fireball throw as written. Either
      way a frame keeps the charge bookkeeping. */
  function UpdateWith(x: FlameState, h: Holder, c: Clock, rbs: seq<nat>, asWritten: bool): (r: FrameResult)
    ensures WellFormed(x) ==> WellFormed(r.x)
  {
    if WellFormed(x) then
      KeepsWellFormed(Start(x, h, c.now), Polled(x, h, c.now).1, h, c, asWritten);
      Finish(Dispatched(x, h, c, asWritten), h, rbs)
    else Finish(Dispatched(x, h, c, asWritten), h, rbs)
  }

  /** The trigger's callbacks for a frame, dispatched on their own: the
      rotation advances exactly once, by the ramped rate while the
      trigger down pressed (from a press time of now if it went down
      this frame) and by the slow rate otherwise. */
  lemma TriggerTurnsOnce(s: Step, was: bool, down: bool, h: Holder, c: Clock, asWritten: bool)
    ensures var d := Dispatch(s, ControlEvents(Trigger, was, down), Callbacks(h, c, asWritten)).x;
            down && !was ==> d.rotation == Turn(s.x.rotation, c.dt, SpinRate(true, c.now, c.now)) && d.core.inputs.lastTriggerPress == c.now
    ensures var d := Dispatch(s, ControlEvents(Trigger, was, down), Callbacks(h, c, asWritten)).x;
            down && was ==> d.rotation == Turn(s.x.rotation, c.dt, SpinRate(true, c.now, s.x.core.inputs.lastTriggerPress))
                            && d.core.inputs.lastTriggerPress == s.x.core.inputs.lastTriggerPress
    ensures var d := Dispatch(s, ControlEvents(Trigger, was, down), Callbacks(h, c, asWritten)).x;
            !down ==> d.rotation == Turn(s.x.rotation, c.dt, SpinRate(false, c.now, s.x.core.inputs.lastTriggerPress))
                      && d.core.inputs.lastTriggerPress == s.x.core.inputs.lastTriggerPress
  {
    var cb := Callbacks(h, c, asWritten);
    var es := ControlEvents(Trigger, was, down);
    var d := Dispatch(s, es, cb).x;
    if down && !was {
      assert es == [Pressed(Trigger), Held(Trigger)];
      DispatchShort(s, Pressed(Trigger), Held(Trigger), cb);
      var s1 := OnEvent(s, Pressed(Trigger), h, c, asWritten);
      assert d == OnEvent(s1, Held(Trigger), h, c, asWritten).x;
      assert s1.x.rotation == s.x.rotation && s1.x.core.inputs.lastTriggerPress == c.now;
      assert d.rotation == Turn(s.x.rotation, c.dt, SpinRate(true, c.now, c.now));
      assert d.core.inputs.lastTriggerPress == c.now;
    } else if down {
      assert es == [Held(Trigger)];
      DispatchShort(s, Held(Trigger), Held(Trigger), cb);
      assert d == OnEvent(s, Held(Trigger), h, c, asWritten).x;
      assert d.rotation == Turn(s.x.rotation, c.dt, SpinRate(true, c.now, s.x.core.inputs.lastTriggerPress));
      assert d.core.inputs.lastTriggerPress == s.x.core.inputs.lastTriggerPress;
    } else if was {
      assert es == [Released(Trigger), NotHeld(Trigger)];
      DispatchShort(s, Released(Trigger), NotHeld(Trigger), cb);
      var s1 := OnEvent(s, Released(Trigger), h, c, asWritten);
      assert d == OnEvent(s1, NotHeld(Trigger), h, c, asWritten).x;
      assert s1.x.rotation == s.x.rotation && s1.x.core.inputs.lastTriggerPress == s.x.core.inputs.lastTriggerPress;
      assert d.rotation == Turn(s.x.rotation, c.dt, SpinRate(false, c.now, s.x.core.inputs.lastTriggerPress));
      assert d.core.inputs.lastTriggerPress == s.x.core.inputs.lastTriggerPress;
    } else {
      assert es == [NotHeld(Trigger)];
      DispatchShort(s, NotHeld(Trigger), NotHeld(Trigger), cb);
      assert d == OnEvent(s, NotHeld(Trigger), h, c, asWritten).x;
      assert d.rotation == Turn(s.x.rotation, c.dt, SpinRate(false, c.now, s.x.core.inputs.lastTriggerPress));
      assert d.core.inputs.lastTriggerPress == s.x.core.inputs.lastTriggerPress;
    }
  }

  /** Every frame turns the rings exactly once: by the ramped rate while
      the trigger reads pressed, counted from this frame if it went down
      now, and by the slow rate while it does not. */
  lemma UpdateTurnsOnce(x: FlameState, h: Holder, c: Clock, rbs: seq<nat>, asWritten: bool)
    ensures var down := TriggerReads(h.trigger, c.now, x.core.inputs.lastTriggerReleased, 0.0);
            down && !x.core.inputs.wasTrigger ==>
              UpdateWith(x, h, c, rbs, asWritten).x.rotation == Turn(x.rotation, c.dt, SpinRate(true, c.now, c.now))
    ensures var down := TriggerReads(h.trigger, c.now, x.core.inputs.lastTriggerReleased, 0.0);
            down && x.core.inputs.wasTrigger ==>
              UpdateWith(x, h, c, rbs, asWritten).x.rotation == Turn(x.rotation, c.dt, SpinRate(true, c.now, x.core.inputs.lastTriggerPress))
    ensures var down := TriggerReads(h.trigger, c.now, x.core.inputs.lastTriggerReleased, 0.0);
            !down ==> UpdateWith(x, h, c, rbs, asWritten).x.rotation == Turn(x.rotation, c.dt, SpinRate(false, c.now, x.core.inputs.lastTriggerPress))
  {
    var down := TriggerReads(h.trigger, c.now, x.core.inputs.lastTriggerReleased, 0.0);
    var cb := Callbacks(h, c, asWritten);
    var s0 := Start(x, h, c.now);
    var t := ControlEvents(Trigger, x.core.inputs.wasTrigger, down);
    var b := ControlEvents(Button, x.core.inputs.wasButton, h.button);
    CheckInputsOrder(x.core.inputs, down, h.button);
    assert Polled(x, h, c.now).1 == t + b;
    assert s0.x.rotation == x.rotation && s0.x.core.inputs.lastTriggerPress == x.core.inputs.lastTriggerPress;
    DispatchAppend(s0, t, b, cb);
    TriggerTurnsOnce(s0, x.core.inputs.wasTrigger, down, h, c, asWritten);
    ButtonKeeps(Dispatch(s0, t, cb), b, h, c, asWritten);
    var d1 := Dispatch(s0, t, cb);
    var d2 := Dispatch(d1, b, cb);
    assert d2.x.rotation == d1.x.rotation;
    assert Dispatched(x, h, c, asWritten) == d2;
    assert UpdateWith(x, h, c, rbs, asWritten) == Finish(d2, h, rbs);
    if !down {
      assert d1.x.rotation == Turn(s0.x.rotation, c.dt, SpinRate(false, c.now, s0.x.core.inputs.lastTriggerPress));
    }
  }

  // ---------------------------------------------------------------------
  // Entry and exit

  /** `Enter`: the imbue entry on shard 11, with no flame, no charges and
      the rotation at zero (each entry builds a fresh mode). */
  function Enter(sw: Sword, side: Side, now: real): (r: (Sword, FlameState))
    requires SpellTarget in sw.parts
    ensures r.0 == EnterCore(sw, Imbued, SpellTarget, side, now).0
    ensures r.1.core == EnterCore(sw, Imbued, SpellTarget, side, now).1
    ensures r.1.flame.None? && r.1.charges == [] && r.1.targets == [] && r.1.rotation == 0.0
    ensures WellFormed(r.1)
  {
    var e := EnterCore(sw, Imbued, SpellTarget, side, now);
    (e.0, FlameState(e.1, 0.0, None, [], []))
  }

  /** `Exit`: the imbue exit, and the flame ends; charges still lit stay
      as they are. */
  function Exit(sw: Sword, x: FlameState): (r: (Sword, FlameState))
    ensures r.0 == ExitCore(sw, x.core).0
    ensures r.1.flame == EndEffect(x.flame)
    ensures r.1.charges == x.charges && r.1.targets == x.targets
  {
    var e := ExitCore(sw, x.core);
    (e.0, x.(core := e.1, flame := EndEffect(x.flame)))
  }

  /** The mode's `ShouldReform` is the imbue base's: every shard but 11;
      its `ShouldLock` is the default, every shard. */
  lemma Vetoes(sw: Sword, side: Side, now: real)
    requires SpellTarget in sw.parts
    ensures forall k :: Allows(ReformVeto(Enter(sw, side, now).1.core), k) <==> k != 11
    ensures forall k :: Allows(LockVeto(Enter(sw, side, now).1.core), k)
  {
  }
}
