/** `GravityMode`: shard 11 held with a gravity spell. Holding the trigger
    pulls the best item in a cone onto a spring in front of the hand;
    releasing throws it; pulling the trigger with the button held fires a
    push. The other shards form a pincer, an outer ring of seven and an
    inner ring of five. Vector geometry, forces, haptics and effect
    rendering are reduced to the decisions that drive them. */
module Gravity {
  import opened Base
  import opened Utils
  import opened Annotations
  import opened ModeInput
  import opened Blade
  import opened Poses
  import opened GrabbedModes

  /** An item the cone cast returned: whether it is a shard or the sword
      itself, whether its body is kinematic, the ranking score the query
      orders by (distance and angle from the hand, combined), its radius
      and its mass. */
  datatype Item = Item(id: nat, isShard: bool, isSword: bool, kinematic: bool, score: real, radius: real, mass: real)

  /** The spring joint from the held item to the target point. */
  datatype Tether = Tether(item: nat, spring: real, damper: real)

  datatype GravityState = GravityState(
    core: ModeCore,
    rotation: real,
    target: Option<Item>,      // targetItem
    joint: Option<Tether>,
    modified: set<nat>,        // items carrying this mode's physic modifier
    effect: Option<Effect>,
    intensity: real,           // effectIntensity
    lastHeldRadius: real)

  /** What a frame does to the world outside the mode. */
  datatype Act = Grab(item: nat) | Throw(item: nat) | Blast

  /** The mode's own bookkeeping: the target, its joint and its physic
      modifier come and go together, the effect intensity is a fraction
      and the remembered radius never exceeds 2. */
  predicate Consistent(g: GravityState) {
    && (g.target.Some? <==> g.joint.Some?)
    && (g.target.Some? ==> g.joint.value.item == g.target.value.id && g.modified == {g.target.value.id})
    && (g.target.None? ==> g.modified == {})
    && 0.0 <= g.intensity <= 1.0
    && g.lastHeldRadius <= 2.0
  }

  /** `cooldown`, the trigger delay after a release while the button is
      held. */
  const ButtonCooldown: real := 1.0

  /** `Cooldown`: the delay applies only while the button is held. */
  function Cooldown(button: bool): (r: real)
    ensures r >= 0.0
    ensures r > 0.0 <==> button
  {
    if button then ButtonCooldown else 0.0
  }

  /** With the button up the trigger reads raw once any time has passed
      since its release; with the button held it stays dead for a second. */
  lemma CooldownEffect(raw: bool, now: real, released: real)
    ensures now > released ==> TriggerReads(raw, now, released, Cooldown(false)) == raw
    ensures now - released <= 1.0 ==> !TriggerReads(raw, now, released, Cooldown(true))
  {
  }

  // ---------------------------------------------------------------------
  // Radius, poses, rates

  /** `HeldRadius`: while holding, the held item's radius plus 0.1, capped
      at 2, and remembered; otherwise the remembered value. */
  function HeldRadius(g: GravityState): (r: (GravityState, real))
    ensures r.0 == g.(lastHeldRadius := r.1)
    ensures g.target.Some? ==> r.1 <= 2.0
    ensures g.target.Some? && g.target.value.radius <= 1.9 ==> r.1 == g.target.value.radius + 0.1
    ensures g.target.None? ==> r.1 == g.lastHeldRadius
    ensures g.lastHeldRadius <= 2.0 ==> r.1 <= 2.0
  {
    if g.target.Some? then
      var hr := Min(g.target.value.radius + 0.1, 2.0);
      (g.(lastHeldRadius := hr), hr)
    else (g, g.lastHeldRadius)
  }

  /** Asking for the radius a second time gives the same answer and changes
      nothing more. */
  lemma HeldRadiusIdempotent(g: GravityState)
    ensures HeldRadius(HeldRadius(g).0) == HeldRadius(g)
  {
  }

  /** `PincerPos`: shards 1 and 2 on opposite sides — around the held item,
      turning at a third of the mode's rotation, at 0.1 beyond its radius;
      or, with nothing held, 0.1 either side of the centre and 0.15 ahead,
      across the palm while the button is held and along the thumb
      otherwise. */
  function PincerPos(i: int, holding: bool, button: bool, rotation: real, heldRadius: real): (p: Placement)
    ensures p.size == 2 && p.slot == i && p.angle - PairAngle(i) == if holding then rotation / 3.0 else 0.0
    ensures holding ==> p.group == HeldPincer && p.radius == 0.1 + heldRadius && p.forward == 0.0
    ensures !holding ==> p.radius == 0.1 && p.forward == 0.15
    ensures !holding ==> (p.group == SidePincer <==> button) && (p.group == UpPincer <==> !button)
  {
    if holding then Placement(HeldPincer, i, 2, 0.1 + heldRadius, PairAngle(i) + rotation / 3.0, 0.0)
    else if button then Placement(SidePincer, i, 2, 0.1, PairAngle(i), 0.15)
    else Placement(UpPincer, i, 2, 0.1, PairAngle(i), 0.15)
  }

  /** The two pincer shards share one pose apart from the side they take:
      whatever is held, whichever control is down and however far the mode
      has turned, shards 1 and 2 lie in the same group, on the same radius
      and equally far ahead, half a turn apart. */
  lemma PincersOpposite(holding: bool, button: bool, rotation: real, heldRadius: real)
    ensures PincerPos(1, holding, button, rotation, heldRadius).group == PincerPos(2, holding, button, rotation, heldRadius).group
    ensures PincerPos(1, holding, button, rotation, heldRadius).size == PincerPos(2, holding, button, rotation, heldRadius).size
    ensures PincerPos(1, holding, button, rotation, heldRadius).radius == PincerPos(2, holding, button, rotation, heldRadius).radius
    ensures PincerPos(1, holding, button, rotation, heldRadius).forward == PincerPos(2, holding, button, rotation, heldRadius).forward
    ensures PincerPos(2, holding, button, rotation, heldRadius).angle - PincerPos(1, holding, button, rotation, heldRadius).angle == 180.0
  {
  }

  /** `OuterRing`: seven slots turning against the mode's rotation; radius
      0.2 and 0.1 ahead while holding, else radius 0.3, 0.1 ahead with the
      button held and 0.2 behind without. */
  function OuterRingPos(i: int, holding: bool, button: bool, rotation: real): (p: Placement)
    ensures p.group == OuterRing && p.size == 7 && p.slot == i - 2
    ensures p.angle == RingAngle(i - 2, 7, -rotation)
    ensures p.radius == (if holding then 0.2 else 0.3)
    ensures p.forward == (if holding then 0.1 else if button then 0.1 else -0.2)
  {
    if !holding && button then Placement(OuterRing, i - 2, 7, 0.3, RingAngle(i - 2, 7, -rotation), 0.1)
    else Placement(OuterRing, i - 2, 7, if holding then 0.2 else 0.3, RingAngle(i - 2, 7, -rotation),
                   if holding then 0.1 else -0.2)
  }

  /** `InnerRing`: five slots turning with the mode's rotation; radius 0.1
      at the centre with the button held, otherwise 0.1 and 0.2 ahead while
      holding, 0.3 and 0.1 behind when not. */
  function InnerRingPos(i: int, holding: bool, button: bool, rotation: real): (p: Placement)
    ensures p.group == InnerRing && p.size == 5 && p.slot == i - 10
    ensures p.angle == RingAngle(i - 10, 5, rotation)
    ensures button ==> p.radius == 0.1 && p.forward == 0.0
    ensures !button ==> p.radius == (if holding then 0.1 else 0.3) && p.forward == (if holding then 0.2 else -0.1)
  {
    if button then Placement(InnerRing, i - 10, 5, 0.1, RingAngle(i - 10, 5, rotation), 0.0)
    else Placement(InnerRing, i - 10, 5, if holding then 0.1 else 0.3, RingAngle(i - 10, 5, rotation),
                   if holding then 0.2 else -0.1)
  }

  /** `GetPos`: pose indices below 3 form the pincer, 3..9 the outer ring
      and the rest the inner ring. */
  function GetPos(i: int, holding: bool, button: bool, rotation: real, heldRadius: real): (p: Placement)
    ensures i < 3 ==> p.size == 2 && (p.group == HeldPincer || p.group == SidePincer || p.group == UpPincer)
    ensures 3 <= i < 10 ==> p.group == OuterRing && p.size == 7 && 1 <= p.slot <= 7
    ensures 10 <= i ==> p.group == InnerRing && p.size == 5 && 0 <= p.slot
  {
    if i < 3 then PincerPos(i, holding, button, rotation, heldRadius)
    else if i < 10 then OuterRingPos(i, holding, button, rotation)
    else InnerRingPos(i, holding, button, rotation)
  }

  /** The pose indices a grabbed-shard mode hands out (1..14) fill the
      pincer with two, the outer ring with seven and the inner ring with
      five, and two shards of one ring sit a whole number of
      seventh (or fifth) turns apart, less than a full turn. */
  lemma GetPosRings(i: int, j: int, holding: bool, button: bool, rotation: real, hr: real)
    requires 1 <= i < j <= 14
    ensures var p := GetPos(i, holding, button, rotation, hr);
            var q := GetPos(j, holding, button, rotation, hr);
            p.group == OuterRing && q.group == OuterRing ==>
              q.angle - p.angle == ((j - i) as real) * 360.0 / 7.0 && 0.0 < q.angle - p.angle < 360.0
    ensures var p := GetPos(i, holding, button, rotation, hr);
            var q := GetPos(j, holding, button, rotation, hr);
            p.group == InnerRing && q.group == InnerRing ==>
              q.angle - p.angle == ((j - i) as real) * 360.0 / 5.0 && 0.0 < q.angle - p.angle < 360.0
    ensures GetPos(i, holding, button, rotation, hr).size == GetPos(j, holding, button, rotation, hr).size
            <==> (j < 3 || (3 <= i && j < 10) || 10 <= i)
  {
    var p := GetPos(i, holding, button, rotation, hr);
    var q := GetPos(j, holding, button, rotation, hr);
    if 3 <= i && j < 10 {
      var a := ((i - 2) as real) * 360.0;
      var b := ((j - i) as real) * 360.0;
      assert ((j - 2) as real) * 360.0 == a + b;
      assert (a + b) / 7.0 == a / 7.0 + b / 7.0;
    } else if 10 <= i {
      var a := ((i - 10) as real) * 360.0;
      var b := ((j - i) as real) * 360.0;
      assert ((j - 10) as real) * 360.0 == a + b;
      assert (a + b) / 5.0 == a / 5.0 + b / 5.0;
    }
  }

  /** The intensity step of `Update`: up by 3·dt towards 1 while an item
      is held and an effect exists, down by 3·dt towards 0 while nothing is
      held. */
  function StepIntensity(e: real, holding: bool, hasEffect: bool, dt: real): (r: real)
    ensures holding && hasEffect ==> r <= 1.0
    ensures !holding ==> r >= 0.0
    ensures dt >= 0.0 && 0.0 <= e <= 1.0 ==> 0.0 <= r <= 1.0
    ensures dt >= 0.0 && e <= 1.0 && holding && hasEffect ==> e <= r
    ensures dt >= 0.0 && e >= 0.0 && !holding ==> r <= e
    ensures holding && !hasEffect ==> r == e
  {
    if holding then (if hasEffect then Min(e + dt * 3.0, 1.0) else e)
    else Max(e - dt * 3.0, 0.0)
  }

  /** Holding long enough saturates the intensity; letting go long enough
      drains it. */
  lemma StepIntensitySaturates(e: real, dt: real)
    requires 0.0 <= e <= 1.0 && dt >= 1.0 / 3.0
    ensures StepIntensity(e, true, true, dt) == 1.0
    ensures StepIntensity(e, false, true, dt) == 0.0
    ensures StepIntensity(e, false, false, dt) == 0.0
  {
  }

  // ---------------------------------------------------------------------
  // Labels

  const BlastText := "Pull trigger for gravity blast"
  const ThrowText := "Release trigger to throw"
  const AttractText := "Pull trigger to attract an object"
  const AltText := "Hold button to switch modes"

  /** `GetUseAnnotation`: the blast with the button held, the throw while
      holding, the pull otherwise. */
  function UseText(button: bool, holding: bool): (r: string)
    ensures r == BlastText <==> button
    ensures r == ThrowText <==> !button && holding
    ensures r == AttractText <==> !button && !holding
  {
    if button then BlastText else if holding then ThrowText else AttractText
  }

  /** `GetAltUseAnnotationShown`: only while neither control is pressed. */
  function AltShown(button: bool, triggerReads: bool): (r: bool)
    ensures r ==> !button && !triggerReads
    ensures !button && !triggerReads ==> r
  {
    !button && !triggerReads
  }

  // ---------------------------------------------------------------------
  // Callbacks

  /** What the frame's callbacks see besides the mode: the time, the raw
      alt-use button, the cone cast's items, and whether the gravity effect
      spawned (the catalogue may hand back null). */
  datatype Frame = Frame(now: real, button: bool, items: seq<Item>, spawned: bool)

  /** The cone cast's items that may be pulled: not a shard, not the sword,
      not kinematic. */
  predicate Eligible(it: Item) {
    !it.isShard && !it.isSword && !it.kinematic
  }

  function Eligibles(items: seq<Item>): (r: seq<Item>)
    ensures forall it :: it in r <==> it in items && Eligible(it)
    ensures r == [] <==> forall it :: it in items ==> !Eligible(it)
    ensures |r| <= |items|
    decreases |items|
  {
    if |items| == 0 then []
    else
      assert items == [items[0]] + items[1..];
      (if Eligible(items[0]) then [items[0]] else []) + Eligibles(items[1..])
  }

  function Score(it: Item): real {
    it.score
  }

  /** The item `AcquireTarget` picks: the first eligible item with the
      least score (the query's stable `orderby` followed by
      `FirstOrDefault`), or none when no item is eligible. */
  function Pick(items: seq<Item>): (r: Option<Item>)
    ensures r.None? <==> forall it :: it in items ==> !Eligible(it)
    ensures r.Some? ==> r.value in items && Eligible(r.value)
    ensures r.Some? ==> forall it :: it in items && Eligible(it) ==> r.value.score <= it.score
    ensures r.Some? ==> exists m: nat :: FirstMinimal(Eligibles(items), Score, m) && Eligibles(items)[m] == r.value
  {
    var es := Eligibles(items);
    MinByLeast(es, Score);
    MinBy(es, Score)
  }

  /** The spring `CreateSimpleJoint` builds for a pulled item: spring 100
      and damper 5, both scaled by the item's mass modifier, so light
      items are pulled harder for their mass. */
  function TetherFor(it: Item): (t: Tether)
    ensures t.item == it.id
    ensures t.spring == 100.0 * GetMassModifier(it.mass) && t.damper == 5.0 * GetMassModifier(it.mass)
    ensures it.mass >= 1.0 ==> t.spring == 100.0 * it.mass
  {
    var mm := GetMassModifier(it.mass);
    Tether(it.id, 100.0 * mm, 5.0 * mm)
  }

  /** `AcquireTarget`: the picked item gets the physic modifier, a spring
      of 100 and a damper of 5, both scaled by its mass modifier, and the
      effect is spawned. With nothing to pick nothing changes. */
  function AcquireTarget(g: GravityState, items: seq<Item>, spawned: bool): (r: (GravityState, seq<Act>))
    ensures var p := Pick(items);
            p.None? ==> r == (g, [])
    ensures var p := Pick(items);
            p.Some? ==> r.0.target == p && r.1 == [Grab(p.value.id)] && r.0.modified == g.modified + {p.value.id}
    ensures var p := Pick(items);
            p.Some? ==> r.0.joint == Some(TetherFor(p.value))
    ensures r.0.effect == if r.1 == [] then g.effect else if spawned then Some(Playing) else None
    ensures r.0 == g.(target := r.0.target, joint := r.0.joint, modified := r.0.modified, effect := r.0.effect)
  {
    var p := Pick(items);
    if p.None? then (g, [])
    else
      var it := p.value;
      (g.(target := p, joint := Some(TetherFor(it)),
          modified := g.modified + {it.id}, effect := if spawned then Some(Playing) else None),
       [Grab(it.id)])
  }

  /** `OnTriggerPressed` as written: the intensity drops to 0, the effect
      ends and, with the button held, the blast fires — but the base
      callback that records the press time is not called. */
  function OnTriggerPressedAsWritten(g: GravityState, f: Frame): (r: (GravityState, seq<Act>))
    ensures r.0.intensity == 0.0
    ensures r.1 == (if f.button then [Blast] else [])
    ensures r.0.core == g.core
    ensures r.0 == g.(intensity := 0.0, effect := EndEffect(g.effect))
  {
    (g.(intensity := 0.0, effect := EndEffect(g.effect)), if f.button then [Blast] else [])
  }

  /** `OnTriggerPressed` with the base call the other modes make: the same,
      and the press time is recorded. */
  function OnTriggerPressed(g: GravityState, f: Frame): (r: (GravityState, seq<Act>))
    ensures r.0.core.inputs.lastTriggerPress == f.now
    ensures r == (var w := OnTriggerPressedAsWritten(g, f);
                  (w.0.(core := w.0.core.(inputs := g.core.inputs.(lastTriggerPress := f.now))), w.1))
  {
    var w := OnTriggerPressedAsWritten(g, f);
    (w.0.(core := w.0.core.(inputs := BaseCallback(g.core.inputs, Pressed(Trigger), f.now))), w.1)
  }

  /** `OnTriggerHeld`: with the button up and nothing held, a target is
      sought. */
  function OnTriggerHeld(g: GravityState, f: Frame): (r: (GravityState, seq<Act>))
    ensures f.button || g.target.Some? ==> r == (g, [])
    ensures !f.button && g.target.None? ==> r == AcquireTarget(g, f.items, f.spawned)
  {
    if !f.button && g.target.None? then AcquireTarget(g, f.items, f.spawned) else (g, [])
  }

  /** `OnTriggerReleased`: the release time is recorded, the joint goes,
      the held item loses the modifier and is thrown, the effect ends, and
      nothing is held any more. */
  function OnTriggerReleased(g: GravityState, f: Frame): (r: (GravityState, seq<Act>))
    ensures r.0.target.None? && r.0.joint.None?
    ensures r.0.core.inputs == g.core.inputs.(lastTriggerReleased := f.now)
    ensures r.1 == (if g.target.Some? then [Throw(g.target.value.id)] else [])
    ensures Consistent(g) ==> r.0.modified == {} && Consistent(r.0)
    ensures r.0.effect == EndEffect(g.effect)
    ensures r.0.rotation == g.rotation && r.0.intensity == g.intensity && r.0.lastHeldRadius == g.lastHeldRadius
  {
    var inputs := BaseCallback(g.core.inputs, Released(Trigger), f.now);
    var modified := if g.target.Some? then g.modified - {g.target.value.id} else g.modified;
    (g.(core := g.core.(inputs := inputs), target := None, joint := None, modified := modified,
        effect := EndEffect(g.effect)),
     if g.target.Some? then [Throw(g.target.value.id)] else [])
  }

  /** A frame's callback log. */
  datatype Step = Step(g: GravityState, acts: seq<Act>)

  function Append(s: Step, r: (GravityState, seq<Act>)): Step {
    Step(r.0, s.acts + r.1)
  }

  /** The mode's callback table: the three trigger overrides, and the
      default time-recording callbacks for the rest. */
  function OnEvent(s: Step, e: InputEvent, f: Frame): (r: Step)
    ensures |r.acts| >= |s.acts| && r.acts[..|s.acts|] == s.acts
    ensures e != Held(Trigger) && s.g.target.None? ==> r.g.target.None?
    ensures e == Released(Trigger) ==> r.g.target.None?
    ensures r.g.rotation == s.g.rotation
    ensures e != Pressed(Trigger) ==> r.g.core.inputs.lastTriggerPress == s.g.core.inputs.lastTriggerPress
    ensures e == Pressed(Trigger) ==> r.g.core.inputs.lastTriggerPress == f.now
  {
    match e
    case Pressed(Trigger) => Append(s, OnTriggerPressed(s.g, f))
    case Held(Trigger) => Append(s, OnTriggerHeld(s.g, f))
    case Released(Trigger) => Append(s, OnTriggerReleased(s.g, f))
    case _ => Step(s.g.(core := s.g.core.(inputs := BaseCallback(s.g.core.inputs, e, f.now))), s.acts)
  }

  /** The callback table with `OnTriggerPressed` as written. */
  function OnEventAsWritten(s: Step, e: InputEvent, f: Frame): (r: Step)
    ensures e != Pressed(Trigger) ==> r == OnEvent(s, e, f)
  {
    if e == Pressed(Trigger) then Append(s, OnTriggerPressedAsWritten(s.g, f)) else OnEvent(s, e, f)
  }

  /** Every callback keeps the mode's bookkeeping. */
  lemma OnEventConsistent(s: Step, e: InputEvent, f: Frame)
    requires Consistent(s.g)
    ensures Consistent(OnEvent(s, e, f).g)
    ensures Consistent(OnEventAsWritten(s, e, f).g)
  {
  }

  // ---------------------------------------------------------------------
  // One frame

  /** What a frame leaves behind: the mode, what it did to the world, and
      the pose of every guide the pose loop walks. */
  datatype FrameResult = FrameResult(g: GravityState, acts: seq<Act>, poses: seq<(nat, Placement)>)

  /** The callback table a frame dispatches to. */
  function Callbacks(f: Frame, asWritten: bool): (cb: (Step, InputEvent) -> Step)
    ensures forall x: Step, e: InputEvent :: cb(x, e) == if asWritten then OnEventAsWritten(x, e, f) else OnEvent(x, e, f)
  {
    (x: Step, e: InputEvent) => if asWritten then OnEventAsWritten(x, e, f) else OnEvent(x, e, f)
  }

  /** The controls read for the frame, the trigger through the cooldown,
      and the callbacks they fire. */
  function Polled(g: GravityState, h: Holder, f: Frame): (ModeCore, seq<InputEvent>) {
    Poll(g.core, h, f.now, Cooldown(h.button))
  }

  function Start(g: GravityState, h: Holder, f: Frame): Step {
    Step(g.(core := Polled(g, h, f).0), [])
  }

  /** The input half of `Update`: the frame's callbacks run in order. */
  function Dispatched(g: GravityState, h: Holder, f: Frame, asWritten: bool): (s: Step)
  {
    Dispatch(Start(g, h, f), Polled(g, h, f).1, Callbacks(f, asWritten))
  }

  /** The rest of `Update`, after the callbacks: the labels, the pose loop
      (with the rotation from before the frame's turn), then the effect
      intensity and the turn. */
  function Finish(s: Step, h: Holder, f: Frame, dt: real): (r: FrameResult)
    ensures r.acts == s.acts
    ensures r.g.target == s.g.target && r.g.joint == s.g.joint && r.g.modified == s.g.modified && r.g.effect == s.g.effect
    ensures r.g.core.inputs == s.g.core.inputs
    ensures r.g.rotation == s.g.rotation + dt * SpinRate(s.g.target.Some?, f.now, s.g.core.inputs.lastTriggerPress)
    ensures r.g.intensity == StepIntensity(s.g.intensity, s.g.target.Some?, s.g.effect.Some?, dt)
    ensures r.g.lastHeldRadius == HeldRadius(s.g).1
    ensures |r.poses| == |s.g.core.jointParts|
  {
    var g1 := s.g;
    var cd := Cooldown(h.button);
    var holding := g1.target.Some?;
    var shownTrigger := TriggerReads(h.trigger, f.now, g1.core.inputs.lastTriggerReleased, cd);
    var core := RefreshLabels(g1.core, h.side, true, UseText(h.button, holding),
                              AltShown(h.button, shownTrigger), AltText);
    var hr := HeldRadius(g1.(core := core));
    var poses := PoseLoop(core.jointParts, i => GetPos(i, holding, h.button, g1.rotation, hr.1));
    var rate := SpinRate(holding, f.now, core.inputs.lastTriggerPress);
    var g2 := hr.0.(intensity := StepIntensity(g1.intensity, holding, g1.effect.Some?, dt),
                    rotation := g1.rotation + dt * rate);
    FrameResult(g2, s.acts, poses)
  }

  /** `Update`: the base's input dispatch, labels and pose loop, then the
      effect intensity and the rotation. `h` is the holder of shard 11;
      `dt` is the frame's duration. `asWritten` selects the trigger-press
      callback as written. */
  function UpdateWith(g: GravityState, h: Holder, f: Frame, dt: real, asWritten: bool): (r: FrameResult)
    requires f.button == h.button
    ensures Consistent(g) && dt >= 0.0 ==> Consistent(r.g)
  {
    if Consistent(g) && dt >= 0.0 then
      KeepsConsistent(Start(g, h, f), Polled(g, h, f).1, f, asWritten);
      Finish(Dispatched(g, h, f, asWritten), h, f, dt)
    else Finish(Dispatched(g, h, f, asWritten), h, f, dt)
  }

  /** The frame with the trigger-press callback corrected: a frame whose
      trigger goes down records the press time. */
  function Update(g: GravityState, h: Holder, f: Frame, dt: real): (r: FrameResult)
    requires f.button == h.button
    ensures Consistent(g) && dt >= 0.0 ==> Consistent(r.g)
    ensures !g.core.inputs.wasTrigger && TriggerReads(h.trigger, f.now, g.core.inputs.lastTriggerReleased, Cooldown(h.button)) ==>
              r.g.core.inputs.lastTriggerPress == f.now
  {
    if !g.core.inputs.wasTrigger && TriggerReads(h.trigger, f.now, g.core.inputs.lastTriggerReleased, Cooldown(h.button)) then
      DispatchedPress(g, h, f);
      UpdateWith(g, h, f, dt, false)
    else UpdateWith(g, h, f, dt, false)
  }

  /** The frame as written: no frame ever records the press time. */
  function UpdateAsWritten(g: GravityState, h: Holder, f: Frame, dt: real): (r: FrameResult)
    requires f.button == h.button
    ensures Consistent(g) && dt >= 0.0 ==> Consistent(r.g)
    ensures r.g.core.inputs.lastTriggerPress == g.core.inputs.lastTriggerPress
  {
    AsWrittenKeepsPressTime(Start(g, h, f), Polled(g, h, f).1, f);
    UpdateWith(g, h, f, dt, true)
  }

  lemma {:induction false} KeepsConsistent(x: Step, es: seq<InputEvent>, f: Frame, asWritten: bool)
    requires Consistent(x.g)
    ensures Consistent(Dispatch(x, es, Callbacks(f, asWritten)).g)
    decreases |es|
  {
    if |es| > 0 {
      OnEventConsistent(x, es[0], f);
      KeepsConsistent(if asWritten then OnEventAsWritten(x, es[0], f) else OnEvent(x, es[0], f), es[1..], f, asWritten);
    }
  }

  /** Callbacks other than the trigger being held never pick anything
      up. */
  lemma {:induction false} KeepsEmptyHanded(x: Step, es: seq<InputEvent>, f: Frame)
    requires x.g.target.None? && (f.button || Held(Trigger) !in es)
    ensures Dispatch(x, es, Callbacks(f, false)).g.target.None?
    decreases |es|
  {
    if |es| > 0 {
      assert es[0] != Held(Trigger) || f.button;
      assert Held(Trigger) !in es ==> Held(Trigger) !in es[1..];
      KeepsEmptyHanded(OnEvent(x, es[0], f), es[1..], f);
    }
  }

  /** A frame pulls in an item only when the trigger reads pressed, the
      button is up and nothing was held. */
  lemma UpdateAcquiresOnlyWhenAsked(g: GravityState, h: Holder, f: Frame, dt: real)
    requires f.button == h.button && g.target.None?
    requires Update(g, h, f, dt).g.target.Some?
    ensures !h.button
    ensures TriggerReads(h.trigger, f.now, g.core.inputs.lastTriggerReleased, Cooldown(h.button))
  {
    if h.button || Held(Trigger) !in Polled(g, h, f).1 {
      KeepsEmptyHanded(Start(g, h, f), Polled(g, h, f).1, f);
      assert false;
    }
  }

  /** Nothing held, tethered or modified, and the frame's log opening
      with `first`. */
  predicate LetGo(x: Step, first: seq<Act>) {
    x.g.target.None? && x.g.joint.None? && x.g.modified == {} && |x.acts| >= |first| && x.acts[..|first|] == first
  }

  lemma {:induction false} KeepsLetGo(x: Step, es: seq<InputEvent>, f: Frame, first: seq<Act>)
    requires Held(Trigger) !in es && LetGo(x, first)
    ensures LetGo(Dispatch(x, es, Callbacks(f, false)), first)
    decreases |es|
  {
    if |es| > 0 {
      var y := OnEvent(x, es[0], f);
      assert y.acts[..|first|] == y.acts[..|x.acts|][..|first|];
      assert Held(Trigger) !in es[1..];
      KeepsLetGo(y, es[1..], f, first);
    }
  }

  /** A frame whose trigger reading falls lets go: nothing is held or
      tethered or modified afterwards, and the item held before was thrown
      first thing. */
  lemma UpdateReleaseThrows(g: GravityState, h: Holder, f: Frame, dt: real)
    requires f.button == h.button && Consistent(g)
    requires g.core.inputs.wasTrigger && !TriggerReads(h.trigger, f.now, g.core.inputs.lastTriggerReleased, Cooldown(h.button))
    ensures var r := Update(g, h, f, dt);
            r.g.target.None? && r.g.joint.None? && r.g.modified == {}
    ensures var r := Update(g, h, f, dt);
            g.target.Some? ==> |r.acts| > 0 && r.acts[0] == Throw(g.target.value.id)
  {
    var first := if g.target.Some? then [Throw(g.target.value.id)] else [];
    DispatchedLetsGo(g, h, f);
    if g.target.Some? {
      var r := Dispatched(g, h, f, false);
      assert r.acts[0] == r.acts[..1][0];
    }
  }

  /** The input half of a releasing frame lets go, opening its log with
      the throw. */
  lemma DispatchedLetsGo(g: GravityState, h: Holder, f: Frame)
    requires Consistent(g)
    requires g.core.inputs.wasTrigger && !TriggerReads(h.trigger, f.now, g.core.inputs.lastTriggerReleased, Cooldown(h.button))
    ensures LetGo(Dispatched(g, h, f, false), if g.target.Some? then [Throw(g.target.value.id)] else [])
  {
    var es := Polled(g, h, f).1;
    CheckInputsOrder(g.core.inputs, false, h.button);
    assert es[0] == Released(Trigger);
    var s1 := OnEvent(Start(g, h, f), es[0], f);
    assert Dispatched(g, h, f, false) == Dispatch(s1, es[1..], Callbacks(f, false));
    var first := if g.target.Some? then [Throw(g.target.value.id)] else [];
    ReleaseLetsGo(g, h, f);
    assert Held(Trigger) !in es[1..];
    KeepsLetGo(s1, es[1..], f, first);
  }

  /** The release callback on its own lets go, throwing the held item. */
  lemma ReleaseLetsGo(g: GravityState, h: Holder, f: Frame)
    requires Consistent(g)
    ensures LetGo(OnEvent(Start(g, h, f), Released(Trigger), f), if g.target.Some? then [Throw(g.target.value.id)] else [])
  {
  }

  // ---------------------------------------------------------------------
  // The press time (finding)

  /** As written, no callback records the trigger press, so a frame never
      moves the press time (nor the rotation). */
  lemma {:induction false} AsWrittenKeepsPressTime(x: Step, es: seq<InputEvent>, f: Frame)
    ensures Dispatch(x, es, Callbacks(f, true)).g.core.inputs.lastTriggerPress == x.g.core.inputs.lastTriggerPress
    ensures Dispatch(x, es, Callbacks(f, true)).g.rotation == x.g.rotation
    decreases |es|
  {
    if |es| > 0 {
      AsWrittenKeepsPressTime(OnEventAsWritten(x, es[0], f), es[1..], f);
    }
  }

  /** As written, a mode that never saw a press (its press time is the
      initial 0) turns at the full 300 degrees a second from the very first
      frame it holds an item, one second or more into the game: the ramp
      never happens. */
  lemma UpdateAsWrittenSkipsRamp(g: GravityState, h: Holder, f: Frame, dt: real)
    requires f.button == h.button && g.core.inputs.lastTriggerPress == 0.0 && f.now >= 1.0
    requires UpdateAsWritten(g, h, f, dt).g.target.Some?
    ensures UpdateAsWritten(g, h, f, dt).g.rotation == g.rotation + dt * 300.0
  {
    AsWrittenKeepsPressTime(Start(g, h, f), Polled(g, h, f).1, f);
  }

  /** With the press recorded, every callback after it keeps the press
      time and the rotation. */
  lemma {:induction false} KeepsPressTime(x: Step, es: seq<InputEvent>, f: Frame)
    requires x.g.core.inputs.lastTriggerPress == f.now
    ensures Dispatch(x, es, Callbacks(f, false)).g.core.inputs.lastTriggerPress == f.now
    ensures Dispatch(x, es, Callbacks(f, false)).g.rotation == x.g.rotation
    decreases |es|
  {
    if |es| > 0 {
      KeepsPressTime(OnEvent(x, es[0], f), es[1..], f);
    }
  }

  /** With the press recorded, the frame in which the trigger goes down
      and an item is caught turns at the slow 80 degrees a second, and the
      ramp to 300 starts from there. */
  lemma UpdateRampStartsAtPress(g: GravityState, h: Holder, f: Frame, dt: real)
    requires f.button == h.button && !g.core.inputs.wasTrigger
    requires TriggerReads(h.trigger, f.now, g.core.inputs.lastTriggerReleased, Cooldown(h.button))
    requires Update(g, h, f, dt).g.target.Some?
    ensures Update(g, h, f, dt).g.rotation == g.rotation + dt * 80.0
  {
    DispatchedPress(g, h, f);
    var d := Dispatched(g, h, f, false);
    var r := Finish(d, h, f, dt);
    assert Update(g, h, f, dt) == r;
    assert SpinRate(d.g.target.Some?, f.now, d.g.core.inputs.lastTriggerPress) == 80.0;
  }

  /** A frame whose trigger goes down records the press time and keeps the
      rotation through its callbacks. */
  lemma DispatchedPress(g: GravityState, h: Holder, f: Frame)
    requires !g.core.inputs.wasTrigger
    requires TriggerReads(h.trigger, f.now, g.core.inputs.lastTriggerReleased, Cooldown(h.button))
    ensures Dispatched(g, h, f, false).g.rotation == g.rotation
    ensures Dispatched(g, h, f, false).g.core.inputs.lastTriggerPress == f.now
  {
    var es := Polled(g, h, f).1;
    CheckInputsOrder(g.core.inputs, true, h.button);
    assert es[0] == Pressed(Trigger);
    var s1 := OnEvent(Start(g, h, f), es[0], f);
    assert Dispatched(g, h, f, false) == Dispatch(s1, es[1..], Callbacks(f, false));
    KeepsPressTime(s1, es[1..], f);
  }

  // ---------------------------------------------------------------------
  // Entry and exit

  /** `Enter`: the grabbed-shard entry on shard 11, with nothing held, no
      effect, and every counter at zero. */
  function Enter(sw: Sword, side: Side, now: real): (r: (Sword, GravityState))
    requires SpellTarget in sw.parts
    ensures r.0 == EnterCore(sw, Grabbed, SpellTarget, side, now).0
    ensures r.1.core == EnterCore(sw, Grabbed, SpellTarget, side, now).1
    ensures Consistent(r.1) && r.1.target.None? && r.1.effect.None?
    ensures r.1.rotation == 0.0 && r.1.intensity == 0.0
  {
    var e := EnterCore(sw, Grabbed, SpellTarget, side, now);
    (e.0, GravityState(e.1, 0.0, None, None, {}, None, 0.0, 0.0))
  }

  /** `Exit`: the grabbed-shard exit; the joint is destroyed, the effect
      ends and the held item loses the modifier (the mode keeps its
      reference, but the object is dropped). */
  function Exit(sw: Sword, g: GravityState): (r: (Sword, GravityState))
    ensures r.0 == ExitCore(sw, g.core).0
    ensures r.1.joint.None? && r.1.effect == EndEffect(g.effect)
    ensures Consistent(g) ==> r.1.modified == {}
    ensures r.1.target == g.target
  {
    var e := ExitCore(sw, g.core);
    var modified := if g.target.Some? then g.modified - {g.target.value.id} else g.modified;
    (e.0, g.(core := e.1, joint := None, effect := EndEffect(g.effect), modified := modified))
  }
}
