/** The two bases of the hand-held modes: `GrabbedShardMode` (a target shard
    held in the hand drives the others) with its `SpellMode` refinement (the
    target is shard 11 and the hand must carry a given spell), and
    `ImbueMode` (target 11, labels re-set every frame, poses walked in
    `PartsInOrder` order). Both share the entry and exit protocol, the edge
    dispatch and the veto on the target shard; the differences are carried
    by a `Flavour`. */
module GrabbedModes {
  import opened Base
  import opened Annotations
  import opened ModeInput
  import opened BladePart
  import opened Blade
  import opened Poses

  /** The main handler of a shard, as far as the modes read it: its side,
      the spell instance in its caster, and the controller's trigger and
      alt-use button. */
  datatype Holder = Holder(side: Side, spell: Option<SpellKind>, trigger: bool, button: bool)

  /** The spell modes all grab shard 11. */
  const SpellTarget: nat := 11

  /** `GrabbedShardMode.Test`: the target shard exists and a hand holds it.
      `hands` maps the number of every held shard to its main handler. */
  function Test(sw: Sword, target: nat, hands: map<nat, Holder>): (r: bool)
    ensures r <==> GetPart(sw, target).Some? && target in hands
  {
    target in sw.parts && target in hands
  }

  /** `SpellMode<T>.Test`: shard 11 exists, is held, and its holder's spell
      instance is a `T`; a missing shard or an empty hand gives false
      through the null-propagation. */
  function SpellTest(sw: Sword, kind: SpellKind, hands: map<nat, Holder>): (r: bool)
    ensures r <==> SpellTarget in sw.parts && SpellTarget in hands && hands[SpellTarget].spell == Some(kind)
  {
    Test(sw, SpellTarget, hands) && hands[SpellTarget].spell == Some(kind)
  }

  /** A spell mode's test implies the plain grabbed-shard test, and at most
      one spell kind passes at a time. */
  lemma SpellTestRefinesTest(sw: Sword, k1: SpellKind, k2: SpellKind, hands: map<nat, Holder>)
    ensures SpellTest(sw, k1, hands) ==> Test(sw, SpellTarget, hands)
    ensures SpellTest(sw, k1, hands) && SpellTest(sw, k2, hands) ==> k1 == k2
    ensures !Test(sw, SpellTarget, hands) ==> !SpellTest(sw, k1, hands)
  {
  }

  /** `SpellMode<T>.Spell`: the holder's spell as a `T`, or null when it is
      another kind (or there is none). */
  function Spell(h: Holder, kind: SpellKind): (r: Option<SpellKind>)
    ensures r.Some? <==> h.spell == Some(kind)
    ensures r.Some? ==> r.value == kind
  {
    if h.spell == Some(kind) then Some(kind) else None
  }

  // ---------------------------------------------------------------------
  // The mode object

  datatype Flavour = Grabbed | Imbued

  /** The state both bases keep: the target shard, the input fields, the
      guide list built on entry, and the trigger and button labels with the
      text last pushed to each. */
  datatype ModeCore = ModeCore(
    flavour: Flavour,
    target: nat,
    inputs: Inputs,
    jointParts: seq<nat>,
    use: CachedLabel,
    altUse: CachedLabel)

  /** Where the trigger label floats, beside the palm of the holding hand. */
  function UseOffset(fl: Flavour, side: Side): (r: Vec3)
    ensures r.x == 1.0 && r.y == -1.0
    ensures side == Left ==> r.z > 0.0
    ensures side == Right ==> r.z < 0.0
    ensures fl == Grabbed ==> r.z == 1.5 || r.z == -1.5
    ensures fl == Imbued ==> r.z == 1.0 || r.z == -1.0
  {
    var z := if fl == Grabbed then 1.5 else 1.0;
    Vec3(1.0, -1.0, if side == Left then z else -z)
  }

  /** Where the button label floats: the trigger label's place, mirrored
      upwards. */
  function AltOffset(fl: Flavour, side: Side): (r: Vec3)
    ensures r == UseOffset(fl, side).(y := 1.0)
  {
    var z := if fl == Grabbed then 1.5 else 1.0;
    Vec3(1.0, 1.0, if side == Left then z else -z)
  }

  /** The modes' `ShouldReform`: every shard but the target. (When the
      target shard is missing, no shard equals the null `GetPart` returns,
      which is the same thing.) */
  function ReformVeto(m: ModeCore): (v: Veto)
    ensures forall k :: Allows(v, k) <==> k != m.target
  {
    AllBut(m.target)
  }

  /** The modes' `ShouldLock`: `GrabbedShardMode` excludes the target;
      `ImbueMode` does not override it and keeps the default, which allows
      every shard. */
  function LockVeto(m: ModeCore): (v: Veto)
    ensures m.flavour == Grabbed ==> forall k :: Allows(v, k) <==> k != m.target
    ensures m.flavour == Imbued ==> forall k :: Allows(v, k)
  {
    if m.flavour == Grabbed then AllBut(m.target) else AllowAll
  }

  /** `Enter`: the rig stops locking, the animator stops and the guides are
      unparented; the guide list is built; the shards are handled by
      `EnterParts` (under the rig with locking already off); the two
      mode labels are created on the target and the sword's own labels are
      hidden. The holding hand's side places the labels. The target must
      exist: the method dereferences it. */
  function EnterCore(sw: Sword, fl: Flavour, target: nat, side: Side, now: real): (r: (Sword, ModeCore))
    requires target in sw.parts
    requires fl == Imbued ==> target == SpellTarget
    ensures r.0.rig == sw.rig.(shouldLock := false, animatorEnabled := false, guidesParented := false)
    ensures r.0.labels == HideAllAnnotations(sw.labels)
    ensures r.1 == ModeCore(fl, target, FreshInputs, JointParts(target),
                    CachedLabel(Init(sw.tutorial, target, target, UseOffset(fl, side)), ""),
                    CachedLabel(Init(sw.tutorial, target, target, AltOffset(fl, side)), ""))
    ensures r.0 == sw.(parts := r.0.parts, locking := r.0.locking, rig := r.0.rig, labels := r.0.labels)
  {
    var rig := sw.rig.(shouldLock := false, animatorEnabled := false, guidesParented := false);
    var m := ModeCore(fl, target, FreshInputs, JointParts(target),
                      CachedLabel(Init(sw.tutorial, target, target, UseOffset(fl, side)), ""),
                      CachedLabel(Init(sw.tutorial, target, target, AltOffset(fl, side)), ""));
    var sw1 := EnterParts(sw.(rig := rig), target, now);
    (sw1.(labels := HideAllAnnotations(sw.labels)), m)
  }

  /** The shard half of `Enter`: `ReformParts` under the new mode's veto,
      then the target detached without a throw. */
  function EnterParts(sw: Sword, target: nat, now: real): (r: Sword)
    requires target in sw.parts && !sw.rig.shouldLock
    ensures r.rig == sw.rig && r.labels == sw.labels && r.isReady == sw.isReady && r.spawning == sw.spawning
    ensures r.parts.Keys == sw.parts.Keys
    ensures !sw.isReady ==> r.locking == sw.locking
    ensures r.parts[target].state == Free && r.parts[target].joint.None?
    ensures sw.isReady ==> r.locking
    ensures forall k :: k in sw.parts && k != target ==>
              r.parts[k] == if sw.isReady then Reform(sw.parts[k], false, now) else sw.parts[k]
  {
    var sw1 := ReformParts(sw, AllBut(target), now);
    var d := Detach(sw1.parts[target], false, Vec3(0.0, 0.0, 0.0), now);
    sw1.(parts := sw1.parts[target := d])
  }

  /** After entry the target is free and jointless, and on a ready sword
      every other shard has been reformed with locking off (on a sword not
      yet ready they are untouched). */
  lemma EnterShards(sw: Sword, fl: Flavour, target: nat, side: Side, now: real)
    requires target in sw.parts
    requires fl == Imbued ==> target == SpellTarget
    ensures var r := EnterCore(sw, fl, target, side, now).0;
            r.parts.Keys == sw.parts.Keys && r.parts[target].state == Free && r.parts[target].joint.None?
    ensures var r := EnterCore(sw, fl, target, side, now).0;
            r.parts[target] == Detach(sw.parts[target], false, Vec3(0.0, 0.0, 0.0), now)
    ensures var r := EnterCore(sw, fl, target, side, now).0;
            r.spawning == sw.spawning && r.isReady == sw.isReady
    ensures var r := EnterCore(sw, fl, target, side, now).0;
            sw.isReady ==> r.locking && r.isReady
    ensures var r := EnterCore(sw, fl, target, side, now).0;
            forall k :: k in sw.parts && k != target ==>
              r.parts[k] == if sw.isReady then Reform(sw.parts[k], false, now) else sw.parts[k]
  {
  }

  /** Entry keeps the sword's shard-number bookkeeping. */
  lemma EnterKeepsBookkeeping(sw: Sword, fl: Flavour, target: nat, side: Side, now: real)
    requires target in sw.parts && Bookkeeping(sw)
    requires fl == Imbued ==> target == SpellTarget
    ensures Bookkeeping(EnterCore(sw, fl, target, side, now).0)
  {
    EnterShards(sw, fl, target, side, now);
    var r := EnterCore(sw, fl, target, side, now).0;
    assert r.spawning == sw.spawning && r.isReady == sw.isReady;
    forall k | k in r.parts ensures IsIndex(k) && r.parts[k].index == k && k !in r.spawning {
      assert k in sw.parts;
      if k == target {
        assert r.parts[k] == Detach(sw.parts[k], false, Vec3(0.0, 0.0, 0.0), now);
      } else if sw.isReady {
        assert r.parts[k] == Reform(sw.parts[k], false, now);
      } else {
        assert r.parts[k] == sw.parts[k];
      }
    }
  }

  /** `Exit`: both mode labels are destroyed, the guides go back under the
      animator, the animator runs and locking is back on. */
  function ExitCore(sw: Sword, m: ModeCore): (r: (Sword, ModeCore))
    ensures r.0.rig.shouldLock && r.0.rig.animatorEnabled && r.0.rig.guidesParented
    ensures r.0.rig.(shouldLock := sw.rig.shouldLock, animatorEnabled := sw.rig.animatorEnabled,
                     guidesParented := sw.rig.guidesParented) == sw.rig
    ensures r.0 == sw.(rig := r.0.rig)
    ensures !r.1.use.ann.alive && !r.1.altUse.ann.alive
    ensures r.1.use.ann.text == "" && r.1.altUse.ann.text == ""
  {
    var rig := sw.rig.(shouldLock := true, animatorEnabled := true, guidesParented := true);
    (sw.(rig := rig),
     m.(use := m.use.(ann := Destroy(m.use.ann)), altUse := m.altUse.(ann := Destroy(m.altUse.ann))))
  }

  /** Entering and leaving a hand-held mode gives the sword back the rig it
      had when no mode had touched it, and leaves the parts as entry left
      them. */
  lemma EnterExitRoundTrip(sw: Sword, fl: Flavour, target: nat, side: Side, now: real)
    requires target in sw.parts
    requires fl == Imbued ==> target == SpellTarget
    requires sw.rig.shouldLock && sw.rig.animatorEnabled && sw.rig.guidesParented
    ensures var e := EnterCore(sw, fl, target, side, now);
            ExitCore(e.0, e.1).0.rig == sw.rig && ExitCore(e.0, e.1).0.parts == e.0.parts
  {
  }

  /** Entry leaves the target free and, on a ready sword, every other shard
      on its way back; the shards the sword then wants back are exactly the
      others. */
  lemma EnterReformsAllButTarget(sw: Sword, fl: Flavour, target: nat, side: Side, now: real, k: nat)
    requires target in sw.parts && sw.isReady && k in sw.parts
    requires fl == Imbued ==> target == SpellTarget
    ensures var e := EnterCore(sw, fl, target, side, now);
            e.0.parts[k].state == Reforming <==> k != target
    ensures var e := EnterCore(sw, fl, target, side, now);
            ShouldReform(e.0, ReformVeto(e.1), k) <==> k != target
  {
  }

  // ---------------------------------------------------------------------
  // One frame

  /** `IsTriggerPressed` and `CheckInputs` for the frame: the trigger reads
      through the mode's cooldown, the button reads raw. */
  function Poll(m: ModeCore, h: Holder, now: real, cooldown: real): (r: (ModeCore, seq<InputEvent>))
  {
    var t := TriggerReads(h.trigger, now, m.inputs.lastTriggerReleased, cooldown);
    var c := CheckInputs(m.inputs, t, h.button);
    (m.(inputs := c.0), c.1)
  }

  /** The trigger delay of a mode that keeps the default `Cooldown()`. */
  const NoCooldown: real := 0.0

  /** The input half of `Update` for a mode that keeps the default
      callbacks and the default delay: the edge flags follow the controls
      and each edge stamps its time. */
  function PlainPoll(m: ModeCore, h: Holder, now: real): (r: ModeCore)
    ensures r == m.(inputs := r.inputs)
    ensures var down := TriggerReads(h.trigger, now, m.inputs.lastTriggerReleased, NoCooldown);
            var i := m.inputs;
            r.inputs == i.(wasTrigger := down, wasButton := h.button,
                           lastTriggerPress := if down && !i.wasTrigger then now else i.lastTriggerPress,
                           lastTriggerReleased := if !down && i.wasTrigger then now else i.lastTriggerReleased,
                           lastButtonPress := if h.button && !i.wasButton then now else i.lastButtonPress,
                           lastButtonReleased := if !h.button && i.wasButton then now else i.lastButtonReleased)
  {
    var down := TriggerReads(h.trigger, now, m.inputs.lastTriggerReleased, NoCooldown);
    var c := CheckInputs(m.inputs, down, h.button);
    RecordStamps(c.0, c.1, now);
    m.(inputs := Dispatch(c.0, c.1, Recorder(now)))
  }

  /** The label upkeep of `Update`: both offsets follow the hand; the
      grabbed-shard base pushes a text only when it differs from the cached
      one, the imbue base sets it every frame; a label not to be shown is
      hidden. */
  function RefreshLabels(m: ModeCore, side: Side, useShown: bool, useText: string, altShown: bool, altText: string): (r: ModeCore)
    ensures r == m.(use := r.use, altUse := r.altUse)
    ensures r.use.ann.offset == UseOffset(m.flavour, side) && r.altUse.ann.offset == AltOffset(m.flavour, side)
    ensures r.use.ann.shouldShow == m.use.ann.shouldShow && r.altUse.ann.shouldShow == m.altUse.ann.shouldShow
    ensures !useShown ==> !r.use.ann.visible
    ensures !altShown ==> !r.altUse.ann.visible
    ensures useShown && m.use.ann.shouldShow &&
            (m.flavour == Imbued || m.use.last != useText || (CacheSound(m.use) && useText != ""))
            ==> r.use.ann.visible && r.use.ann.text == Render(useText, None)
    ensures m.flavour == Grabbed && useShown && m.use.last == useText ==> r.use.ann.text == m.use.ann.text
    ensures Quiet(m.use.ann) ==> Quiet(r.use.ann)
    ensures Quiet(m.altUse.ann) ==> Quiet(r.altUse.ann)
  {
    var use := m.use.(ann := m.use.ann.(offset := UseOffset(m.flavour, side)));
    var alt := m.altUse.(ann := m.altUse.ann.(offset := AltOffset(m.flavour, side)));
    assert CacheSound(m.use) ==> CacheSound(use);
    if m.flavour == Grabbed then
      m.(use := RefreshCached(use, useShown, useText), altUse := RefreshCached(alt, altShown, altText))
    else
      m.(use := use.(ann := RefreshEveryFrame(use.ann, useShown, useText)),
         altUse := alt.(ann := RefreshEveryFrame(alt.ann, altShown, altText)))
  }

  /** Running the label upkeep twice with the same inputs changes nothing
      the second time, in both bases. */
  lemma RefreshLabelsIdempotent(m: ModeCore, side: Side, useShown: bool, useText: string, altShown: bool, altText: string)
    ensures var once := RefreshLabels(m, side, useShown, useText, altShown, altText);
            RefreshLabels(once, side, useShown, useText, altShown, altText) == once
  {
    var use := m.use.(ann := m.use.ann.(offset := UseOffset(m.flavour, side)));
    var alt := m.altUse.(ann := m.altUse.ann.(offset := AltOffset(m.flavour, side)));
    if m.flavour == Grabbed {
      RefreshCachedIdempotent(use, useShown, useText);
      RefreshCachedIdempotent(alt, altShown, altText);
    } else {
      RefreshEveryFrameIdempotent(use.ann, useShown, useText);
      RefreshEveryFrameIdempotent(alt.ann, altShown, altText);
    }
  }

  /** The guides the pose loop walks: the list built on entry for the
      grabbed-shard base, `PartsInOrder` of the rig's guides for the imbue
      base. */
  function PoseBodies(m: ModeCore, rbs: seq<nat>): (r: seq<nat>)
    ensures m.flavour == Grabbed ==> r == m.jointParts
    ensures m.flavour == Imbued ==> forall k :: k in r <==> k in rbs && k != 11
  {
    if m.flavour == Grabbed then m.jointParts else PartsInOrder(rbs)
  }

  /** The pose loop: the `j`-th guide of the list goes where `pos` sends
      pose index `j + 1`. */
  function PoseLoop<P>(bodies: seq<nat>, pos: nat -> P): (r: seq<(nat, P)>)
    ensures |r| == |bodies|
    ensures forall j :: 0 <= j < |r| ==> r[j].0 == bodies[j]
    ensures forall j :: 0 <= j < |r| ==> r[j].1 == pos(j + 1)
  {
    seq(|bodies|, j requires 0 <= j < |bodies| => (bodies[j], pos(j + 1)))
  }

  /** Whichever base, a mode entered on a rig whose fifteen guides are
      named once each walks the fourteen guides other than its target in
      numeric order, so pose index `i` (1..14) drives guide `i` below the
      target and guide `i + 1` above it. */
  lemma PoseBodiesAfterEnter(sw: Sword, fl: Flavour, target: nat, side: Side, now: real, rbs: seq<nat>)
    requires target in sw.parts && IsIndex(target)
    requires fl == Imbued ==> target == SpellTarget
    requires forall k :: k in rbs <==> 1 <= k <= 15
    requires forall k :: multiset(rbs)[k] <= 1
    ensures var bodies := PoseBodies(EnterCore(sw, fl, target, side, now).1, rbs);
            bodies == JointParts(target) && |bodies| == 14
    ensures var bodies := PoseBodies(EnterCore(sw, fl, target, side, now).1, rbs);
            forall j :: 0 <= j < 14 ==> bodies[j] == (if j + 1 < target then j + 1 else j + 2)
  {
    JointPartsSlots(target);
    if fl == Imbued {
      PartsInOrderIsJointParts(rbs);
    }
  }

  // ---------------------------------------------------------------------
  // The spin

  /** The turn rate of the gravity and flamethrower rings: while `ramping`
      (an item held, or the trigger held) it ramps from 80 to 300 degrees a
      second over the first second after the trigger press; otherwise it is
      80. */
  function SpinRate(ramping: bool, now: real, lastTriggerPress: real): (r: real)
    ensures 80.0 <= r <= 300.0
    ensures !ramping ==> r == 80.0
    ensures ramping && now <= lastTriggerPress ==> r == 80.0
    ensures ramping && now - lastTriggerPress >= 1.0 ==> r == 300.0
  {
    if ramping then Lerp(80.0, 300.0, Clamp01(now - lastTriggerPress)) else 80.0
  }

  /** A ring's angle after turning at `rate` degrees a second for `dt`
      seconds. */
  function Turn(rotation: real, dt: real, rate: real): real {
    rotation + dt * rate
  }

  /** The longer the trigger has been down, the faster the ring turns. */
  lemma SpinRateRamps(now1: real, now2: real, press: real)
    requires now1 <= now2
    ensures SpinRate(true, now1, press) <= SpinRate(true, now2, press)
  {
    assert Clamp01(now1 - press) <= Clamp01(now2 - press);
    LerpMonotone(80.0, 300.0, Clamp01(now1 - press), Clamp01(now2 - press));
  }
}
