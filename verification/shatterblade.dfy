/** The sword's frame (`Shatterblade.Update`) and its mode switch
    (`ChangeMode`). Each frame first drops destroyed shards and requests
    the missing ones, then waits at the ready gate until fifteen shards
    exist. Past the gate a fixed cascade picks the mode: a spell weapon
    when shard 11 is held and the top shard is imbued; the cannon when
    shard 10 is held; the shield or the expanded blade while the alternate
    button is held; the plain sword otherwise, where releasing the button
    either toggles the blade (a tap) or ends a hold. Finally the active
    mode updates. */
module Shatterblade {
  import opened Base
  import opened BladePart
  import opened Annotations
  import opened Blade
  import opened GrabbedModes
  import opened HiltModes
  import Cannon
  import Gravity
  import Lightning
  import Flamethrower

  // ---------------------------------------------------------------------
  // Modes

  /** The modes the cascade chooses between. (The swarm and the saw exist
      as modes, but the cascade never selects them.) */
  datatype ModeKind = SwordKind | ExpandedKind | ShieldKind | CannonKind | GravityKind | LightningKind | FlamethrowerKind

  /** The state a mode keeps; the three hilt modes keep none. */
  datatype ModeData =
    | NoData
    | CannonData(cannon: Cannon.CannonState)
    | GravityData(gravity: Gravity.GravityState)
    | LightningData(lightning: Lightning.LightningState)
    | FlamethrowerData(flame: Flamethrower.FlameState)

  /** An active mode: which one (`mode is T`), and its state. */
  datatype Mode = Mode(kind: ModeKind, data: ModeData)

  predicate IsHilt(k: ModeKind) {
    k == SwordKind || k == ExpandedKind || k == ShieldKind
  }

  predicate IsSpell(k: ModeKind) {
    k == GravityKind || k == LightningKind || k == FlamethrowerKind
  }

  /** A mode's state is the one its kind keeps. */
  predicate Fits(m: Mode) {
    && (m.data.NoData? <==> IsHilt(m.kind))
    && (m.data.CannonData? <==> m.kind == CannonKind)
    && (m.data.GravityData? <==> m.kind == GravityKind)
    && (m.data.LightningData? <==> m.kind == LightningKind)
    && (m.data.FlamethrowerData? <==> m.kind == FlamethrowerKind)
  }

  predicate Fitting(mode: Option<Mode>) {
    mode.Some? ==> Fits(mode.value)
  }

  /** `mode?.ShouldReform(part) ?? true`: no mode and the hilt modes allow
      every shard, the cannon what its magazine allows, the spell weapons
      every shard but the one in hand. */
  function VetoOf(mode: Option<Mode>): (v: Veto)
    ensures mode.None? || mode.value.data.NoData? ==> forall k :: Allows(v, k)
    ensures mode.Some? && mode.value.data.CannonData? ==>
              forall k :: Allows(v, k) <==> k == Cannon.Barrel || (k in mode.value.data.cannon.magazine && k != Cannon.Grip)
    ensures mode.Some? && mode.value.data.GravityData? ==> forall k :: Allows(v, k) <==> k != mode.value.data.gravity.core.target
    ensures mode.Some? && mode.value.data.LightningData? ==> forall k :: Allows(v, k) <==> k != mode.value.data.lightning.core.target
    ensures mode.Some? && mode.value.data.FlamethrowerData? ==> forall k :: Allows(v, k) <==> k != mode.value.data.flame.core.target
  {
    if mode.None? then AllowAll
    else
      match mode.value.data
      case NoData => AllowAll
      case CannonData(c) => Cannon.ReformVetoOf(c.magazine)
      case GravityData(g) => ReformVeto(g.core)
      case LightningData(x) => ReformVeto(x.core)
      case FlamethrowerData(x) => ReformVeto(x.core)
  }

  /** `Shatterblade.ShouldReform`: under no mode or a hilt mode the sword
      wants every shard back exactly while it is locking. */
  lemma ShouldReformUnderHilt(sw: Sword, mode: Option<Mode>, k: nat)
    requires mode.None? || (Fits(mode.value) && IsHilt(mode.value.kind))
    ensures ShouldReform(sw, VetoOf(mode), k) <==> sw.locking
  {
  }

  /** What entering a mode needs from the frame: the side of the hand on
      the grabbed shard, the rig's guide list (for the cannon's magazine),
      the cannon's first pick, the angle between the button hand's palm
      and the blade's forward (for the shield), and the time. */
  datatype Entry = Entry(side: Side, rbs: seq<nat>, pick: nat, palmAngle: real, now: real)

  /** A mode on a grabbed shard is only entered while that shard exists. */
  predicate CanEnter(sw: Sword, k: ModeKind) {
    && (k == CannonKind ==> Cannon.Grip in sw.parts)
    && (IsSpell(k) ==> SpellTarget in sw.parts)
  }

  /** The entries of the hand-held modes, each seen only through what the
      orchestrator needs of it: the mode it makes, the shards it keeps,
      and the rig it leaves unlocked and without animator. */
  function EnterCannon(sw: Sword, e: Entry): (r: (Sword, Mode))
    requires Cannon.Grip in sw.parts
    ensures r.1.kind == CannonKind && Fits(r.1) && r.0.parts.Keys == sw.parts.Keys
    ensures !r.0.rig.shouldLock && !r.0.rig.animatorEnabled
  {
    var c := Cannon.Enter(sw, e.rbs, e.side, e.now, e.pick);
    (c.0, Mode(CannonKind, CannonData(c.1)))
  }

  function EnterGravity(sw: Sword, e: Entry): (r: (Sword, Mode))
    requires SpellTarget in sw.parts
    ensures r.1.kind == GravityKind && Fits(r.1) && r.0.parts.Keys == sw.parts.Keys
    ensures !r.0.rig.shouldLock && !r.0.rig.animatorEnabled
  {
    EnterShards(sw, Grabbed, SpellTarget, e.side, e.now);
    var g := Gravity.Enter(sw, e.side, e.now);
    (g.0, Mode(GravityKind, GravityData(g.1)))
  }

  function EnterLightning(sw: Sword, e: Entry): (r: (Sword, Mode))
    requires SpellTarget in sw.parts
    ensures r.1.kind == LightningKind && Fits(r.1) && r.0.parts.Keys == sw.parts.Keys
    ensures !r.0.rig.shouldLock && !r.0.rig.animatorEnabled
  {
    EnterShards(sw, Grabbed, SpellTarget, e.side, e.now);
    var x := Lightning.Enter(sw, e.side, e.now);
    (x.0, Mode(LightningKind, LightningData(x.1)))
  }

  function EnterFlamethrower(sw: Sword, e: Entry): (r: (Sword, Mode))
    requires SpellTarget in sw.parts
    ensures r.1.kind == FlamethrowerKind && Fits(r.1) && r.0.parts.Keys == sw.parts.Keys
    ensures !r.0.rig.shouldLock && !r.0.rig.animatorEnabled
  {
    EnterShards(sw, Imbued, SpellTarget, e.side, e.now);
    var x := Flamethrower.Enter(sw, e.side, e.now);
    (x.0, Mode(FlamethrowerKind, FlamethrowerData(x.1)))
  }

  /** `new T().Enter(sword)`. */
  function EnterMode(sw: Sword, k: ModeKind, e: Entry): (r: (Sword, Mode))
    requires CanEnter(sw, k)
    ensures r.1.kind == k && Fits(r.1)
    ensures r.0.parts.Keys == sw.parts.Keys
    ensures k == ExpandedKind ==> r.0.rig.isExpanded
    ensures k == ShieldKind ==> r.0.rig.isShield && !r.0.rig.isExpanded
    ensures !IsHilt(k) ==> !r.0.rig.shouldLock && !r.0.rig.animatorEnabled
  {
    match k
    case SwordKind => (SwordEnter(sw, e.now), Mode(SwordKind, NoData))
    case ExpandedKind => (ExpandedEnter(sw, e.now), Mode(ExpandedKind, NoData))
    case ShieldKind => (ShieldEnter(sw, e.palmAngle, e.now), Mode(ShieldKind, NoData))
    case CannonKind => EnterCannon(sw, e)
    case GravityKind => EnterGravity(sw, e)
    case LightningKind => EnterLightning(sw, e)
    case FlamethrowerKind => EnterFlamethrower(sw, e)
  }

  /** Entering any mode keeps the shard-number bookkeeping, the spawn
      flags and readiness. */
  lemma EnterModeKeepsBookkeeping(sw: Sword, k: ModeKind, e: Entry)
    requires CanEnter(sw, k) && Bookkeeping(sw)
    ensures var r := EnterMode(sw, k, e).0;
            Bookkeeping(r) && r.spawning == sw.spawning && r.isReady == sw.isReady
  {
    if IsHilt(k) {
      HiltEntryKeepsBookkeeping(sw, k, e);
    } else {
      HeldEntryKeepsBookkeeping(sw, k, e);
    }
  }

  lemma HiltEntryKeepsBookkeeping(sw: Sword, k: ModeKind, e: Entry)
    requires IsHilt(k) && Bookkeeping(sw)
    ensures var r := EnterMode(sw, k, e).0;
            Bookkeeping(r) && r.spawning == sw.spawning && r.isReady == sw.isReady
  {
    match k
    case SwordKind =>
      ReformDetachKeepBookkeeping(sw, AllowAll, false, j => Vec3(0.0, 0.0, 0.0), e.now);
    case ExpandedKind =>
      var sw1 := sw.(rig := sw.rig.(isExpanded := true));
      ReformDetachKeepBookkeeping(sw1, AllowAll, false, j => Vec3(0.0, 0.0, 0.0), e.now);
    case ShieldKind =>
      var sw1 := sw.(rig := sw.rig.(isExpanded := false, isLeft := IsFacing(e.palmAngle), isShield := true));
      ReformDetachKeepBookkeeping(sw1, AllowAll, false, j => Vec3(0.0, 0.0, 0.0), e.now);
      BookkeepingFrame(ReformParts(sw1, AllowAll, e.now), EnterMode(sw, k, e).0);
  }

  lemma HeldEntryKeepsBookkeeping(sw: Sword, k: ModeKind, e: Entry)
    requires !IsHilt(k) && CanEnter(sw, k) && Bookkeeping(sw)
    ensures var r := EnterMode(sw, k, e).0;
            Bookkeeping(r) && r.spawning == sw.spawning && r.isReady == sw.isReady
  {
    match k
    case CannonKind =>
      Cannon.EnterKeepsBookkeeping(sw, e.rbs, e.side, e.now, e.pick);
    case GravityKind =>
      EnterKeepsBookkeeping(sw, Grabbed, SpellTarget, e.side, e.now);
      EnterShards(sw, Grabbed, SpellTarget, e.side, e.now);
    case LightningKind =>
      EnterKeepsBookkeeping(sw, Grabbed, SpellTarget, e.side, e.now);
      EnterShards(sw, Grabbed, SpellTarget, e.side, e.now);
    case FlamethrowerKind =>
      EnterKeepsBookkeeping(sw, Imbued, SpellTarget, e.side, e.now);
      EnterShards(sw, Imbued, SpellTarget, e.side, e.now);
  }

  /** `mode.Exit()`: a mode leaving touches only the rig. The plain sword
      leaves nothing behind; the expanded blade and the shield lower their
      own animator flag; a hand-held mode gives back locking, the animator
      and the guides. */
  function ExitMode(sw: Sword, m: Mode): (r: Sword)
    requires Fits(m)
    ensures r == sw.(rig := r.rig)
    ensures m.kind == SwordKind ==> r == sw
    ensures m.kind == ExpandedKind ==> r.rig == sw.rig.(isExpanded := false)
    ensures m.kind == ShieldKind ==> r.rig == sw.rig.(isShield := false)
    ensures !IsHilt(m.kind) ==>
              r.rig == sw.rig.(shouldLock := true, animatorEnabled := true, guidesParented := true)
  {
    match m.data
    case NoData =>
      if m.kind == ExpandedKind then ExpandedExit(sw)
      else if m.kind == ShieldKind then ShieldExit(sw)
      else sw
    case CannonData(c) => Cannon.Exit(sw, c).0
    case GravityData(g) => Gravity.Exit(sw, g).0
    case LightningData(x) => Lightning.Exit(sw, x).0
    case FlamethrowerData(x) => Flamethrower.Exit(sw, x).0
  }

  /** The order of mode hooks a switch runs. */
  datatype Hook = Exited(kind: ModeKind) | Entered(kind: ModeKind)

  datatype Switch = Switch(sw: Sword, mode: Mode, hooks: seq<Hook>)

  /** `ChangeMode<T>`: nothing when the active mode already is a `T`;
      otherwise the old mode (if any) exits, once, and then the new one
      enters, once. */
  function ChangeMode(sw: Sword, mode: Option<Mode>, k: ModeKind, e: Entry): (r: Switch)
    requires CanEnter(sw, k) && Fitting(mode)
    ensures r.mode.kind == k && Fits(r.mode)
    ensures mode.Some? && mode.value.kind == k ==> r == Switch(sw, mode.value, [])
    ensures mode.None? ==> r.hooks == [Entered(k)] && r.sw == EnterMode(sw, k, e).0
    ensures mode.Some? && mode.value.kind != k ==>
              r.hooks == [Exited(mode.value.kind), Entered(k)] && r.sw == EnterMode(ExitMode(sw, mode.value), k, e).0
    ensures r.sw.parts.Keys == sw.parts.Keys
  {
    if mode.Some? && mode.value.kind == k then Switch(sw, mode.value, [])
    else if mode.None? then
      var n := EnterMode(sw, k, e);
      Switch(n.0, n.1, [Entered(k)])
    else
      var n := EnterMode(ExitMode(sw, mode.value), k, e);
      Switch(n.0, n.1, [Exited(mode.value.kind), Entered(k)])
  }

  /** Switching to the mode already active changes nothing, so a second
      switch to the same kind, whatever the entry data, runs no hook. */
  lemma ChangeModeSettles(sw: Sword, mode: Option<Mode>, k: ModeKind, e1: Entry, e2: Entry)
    requires CanEnter(sw, k) && Fitting(mode)
    ensures var r := ChangeMode(sw, mode, k, e1);
            CanEnter(r.sw, k) && ChangeMode(r.sw, Some(r.mode), k, e2) == Switch(r.sw, r.mode, [])
  {
  }

  /** A switch keeps the shard-number bookkeeping, the spawn flags and
      readiness. */
  lemma ChangeModeKeepsBookkeeping(sw: Sword, mode: Option<Mode>, k: ModeKind, e: Entry)
    requires CanEnter(sw, k) && Fitting(mode) && Bookkeeping(sw)
    ensures var r := ChangeMode(sw, mode, k, e).sw;
            Bookkeeping(r) && r.spawning == sw.spawning && r.isReady == sw.isReady
  {
    if mode.Some? && mode.value.kind != k {
      var x := ExitMode(sw, mode.value);
      BookkeepingFrame(sw, x);
      EnterModeKeepsBookkeeping(x, k, e);
    } else if mode.None? {
      EnterModeKeepsBookkeeping(sw, k, e);
    }
  }

  // ---------------------------------------------------------------------
  // The cascade

  /** An imbue on the top shard: its energy, its maximum and its spell. */
  datatype Imbue = Imbue(energy: real, maxEnergy: real, spell: SpellKind)

  /** `energy / maxEnergy > bound` for a positive bound, in floating point:
      a zero maximum gives an infinity of the energy's sign, or NaN (which
      compares false) for zero energy. */
  predicate RatioAbove(energy: real, maxEnergy: real, bound: real) {
    if maxEnergy > 0.0 then energy > bound * maxEnergy
    else if maxEnergy < 0.0 then energy < bound * maxEnergy
    else energy > 0.0
  }

  /** With a nonzero maximum the comparison is the quotient's. */
  lemma RatioAboveIsQuotient(energy: real, maxEnergy: real, bound: real)
    requires maxEnergy != 0.0
    ensures RatioAbove(energy, maxEnergy, bound) <==> energy / maxEnergy > bound
  {
    if maxEnergy > 0.0 {
      assert energy == (energy / maxEnergy) * maxEnergy;
      if energy / maxEnergy > bound {
        MulMono(maxEnergy, bound, energy / maxEnergy);
      } else {
        MulMono(maxEnergy, energy / maxEnergy, bound);
      }
    } else {
      assert energy == (energy / maxEnergy) * maxEnergy;
      if energy / maxEnergy > bound {
        MulMono(-maxEnergy, bound, energy / maxEnergy);
      } else {
        MulMono(-maxEnergy, energy / maxEnergy, bound);
      }
    }
  }

  /** `TopShardIsImbued`: the top shard's first imbue is more than 30%
      charged with gravity, lightning or fire. */
  predicate TopShardIsImbued(top: Option<Imbue>) {
    && top.Some?
    && RatioAbove(top.value.energy, top.value.maxEnergy, 0.3)
    && top.value.spell != OtherSpell
  }

  /** The spell weapon each imbue selects. */
  function WeaponFor(s: SpellKind): (k: ModeKind)
    requires s != OtherSpell
    ensures IsSpell(k)
    ensures s == Gravity <==> k == GravityKind
    ensures s == Lightning <==> k == LightningKind
    ensures s == Projectile <==> k == FlamethrowerKind
  {
    match s
    case Gravity => GravityKind
    case Lightning => LightningKind
    case Projectile => FlamethrowerKind
  }

  /** What a frame reads from the hands: the shards whose item has a main
      handler, the top shard's first imbue, whether some holding hand
      presses its alternate button or its trigger, how many hands hold the
      sword and, with one, the other hand; and the entry data. */
  datatype Controls = Controls(
    held: set<nat>,
    top: Option<Imbue>,
    altPressed: bool,
    usePressed: bool,
    handlers: nat,
    other: OtherHand,
    entry: Entry)

  /** `GetPart(k)?.item?.mainHandler != null`. */
  predicate InHand(sw: Sword, c: Controls, k: nat) {
    k in sw.parts && k in c.held
  }

  /** The cascade: a spell weapon first (shard 11 in hand and the top
      shard imbued, the imbue's spell choosing which), then the cannon
      (shard 10 in hand), then the shield (button and trigger) or the
      expanded blade (button alone), and the plain sword when none
      applies. The chosen mode can always be entered. */
  function Cascade(sw: Sword, c: Controls): (r: ModeKind)
    ensures IsSpell(r) <==> InHand(sw, c, SpellTarget) && TopShardIsImbued(c.top)
    ensures IsSpell(r) ==> r == WeaponFor(c.top.value.spell)
    ensures r == CannonKind <==> !(InHand(sw, c, SpellTarget) && TopShardIsImbued(c.top)) && InHand(sw, c, Cannon.Grip)
    ensures r == ShieldKind || r == ExpandedKind <==>
              !(InHand(sw, c, SpellTarget) && TopShardIsImbued(c.top)) && !InHand(sw, c, Cannon.Grip) && c.altPressed
    ensures r == ShieldKind ==> c.usePressed
    ensures r == ExpandedKind ==> !c.usePressed
    ensures CanEnter(sw, r)
  {
    if InHand(sw, c, SpellTarget) && TopShardIsImbued(c.top) then WeaponFor(c.top.value.spell)
    else if InHand(sw, c, Cannon.Grip) then CannonKind
    else if c.altPressed then (if c.usePressed then ShieldKind else ExpandedKind)
    else SwordKind
  }

  /** The cascade's order: a held, imbued shard 11 wins over shard 10 in
      hand, which wins over the button; the plain sword is chosen exactly
      when nothing is held, imbued or pressed. */
  lemma CascadePriority(sw: Sword, c: Controls)
    ensures InHand(sw, c, SpellTarget) && TopShardIsImbued(c.top) ==> Cascade(sw, c) != CannonKind
    ensures InHand(sw, c, Cannon.Grip) ==> !IsHilt(Cascade(sw, c))
    ensures Cascade(sw, c) == SwordKind <==>
              !(InHand(sw, c, SpellTarget) && TopShardIsImbued(c.top)) && !InHand(sw, c, Cannon.Grip) && !c.altPressed
  {
  }

  // ---------------------------------------------------------------------
  // The button

  const TapThreshold: real := 0.3

  /** The button held: the press time is taken on the first frame of the
      press only, and the blade is locking for as long as it is held. */
  function Hold(sw: Sword, now: real): (r: Sword)
    ensures r.locking && r.buttonWasPressed
    ensures sw.buttonWasPressed ==> r.lastButtonPress == sw.lastButtonPress
    ensures !sw.buttonWasPressed ==> r.lastButtonPress == now
    ensures r == sw.(locking := true, buttonWasPressed := true, lastButtonPress := r.lastButtonPress)
  {
    var sw1 := if !sw.buttonWasPressed then sw.(buttonWasPressed := true, lastButtonPress := now) else sw;
    sw1.(locking := true)
  }

  /** The button released (or never pressed) under the plain sword. A
      press shorter than 0.3 s is a tap: `locking` flips from what it was
      before the press, the shards reform (locking) or are thrown off
      (not), and the flip is remembered. A longer press is a hold, after
      which the blade counts as locking. Either way the press is over. */
  function Release(sw: Sword, now: real, throwVelocity: nat -> Vec3): (r: Sword)
    ensures !r.buttonWasPressed
    ensures !sw.buttonWasPressed ==> r == sw
    ensures sw.buttonWasPressed && now - sw.lastButtonPress < TapThreshold ==>
              r.locking == !sw.wasLocking && r.wasLocking == r.locking
    ensures sw.buttonWasPressed && now - sw.lastButtonPress < TapThreshold && !sw.wasLocking ==>
              r.parts == ReformParts(sw, AllowAll, now).parts
    ensures sw.buttonWasPressed && now - sw.lastButtonPress < TapThreshold && sw.wasLocking ==>
              r.parts == DetachParts(sw, true, throwVelocity, now).parts
    ensures sw.buttonWasPressed && now - sw.lastButtonPress >= TapThreshold ==>
              r == sw.(wasLocking := true, buttonWasPressed := false)
    ensures r == sw.(parts := r.parts, locking := r.locking, wasLocking := r.wasLocking, buttonWasPressed := false)
  {
    if !sw.buttonWasPressed then sw
    else if now - sw.lastButtonPress < TapThreshold then
      var locking := !sw.wasLocking;
      var sw1 := sw.(locking := locking);
      var sw2 := if locking then ReformParts(sw1, AllowAll, now) else DetachParts(sw1, true, throwVelocity, now);
      sw2.(wasLocking := locking, buttonWasPressed := false)
    else sw.(wasLocking := true, buttonWasPressed := false)
  }

  /** A tap on a ready sword leaves every shard reforming when it turns
      locking on and every shard free when it turns it off. */
  lemma TapMovesEveryShard(sw: Sword, now: real, pressed: real, tv: nat -> Vec3)
    requires sw.isReady && now - pressed < TapThreshold
    ensures var r := Release(Hold(sw.(buttonWasPressed := false), pressed), now, tv);
            && r.locking == !sw.wasLocking
            && (r.locking ==> forall k :: k in r.parts ==> r.parts[k].state == Reforming)
            && (!r.locking ==> forall k :: k in r.parts ==> r.parts[k].state == Free && r.parts[k].joint.None?)
  {
  }

  /** Two quick taps give the blade back the locking it had: each tap
      flips what the previous one left. */
  lemma TwoTapsRestore(sw: Sword, t1: real, t2: real, t3: real, t4: real, tv: nat -> Vec3)
    requires t2 - t1 < TapThreshold && t4 - t3 < TapThreshold
    ensures var once := Release(Hold(sw.(buttonWasPressed := false), t1), t2, tv);
            var twice := Release(Hold(once, t3), t4, tv);
            twice.locking == sw.wasLocking && twice.wasLocking == sw.wasLocking
  {
  }

  /** After a long press the next tap shatters the blade. */
  lemma TapAfterHoldShatters(sw: Sword, t1: real, t2: real, t3: real, t4: real, tv: nat -> Vec3)
    requires t2 - t1 >= TapThreshold && t4 - t3 < TapThreshold
    ensures var held := Release(Hold(sw.(buttonWasPressed := false), t1), t2, tv);
            var tapped := Release(Hold(held, t3), t4, tv);
            held.wasLocking && !tapped.locking
  {
  }

  /** A release keeps the shard-number bookkeeping: it moves shards but
      neither adds nor removes one. */
  lemma ReleaseKeepsBookkeeping(sw: Sword, now: real, throwVelocity: nat -> Vec3)
    requires Bookkeeping(sw)
    ensures var r := Release(sw, now, throwVelocity);
            Bookkeeping(r) && r.parts.Keys == sw.parts.Keys && r.spawning == sw.spawning && r.isReady == sw.isReady
  {
    if sw.buttonWasPressed && now - sw.lastButtonPress < TapThreshold {
      var sw1 := sw.(locking := !sw.wasLocking);
      BookkeepingFrame(sw, sw1);
      ReformDetachKeepBookkeeping(sw1, AllowAll, true, throwVelocity, now);
      var sw2 := if sw1.locking then ReformParts(sw1, AllowAll, now) else DetachParts(sw1, true, throwVelocity, now);
      BookkeepingFrame(sw2, Release(sw, now, throwVelocity));
    }
  }

  // ---------------------------------------------------------------------
  // The frame

  /** The sword with its active mode. */
  datatype State = State(sw: Sword, mode: Option<Mode>)

  /** `mode?.Update()` for the modes without a shard in hand: the plain
      sword and the expanded blade refresh their labels; the shield has no
      update of its own. */
  function HiltUpdate(sw: Sword, m: Mode, c: Controls): (r: Sword)
    ensures r == sw.(labels := r.labels)
    ensures m.kind == SwordKind ==> r.labels == SwordUpdate(sw.labels, sw.locking, c.handlers, c.other)
    ensures m.kind == ExpandedKind ==> r.labels == ExpandedUpdate(sw.labels)
    ensures m.kind != SwordKind && m.kind != ExpandedKind ==> r == sw
  {
    match m.kind
    case SwordKind => sw.(labels := SwordUpdate(sw.labels, sw.locking, c.handlers, c.other))
    case ExpandedKind => sw.(labels := ExpandedUpdate(sw.labels))
    case _ => sw
  }

  /** A frame's outcome: the new state, the spawn requests made, and the
      mode hooks run. */
  datatype FrameResult = FrameResult(st: State, requests: seq<nat>, hooks: seq<Hook>)

  /** The part of the frame after the ready gate. */
  function Steer(sw: Sword, mode: Option<Mode>, c: Controls, throwVelocity: nat -> Vec3): (r: (State, seq<Hook>))
    requires Fitting(mode)
    ensures r.0.mode.Some? && r.0.mode.value.kind == Cascade(sw, c) && Fits(r.0.mode.value)
    ensures r.0.sw.parts.Keys == sw.parts.Keys
    ensures c.altPressed && !IsSpell(Cascade(sw, c)) && Cascade(sw, c) != CannonKind ==>
              r.0.sw.locking && r.0.sw.buttonWasPressed &&
              r.0.sw.lastButtonPress == (if sw.buttonWasPressed then sw.lastButtonPress else c.entry.now)
    ensures Cascade(sw, c) == SwordKind ==> !r.0.sw.buttonWasPressed
  {
    var k := Cascade(sw, c);
    if IsSpell(k) || k == CannonKind then
      var s := ChangeMode(sw, mode, k, c.entry);
      (State(s.sw, Some(s.mode)), s.hooks)
    else if IsHilt(k) && k != SwordKind then
      var s := ChangeMode(Hold(sw, c.entry.now), mode, k, c.entry);
      (State(HiltUpdate(s.sw, s.mode, c), Some(s.mode)), s.hooks)
    else
      var s := ChangeMode(sw, mode, SwordKind, c.entry);
      var sw1 := Release(s.sw, c.entry.now, throwVelocity);
      (State(HiltUpdate(sw1, s.mode, c), Some(s.mode)), s.hooks)
  }

  /** `Shatterblade.Update`, from the missing-shard check on. (The shards'
      own frames and the hand-held modes' updates are modelled in their
      modules.) */
  function Update(st: State, c: Controls, throwVelocity: nat -> Vec3): (r: FrameResult)
    requires Fitting(st.mode)
    ensures r.requests == CheckForMissingParts(st.sw).1
    ensures var checked := CheckForMissingParts(st.sw).0;
            !checked.isReady && |checked.parts| != 15 ==> r == FrameResult(State(checked, st.mode), r.requests, [])
    ensures var checked := CheckForMissingParts(st.sw).0;
            checked.isReady || |checked.parts| == 15 ==>
              var gated := ReadyGate(checked, VetoOf(st.mode), c.entry.now).value;
              r.st.mode.Some? && r.st.mode.value.kind == Cascade(gated, c)
  {
    var check := CheckForMissingParts(st.sw);
    match ReadyGate(check.0, VetoOf(st.mode), c.entry.now)
    case None => FrameResult(State(check.0, st.mode), check.1, [])
    case Some(sw) =>
      var s := Steer(sw, st.mode, c, throwVelocity);
      FrameResult(s.0, check.1, s.1)
  }

  /** The part of the frame after the gate keeps the bookkeeping, the
      shard numbers and readiness, and leaves a mode whose state fits. */
  lemma SteerKeepsBookkeeping(sw: Sword, mode: Option<Mode>, c: Controls, throwVelocity: nat -> Vec3)
    requires Fitting(mode) && Bookkeeping(sw)
    ensures var r := Steer(sw, mode, c, throwVelocity).0;
            Bookkeeping(r.sw) && r.sw.isReady == sw.isReady && Fitting(r.mode)
  {
    var k := Cascade(sw, c);
    if IsSpell(k) || k == CannonKind {
      ChangeModeKeepsBookkeeping(sw, mode, k, c.entry);
    } else if IsHilt(k) && k != SwordKind {
      HoldSwitchKeepsBookkeeping(sw, mode, k, c);
    } else {
      SwordSwitchKeepsBookkeeping(sw, mode, c, throwVelocity);
    }
  }

  /** Holding the button into the shield or the expanded blade. */
  lemma HoldSwitchKeepsBookkeeping(sw: Sword, mode: Option<Mode>, k: ModeKind, c: Controls)
    requires Fitting(mode) && Bookkeeping(sw) && IsHilt(k)
    ensures var s := ChangeMode(Hold(sw, c.entry.now), mode, k, c.entry);
            var r := HiltUpdate(s.sw, s.mode, c);
            Bookkeeping(r) && r.isReady == sw.isReady && Fits(s.mode)
  {
    var h := Hold(sw, c.entry.now);
    BookkeepingFrame(sw, h);
    ChangeModeKeepsBookkeeping(h, mode, k, c.entry);
    var s := ChangeMode(h, mode, k, c.entry);
    BookkeepingFrame(s.sw, HiltUpdate(s.sw, s.mode, c));
  }

  /** Switching to (or staying in) the plain sword, then releasing. */
  lemma SwordSwitchKeepsBookkeeping(sw: Sword, mode: Option<Mode>, c: Controls, throwVelocity: nat -> Vec3)
    requires Fitting(mode) && Bookkeeping(sw)
    ensures var s := ChangeMode(sw, mode, SwordKind, c.entry);
            var r := HiltUpdate(Release(s.sw, c.entry.now, throwVelocity), s.mode, c);
            Bookkeeping(r) && r.isReady == sw.isReady && Fits(s.mode)
  {
    ChangeModeKeepsBookkeeping(sw, mode, SwordKind, c.entry);
    var s := ChangeMode(sw, mode, SwordKind, c.entry);
    ReleaseKeepsBookkeeping(s.sw, c.entry.now, throwVelocity);
    var sw1 := Release(s.sw, c.entry.now, throwVelocity);
    BookkeepingFrame(sw1, HiltUpdate(sw1, s.mode, c));
  }

  /** The frame's invariant: every shard sits under its own number, and
      a ready sword has every shard. A frame that gets past the gate works
      on a complete, ready sword. */
  lemma UpdateKeepsBookkeeping(st: State, c: Controls, throwVelocity: nat -> Vec3)
    requires Fitting(st.mode) && Bookkeeping(st.sw) && (st.sw.isReady ==> Complete(st.sw))
    ensures var r := Update(st, c, throwVelocity).st;
            Bookkeeping(r.sw) && (r.sw.isReady ==> Complete(r.sw)) && Fitting(r.mode)
    ensures var checked := CheckForMissingParts(st.sw).0;
            checked.isReady || |checked.parts| == 15 ==> Update(st, c, throwVelocity).st.sw.isReady
  {
    var check := CheckForMissingParts(st.sw);
    CheckKeepsBookkeeping(st.sw);
    ReadyGateComplete(check.0, VetoOf(st.mode), c.entry.now);
    match ReadyGate(check.0, VetoOf(st.mode), c.entry.now)
    case None =>
    case Some(sw) =>
      SteerKeepsBookkeeping(sw, st.mode, c, throwVelocity);
      var r := Steer(sw, st.mode, c, throwVelocity).0;
      assert r.sw.parts.Keys == sw.parts.Keys;
  }
}
