/** One shard of the blade: its Free / Reforming / Locked state machine,
    its single joint slot, and the per-frame `Update` with the despawn
    recovery, rescale, drive retuning, locked refresh, holster and lock
    branches. Positions and rotations are reduced to the quantities the
    branches test: the distance and angle to the guide, and whether the
    guide moved relative to the sword. */
module BladePart {
  import opened Base
  import opened Joints

  datatype PartState = Free | Reforming | Locked

  /** The physics modifier the shard's collision handler carries: none, the
      reforming one (mass 4, no gravity), or the locked one (which also sets
      low drag). */
  datatype PhysicModifier = NoModifier | ReformModifier | LockedModifier

  datatype Shard = Shard(
    index: nat,              // k of `ShatterbladePart{k}`, 1..15
    state: PartState,
    joint: Option<Joint>,    // the single joint slot
    lastUnlockTime: real,    // when a joint was last destroyed
    wasInHolder: bool,
    kinematic: bool,
    parentedToGuide: bool,
    shown: bool,             // last show/hide effect requested
    telekinesis: bool,       // the handle accepts telekinesis
    modifier: PhysicModifier,
    velocity: Vec3,
    hasSword: bool,          // the back reference to the sword is set
    hasTarget: bool,         // the guide body is set
    lastSwordScale: real,
    alive: bool)             // the component has not destroyed itself

  /** The invariant the shard keeps: it holds a joint exactly when it is not
      Free. (A joint slot holds at most one joint by construction.) */
  predicate JointMatchesState(s: Shard) {
    s.joint.Some? <==> s.state != Free
  }

  /** `DestroyJoint`: a no-op without a joint; otherwise the joint is gone
      and the time is recorded. */
  function DestroyJoint(s: Shard, now: real): (r: Shard)
    ensures r.joint.None?
    ensures s.joint.None? ==> r == s
    ensures s.joint.Some? ==> r.lastUnlockTime == now
    ensures r.(joint := s.joint, lastUnlockTime := s.lastUnlockTime) == s
  {
    if s.joint.Some? then s.(joint := None, lastUnlockTime := now) else s
  }

  /** `CreateJoint(toSword)`: does nothing when a joint exists, so the slot
      never holds a second joint. */
  function CreateJoint(s: Shard, toSword: bool, shouldLock: bool): (r: Shard)
    ensures r.joint.Some?
    ensures s.joint.Some? ==> r == s
    ensures s.joint.None? ==> r.joint == Some(NewJoint(toSword, shouldLock))
    ensures r.(joint := s.joint) == s
  {
    if s.joint.Some? then s else s.(joint := Some(NewJoint(toSword, shouldLock)))
  }

  /** `Detach`: Free, telekinesis back on, modifier removed, joint destroyed;
      a throw sets the velocity to three times the sword's velocity at the
      guide. */
  function Detach(s: Shard, shouldThrow: bool, pointVelocity: Vec3, now: real): (r: Shard)
    ensures r.state == Free && r.joint.None? && JointMatchesState(r)
    ensures r.telekinesis && r.modifier == NoModifier
    ensures r.velocity == (if shouldThrow then pointVelocity.Scale(3.0) else s.velocity)
    ensures r.lastUnlockTime == (if s.joint.Some? then now else s.lastUnlockTime)
    ensures r.index == s.index && r.wasInHolder == s.wasInHolder && r.kinematic == s.kinematic
  {
    var s1 := s.(state := Free, telekinesis := true, modifier := NoModifier);
    var s2 := if shouldThrow then s1.(velocity := pointVelocity.Scale(3.0)) else s1;
    DestroyJoint(s2, now)
  }

  /** `Reform`: Reforming, telekinesis off, the reforming modifier, and
      exactly one fresh joint to the guide (the old joint is destroyed
      before the new one is created). */
  function Reform(s: Shard, shouldLock: bool, now: real): (r: Shard)
    ensures r.state == Reforming && JointMatchesState(r)
    ensures r.joint == Some(NewJoint(false, shouldLock)) && r.joint.value.connected == ToGuide
    ensures !r.telekinesis && r.modifier == ReformModifier
    ensures r.lastUnlockTime == (if s.joint.Some? then now else s.lastUnlockTime)
    ensures r.index == s.index && r.velocity == s.velocity && r.wasInHolder == s.wasInHolder
    ensures r.kinematic == s.kinematic && r.parentedToGuide == s.parentedToGuide && r.shown == s.shown
  {
    var s1 := s.(state := Reforming, telekinesis := false, modifier := ReformModifier);
    CreateJoint(DestroyJoint(s1, now), false, shouldLock)
  }

  /** The result of a step that may dereference a missing joint: `Threw`
      carries the state reached when the exception left the method. */
  datatype Outcome = Done(shard: Shard) | Threw(shard: Shard)

  /** `LockJoint`: the stiff locking drive on the linear axes; reading the
      drive of a missing joint throws. */
  function LockJoint(s: Shard): (r: Outcome)
    ensures r.Threw? <==> s.joint.None?
    ensures r.Threw? ==> r.shard == s
    ensures r.Done? ==> r.shard == s.(joint := Some(LockedJoint(s.joint.value)))
  {
    match s.joint
    case None => Threw(s)
    case Some(j) => Done(s.(joint := Some(LockedJoint(j))))
  }

  /** `SetDriveFactor` on a shard whose joint exists (every call site tests
      the joint first). */
  function SetDriveFactor(s: Shard, factor: real): (r: Shard)
    requires s.joint.Some?
    ensures r.joint.Some? && r.joint.value.PositionDrives(Drive(2000.0, DriveDamper(factor), Infinite))
    ensures r.joint.value.connected == s.joint.value.connected
    ensures r.(joint := s.joint) == s
  {
    s.(joint := Some(FactorJoint(s.joint.value, factor)))
  }

  /** The factor `Update` feeds to `SetDriveFactor`: 1 at the guide, falling
      linearly to 0 at distance 2. */
  function DistanceFactor(distance: real): (r: real)
    ensures 0.0 <= r <= 1.0
    ensures distance >= 2.0 ==> r == 0.0
    ensures distance <= 0.0 ==> r == 1.0
  {
    InverseLerp(2.0, 0.0, distance)
  }

  /** A closer shard never gets a weaker damper: the damper is 100 at the
      guide and 20 from distance 2 outwards. */
  lemma DistanceDamperMonotone(near: real, far: real)
    requires near <= far
    ensures DriveDamper(DistanceFactor(far)) <= DriveDamper(DistanceFactor(near))
    ensures DriveDamper(DistanceFactor(0.0)) == 100.0
    ensures far >= 2.0 ==> DriveDamper(DistanceFactor(far)) == 20.0
  {
    assert (far - 2.0) / (0.0 - 2.0) <= (near - 2.0) / (0.0 - 2.0);
    assert DistanceFactor(far) <= DistanceFactor(near);
    DriveDamperMonotone(DistanceFactor(far), DistanceFactor(near));
  }

  /** `RefreshJoint` on a shard whose joint exists. */
  function RefreshJoint(s: Shard, shouldLock: bool): (r: Shard)
    requires s.joint.Some?
    ensures r.joint == Some(Refreshed(s.joint.value, shouldLock))
    ensures r.(joint := s.joint) == s
  {
    s.(joint := Some(Refreshed(s.joint.value, shouldLock)))
  }

  /** `Attach` as written: `LockJoint` runs first, on the joint that the
      next two calls destroy and replace. */
  function AttachAsWritten(s: Shard, shouldLock: bool, now: real): (r: Outcome)
    ensures r.Threw? <==> s.joint.None?
    ensures r.shard.modifier == LockedModifier
    ensures r.Done? ==> r.shard.joint == Some(NewJoint(true, shouldLock))
  {
    var s1 := s.(modifier := LockedModifier);
    match LockJoint(s1)
    case Threw(t) => Threw(t)
    case Done(t) => Done(CreateJoint(DestroyJoint(t, now), true, shouldLock))
  }

  /** A shard without a joint makes `Attach` throw before any joint exists;
      a shard with one ends up with the creation drive, not the locking
      drive. */
  lemma AttachAsWrittenDefects(s: Shard, shouldLock: bool, now: real)
    ensures s.joint.None? ==> AttachAsWritten(s, shouldLock, now).shard.joint.None?
    ensures s.joint.Some? ==> AttachAsWritten(s, shouldLock, now).shard.joint.value.PositionDrives(CreatePosDrive)
    ensures s.joint.Some? ==> !AttachAsWritten(s, shouldLock, now).shard.joint.value.PositionDrives(LockDrive)
  {
  }

  /** `Attach` with the locking drive applied to the joint that survives:
      the old joint is destroyed, the sword joint is created, then locked. */
  function Attach(s: Shard, shouldLock: bool, now: real): (r: Shard)
    ensures r.joint.Some?
    ensures r.joint.value.PositionDrives(LockDrive)
    ensures r.joint.value.connected == ToSword <==> shouldLock
    ensures r.joint.value.connected == ToSword ==> r.joint.value.massScale == SwordMassScale
    ensures r.modifier == LockedModifier
    ensures r.lastUnlockTime == (if s.joint.Some? then now else s.lastUnlockTime)
    ensures r.state == s.state && r.telekinesis == s.telekinesis && r.index == s.index
  {
    var s1 := CreateJoint(DestroyJoint(s.(modifier := LockedModifier), now), true, shouldLock);
    s1.(joint := Some(LockedJoint(s1.joint.value)))
  }

  // ---------------------------------------------------------------------
  // The per-frame update

  /** How the despawn check at the top of `Update` turns out. */
  datatype SwordCheck = Present | Despawned | CheckThrows

  /** What one frame of `Update` reads from the sword, the guide and the
      shard's own item. */
  datatype Frame = Frame(
    now: real,
    check: SwordCheck,
    swordHolstered: bool,    // the sword is in a holder
    swordScale: real,
    shouldReform: bool,      // `sword.ShouldReform(this)`
    partLock: bool,          // `sword.ShouldPartLock(this)`
    shouldLock: bool,        // `sword.shouldLock`
    guideDistance: real,
    guideAngle: real,        // degrees between shard and guide rotations
    guideMoved: bool,        // the guide's pose relative to the sword changed
    inHolder: bool,          // the shard itself is in a holder
    held: bool)              // the shard has a main handler

  /** The lock test's geometric and mode conditions. */
  predicate CloseEnoughToLock(f: Frame) {
    f.guideDistance < 0.1 && f.guideAngle < 10.0 && f.partLock
  }

  /** The 0.1 s debounce after the last joint was destroyed. */
  predicate Debounced(s: Shard, f: Frame) {
    f.now - s.lastUnlockTime > 0.1
  }

  /** The despawn recovery: the shard is freed, its joint destroyed and the
      component removed. */
  function Recover(s: Shard, now: real): (r: Shard)
    ensures r.state == Free && r.joint.None? && r.telekinesis && r.modifier == NoModifier
    ensures !r.alive
    ensures JointMatchesState(r)
  {
    DestroyJoint(s.(state := Free, telekinesis := true, modifier := NoModifier), now).(alive := false)
  }

  /** A change of the unholstered sword's scale detaches and reforms the
      shard at the new scale. */
  function Rescale(s: Shard, f: Frame): (r: Shard)
    ensures (f.swordHolstered || f.swordScale == s.lastSwordScale) ==> r == s
    ensures !f.swordHolstered && f.swordScale != s.lastSwordScale ==>
              r.state == Reforming && r.lastSwordScale == f.swordScale && JointMatchesState(r)
  {
    if !f.swordHolstered && f.swordScale != s.lastSwordScale then
      Reform(Detach(s.(lastSwordScale := f.swordScale), false, s.velocity, f.now), f.shouldLock, f.now)
    else s
  }

  /** The drive of a joined, unlocked, reforming shard follows its distance
      to the guide. */
  function Retune(s: Shard, f: Frame): (r: Shard)
    ensures r.state == s.state && r.joint.Some? == s.joint.Some? && r.lastUnlockTime == s.lastUnlockTime
    ensures s.joint.Some? && s.state != Locked && f.shouldReform ==>
              r.joint.value.PositionDrives(Drive(2000.0, DriveDamper(DistanceFactor(f.guideDistance)), Infinite))
    ensures !(s.joint.Some? && s.state != Locked && f.shouldReform) ==> r == s
  {
    if s.joint.Some? && s.state != Locked && f.shouldReform then
      SetDriveFactor(s, DistanceFactor(f.guideDistance))
    else s
  }

  /** A locked shard re-targets its joint when its guide moved relative to
      the sword. */
  function FollowGuide(s: Shard, f: Frame): (r: Shard)
    ensures r.state == s.state && r.joint.Some? == s.joint.Some? && r.lastUnlockTime == s.lastUnlockTime
    ensures s.joint.Some? && s.state == Locked && f.guideMoved ==>
              r.joint == Some(Refreshed(s.joint.value, f.shouldLock))
    ensures !(s.joint.Some? && s.state == Locked && f.guideMoved) ==> r == s
  {
    if s.joint.Some? && s.state == Locked && f.guideMoved then RefreshJoint(s, f.shouldLock) else s
  }

  /** The holster branch (taken while the sword wants the shard back and the
      shard is not itself holstered): a locked shard of a holstered sword is
      frozen onto its guide once; when that no longer holds, a frozen shard
      is released and reformed. */
  function Holster(s: Shard, f: Frame): (r: Shard)
    ensures f.inHolder ==> r == s
    ensures !f.inHolder && f.swordHolstered && s.state == Locked && !s.wasInHolder ==>
              r == s.(wasInHolder := true, kinematic := true, parentedToGuide := true, shown := false)
    ensures !f.inHolder && !(f.swordHolstered && s.state == Locked) && s.wasInHolder ==>
              r.state == Reforming && !r.wasInHolder && !r.kinematic && !r.parentedToGuide && r.shown
    ensures JointMatchesState(s) ==> JointMatchesState(r)
    ensures s.state != Locked ==> r.state != Locked
  {
    if f.inHolder then s
    else if f.swordHolstered && s.state == Locked then
      if !s.wasInHolder then
        s.(wasInHolder := true, kinematic := true, parentedToGuide := true, shown := false)
      else s
    else if s.wasInHolder then
      Reform(s.(wasInHolder := false, kinematic := false, parentedToGuide := false, shown := true), f.shouldLock, f.now)
    else s
  }

  /** The part of the lock branch shared by both versions of `Attach`: an
      unheld shard without a joint is reformed first. */
  function PrepareLock(s: Shard, f: Frame): (r: Shard)
    ensures s.joint.None? && !f.held ==> r == Reform(s, f.shouldLock, f.now)
    ensures !(s.joint.None? && !f.held) ==> r == s
  {
    if s.joint.None? && !f.held then Reform(s, f.shouldLock, f.now) else s
  }

  /** The lock branch as written, with `AttachAsWritten`. */
  function LockBranchAsWritten(s: Shard, f: Frame): (r: Shard)
    ensures s.state == Locked || !Debounced(s, f) ==> r == s
    ensures s.state != Locked && r.state == Locked && r.joint.Some? ==> r.joint.value.PositionDrives(CreatePosDrive)
  {
    if s.state != Locked && Debounced(s, f) then
      var s1 := PrepareLock(s, f);
      if CloseEnoughToLock(f) then
        AttachAsWritten(s1.(state := Locked, telekinesis := false), f.shouldLock, f.now).shard
      else s1
    else s
  }

  /** A held, joint-less shard that reaches its guide ends Locked with no
      joint: `Attach` throws after the state was set. */
  lemma LockBranchAsWrittenBreaksInvariant(s: Shard, f: Frame)
    requires s.state == Free && s.joint.None?
    requires f.held && Debounced(s, f) && CloseEnoughToLock(f)
    ensures LockBranchAsWritten(s, f).state == Locked
    ensures LockBranchAsWritten(s, f).joint.None?
    ensures JointMatchesState(s) && !JointMatchesState(LockBranchAsWritten(s, f))
  {
  }

  /** The lock branch with the corrected `Attach`. */
  function LockBranch(s: Shard, f: Frame): (r: Shard)
    ensures s.state == Locked || !Debounced(s, f) ==> r == s
    ensures s.state != Locked && Debounced(s, f) && CloseEnoughToLock(f) ==>
              r.state == Locked && r.joint.Some? && r.joint.value.PositionDrives(LockDrive)
              && !r.telekinesis
    ensures s.state != Locked && Debounced(s, f) && !CloseEnoughToLock(f) ==> r.state != Locked
    ensures JointMatchesState(s) ==> JointMatchesState(r)
  {
    if s.state != Locked && Debounced(s, f) then
      var s1 := PrepareLock(s, f);
      if CloseEnoughToLock(f) then Attach(s1.(state := Locked, telekinesis := false), f.shouldLock, f.now)
      else s1
    else s
  }

  /** The lock branch in either reading: `asWritten` selects the source's
      `Attach`. */
  function LockBranchWith(s: Shard, f: Frame, asWritten: bool): (r: Shard)
  {
    if asWritten then LockBranchAsWritten(s, f) else LockBranch(s, f)
  }

  /** `BladePart.Update`, frame by frame, with the lock branch in either
      reading. After the recovery the frame ends: the sword that broke the
      check is destroyed and compares equal to null. */
  function UpdateWith(s: Shard, f: Frame, asWritten: bool): (r: Shard)
    ensures !s.alive || !s.hasSword ==> r == s
    ensures s.alive && s.hasSword && f.check == CheckThrows ==> r == Recover(s, f.now)
    ensures s.alive && s.hasSword && f.check == Despawned ==> r == s.(hasSword := false)
  {
    if !s.alive || !s.hasSword then s
    else match f.check
      case CheckThrows => Recover(s, f.now)
      case Despawned => s.(hasSword := false)
      case Present =>
        var s1 := Rescale(s, f);
        if !s1.hasTarget then s1
        else
          var s2 := FollowGuide(Retune(s1, f), f);
          if !f.shouldReform then s2
          else LockBranchWith(Holster(s2, f), f, asWritten)
  }

  /** The frame with the corrected lock branch and `Attach`. */
  function Update(s: Shard, f: Frame): (r: Shard)
    ensures JointMatchesState(s) ==> JointMatchesState(r)
    ensures r.state == Locked && s.state != Locked ==> r.joint.Some? && r.joint.value.PositionDrives(LockDrive)
  {
    UpdateWith(s, f, false)
  }

  /** The frame as written. */
  function UpdateAsWritten(s: Shard, f: Frame): (r: Shard)
    ensures r.state == Locked && s.state != Locked && r.joint.Some? ==> r.joint.value.PositionDrives(CreatePosDrive)
  {
    UpdateWith(s, f, true)
  }

  /** As written, a frame can break "a joint exactly when not Free": a
      held, joint-less shard at its guide in a quiet frame ends Locked
      with no joint, while the corrected frame locks it with a joint. */
  lemma UpdateAsWrittenBreaksInvariant(s: Shard, f: Frame)
    requires QuietFrame(s, f) && s.state == Free && s.joint.None?
    requires f.held && f.shouldReform && Debounced(s, f) && CloseEnoughToLock(f)
    ensures JointMatchesState(s)
    ensures UpdateAsWritten(s, f).state == Locked && UpdateAsWritten(s, f).joint.None?
    ensures !JointMatchesState(UpdateAsWritten(s, f))
    ensures Update(s, f).state == Locked && JointMatchesState(Update(s, f))
  {
    var s2 := FollowGuide(Retune(s, f), f);
    assert s2 == s;
    assert Holster(s2, f) == s;
    LockBranchAsWrittenBreaksInvariant(s, f);
  }

  /** The frames in which nothing but the lock test can change the state:
      the sword is present, its scale is unchanged, the guide is set and
      the shard was not frozen in a holster. */
  predicate QuietFrame(s: Shard, f: Frame) {
    s.alive && s.hasSword && f.check == Present
    && (f.swordHolstered || f.swordScale == s.lastSwordScale)
    && s.hasTarget && !s.wasInHolder
  }

  /** In a quiet frame, a shard that is not Locked becomes Locked exactly
      when the sword wants it back, the debounce has passed, it is within
      0.1 of its guide and 10 degrees of its rotation, and the mode allows
      locking; it then holds the locking drive. */
  lemma LockIff(s: Shard, f: Frame)
    requires QuietFrame(s, f) && s.state != Locked
    ensures Update(s, f).state == Locked <==>
              f.shouldReform && Debounced(s, f) && CloseEnoughToLock(f)
    ensures Update(s, f).state == Locked ==>
              Update(s, f).joint.Some? && Update(s, f).joint.value.PositionDrives(LockDrive)
  {
    var s2 := FollowGuide(Retune(s, f), f);
    assert s2.state == s.state && s2.lastUnlockTime == s.lastUnlockTime;
    if f.shouldReform {
      assert Holster(s2, f) == s2;
    }
  }

  /** The holster round trip: a locked shard of a sword that goes into a
      holder is frozen onto its guide; when the sword leaves the holder, it
      is released and reforms (and does not relock in that frame, because
      reforming destroyed its joint just now). */
  lemma HolsterRoundTrip(s: Shard, f1: Frame, f2: Frame)
    requires s.alive && s.hasSword && s.hasTarget && s.state == Locked && s.joint.Some? && !s.wasInHolder
    requires f1.check == Present && f1.swordHolstered && f1.shouldReform && !f1.inHolder
    requires f2.check == Present && !f2.swordHolstered && f2.swordScale == s.lastSwordScale
    requires f2.shouldReform && !f2.inHolder
    ensures Update(s, f1).wasInHolder && Update(s, f1).kinematic && Update(s, f1).parentedToGuide
    ensures Update(s, f1).state == Locked
    ensures Update(Update(s, f1), f2).state == Reforming
    ensures !Update(Update(s, f1), f2).wasInHolder && !Update(Update(s, f1), f2).kinematic
    ensures !Update(Update(s, f1), f2).parentedToGuide && Update(Update(s, f1), f2).shown
  {
    var r1 := Update(s, f1);
    var a := FollowGuide(Retune(s, f1), f1);
    assert a.state == Locked && a.joint.Some?;
    assert r1 == Holster(a, f1);
    assert r1.lastSwordScale == s.lastSwordScale;
    var b := FollowGuide(Retune(r1, f2), f2);
    assert b.state == Locked && b.joint.Some? && b.wasInHolder;
    var c := Holster(b, f2);
    assert c.lastUnlockTime == f2.now;
    assert Update(r1, f2) == LockBranch(c, f2);
  }
}
