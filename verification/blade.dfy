/** The sword itself, as far as its modes and the per-frame orchestration
    see it: the shards (keyed by their number, so a number names at most one
    shard), the `isSpawning` flags, the readiness gate, the locking flags of
    the tap toggle, the flags a mode flips on the rig, and the tutorial
    labels. The active mode lives in the orchestrator; what a mode decides
    about a shard reaches the sword as a `Veto`. */
module Blade {
  import opened Base
  import opened Joints
  import opened BladePart
  import opened Annotations
  import opened Poses

  /** The shard numbers: `ShatterbladePart{k}` and its guide `Blade_{k}`. */
  predicate IsIndex(k: int) {
    1 <= k <= 15
  }

  /** A mode's `ShouldReform` answer, by shard number. A sword without a
      mode allows every shard. */
  datatype Veto = AllowAll | AllBut(target: nat) | Only(keep: set<nat>)

  predicate Allows(v: Veto, k: nat) {
    match v
    case AllowAll => true
    case AllBut(t) => k != t
    case Only(s) => k in s
  }

  /** What modes flip on the sword: `shouldLock`, the animator, whether the
      guides hang under the animator, and the animator's three booleans. */
  datatype Rig = Rig(
    shouldLock: bool,
    animatorEnabled: bool,
    guidesParented: bool,
    isExpanded: bool,
    isShield: bool,
    isLeft: bool)

  /** The rig of a sword no mode has touched. */
  const HomeRig := Rig(true, true, true, false, false, false)

  /** The sword's six tutorial labels. */
  datatype Labels = Labels(
    handleA: Annotation,
    handleB: Annotation,
    imbueShard: Annotation,
    gunShard: Annotation,
    imbueHandle: Annotation,
    otherHand: Annotation)

  datatype Sword = Sword(
    tutorial: bool,
    parts: map<nat, Shard>,
    spawning: set<nat>,        // numbers whose `isSpawning` flag is true
    isReady: bool,
    locking: bool,
    wasLocking: bool,
    buttonWasPressed: bool,
    lastButtonPress: real,
    lastBladeHaptic: real,
    rig: Rig,
    labels: Labels,
    despawned: bool)

  /** The bookkeeping the sword keeps: shards sit under their own number,
      flags exist only for shard numbers, a shard is never both present and
      spawning, and a ready sword waits for no spawn. */
  predicate Bookkeeping(sw: Sword) {
    && (forall k :: k in sw.parts ==> IsIndex(k) && sw.parts[k].index == k)
    && (forall k :: k in sw.spawning ==> IsIndex(k))
    && (forall k :: k in sw.parts ==> k !in sw.spawning)
    && (sw.isReady ==> sw.spawning == {})
  }

  /** Every shard number has a shard. */
  ghost predicate Complete(sw: Sword) {
    forall k :: IsIndex(k) ==> k in sw.parts
  }

  /** A set of numbers in 1..n has at most n elements, and exactly n when
      it holds every one of them; so "15 shards" and "every shard number
      has a shard" are the same. */
  lemma {:induction false} BoundedCard(s: set<nat>, n: nat)
    requires forall k :: k in s ==> 1 <= k <= n
    ensures |s| <= n
    ensures |s| == n <==> forall k :: 1 <= k <= n ==> k in s
    decreases n
  {
    if n == 0 {
      assert s == {};
    } else {
      var rest := s - {n};
      BoundedCard(rest, n - 1);
      if n in s {
        assert s == rest + {n};
      } else {
        assert rest == s;
      }
    }
  }

  /** `GetPart`: the shard with number `k`, or null. */
  function GetPart(sw: Sword, k: nat): (r: Option<Shard>)
    ensures r.Some? <==> k in sw.parts
    ensures r.Some? ==> r.value == sw.parts[k]
    ensures Bookkeeping(sw) && r.Some? ==> r.value.index == k && IsIndex(k)
  {
    if k in sw.parts then Some(sw.parts[k]) else None
  }

  /** `Shatterblade.ShouldReform`: the sword wants shard `k` back. */
  predicate ShouldReform(sw: Sword, v: Veto, k: nat) {
    sw.locking && Allows(v, k)
  }

  /** `ReformParts`: nothing before the sword is ready; otherwise `locking`
      is set and every shard the mode allows is reformed. */
  function ReformParts(sw: Sword, v: Veto, now: real): (r: Sword)
    ensures !sw.isReady ==> r == sw
    ensures sw.isReady ==> r.locking
    ensures r.parts.Keys == sw.parts.Keys
    ensures forall k :: k in sw.parts ==>
              r.parts[k] == if sw.isReady && Allows(v, k) then Reform(sw.parts[k], sw.rig.shouldLock, now) else sw.parts[k]
    ensures r == sw.(parts := r.parts, locking := r.locking)
  {
    if !sw.isReady then sw
    else
      var parts := map k | k in sw.parts :: if Allows(v, k) then Reform(sw.parts[k], sw.rig.shouldLock, now) else sw.parts[k];
      sw.(locking := true, parts := parts)
  }

  /** After `ReformParts`, the shards that are reforming are exactly the
      ones the sword now wants back (for a sword whose shards were all
      Free or Locked before). */
  lemma ReformPartsMatchesShouldReform(sw: Sword, v: Veto, now: real, k: nat)
    requires sw.isReady && k in sw.parts && sw.parts[k].state != Reforming
    ensures ReformParts(sw, v, now).parts[k].state == Reforming <==> ShouldReform(ReformParts(sw, v, now), v, k)
  {
  }

  /** `DetachParts`: every shard is detached (and thrown when asked) at the
      velocity of its guide. */
  function DetachParts(sw: Sword, shouldThrow: bool, pointVelocity: nat -> Vec3, now: real): (r: Sword)
    ensures r.parts.Keys == sw.parts.Keys
    ensures forall k :: k in r.parts ==>
              r.parts[k] == Detach(sw.parts[k], shouldThrow, pointVelocity(k), now)
    ensures forall k :: k in r.parts ==> r.parts[k].state == Free && r.parts[k].joint.None?
    ensures r == sw.(parts := r.parts)
  {
    sw.(parts := map k | k in sw.parts :: Detach(sw.parts[k], shouldThrow, pointVelocity(k), now))
  }

  /** Shard-number bookkeeping survives reforming and detaching. */
  lemma ReformDetachKeepBookkeeping(sw: Sword, v: Veto, shouldThrow: bool, pv: nat -> Vec3, now: real)
    requires Bookkeeping(sw)
    ensures Bookkeeping(ReformParts(sw, v, now))
    ensures Bookkeeping(DetachParts(sw, shouldThrow, pv, now))
  {
  }

  /** The bookkeeping reads only the shards, the spawn flags and the
      readiness flag. */
  lemma BookkeepingFrame(a: Sword, b: Sword)
    requires a.parts == b.parts && a.spawning == b.spawning && a.isReady == b.isReady
    ensures Bookkeeping(a) == Bookkeeping(b)
  {
  }

  /** Replacing a shard by one carrying the same number keeps the
      bookkeeping, and so does any change that leaves parts, flags and
      readiness alone. */
  lemma ReplaceShardKeepsBookkeeping(sw: Sword, k: nat, s: Shard)
    requires Bookkeeping(sw) && k in sw.parts && s.index == k
    ensures Bookkeeping(sw.(parts := sw.parts[k := s]))
  {
  }

  /** Detaching and then reforming with every shard allowed leaves every
      shard reforming on exactly one fresh joint. */
  lemma DetachThenReform(sw: Sword, pv: nat -> Vec3, t1: real, t2: real)
    requires sw.isReady
    ensures var r := ReformParts(DetachParts(sw, true, pv, t1), AllowAll, t2);
            forall k :: k in r.parts ==>
              r.parts[k].state == Reforming && r.parts[k].joint == Some(NewJoint(false, sw.rig.shouldLock))
  {
  }

  /** `HideAllAnnotations`: the five labels the sword creates itself are
      hidden; the other-hand label is not among them. */
  function HideAllAnnotations(l: Labels): (r: Labels)
    ensures !r.handleA.visible && !r.handleB.visible && !r.imbueShard.visible
    ensures !r.gunShard.visible && !r.imbueHandle.visible
    ensures r.otherHand == l.otherHand
    ensures r.handleA.text == l.handleA.text && r.imbueHandle.text == l.imbueHandle.text
  {
    Labels(Hide(l.handleA), Hide(l.handleB), Hide(l.imbueShard), Hide(l.gunShard), Hide(l.imbueHandle), l.otherHand)
  }

  // ---------------------------------------------------------------------
  // Spawning

  /** `SpawnPart(k)`: the flag is raised and a spawn requested; the shard
      itself arrives later, in `SpawnArrived`. */
  function SpawnPart(sw: Sword, k: nat): (r: Sword)
    ensures k in r.spawning && r.spawning == sw.spawning + {k}
    ensures r == sw.(spawning := r.spawning)
  {
    sw.(spawning := sw.spawning + {k})
  }

  /** A fresh shard as `BladePart.Init` leaves it: Free, jointless, with
      its guide and the sword set, the holster flag copied from the sword,
      and the two fields `Init` never assigns at their defaults: no unlock
      time yet (0) and no sword scale seen yet (the zero scale). */
  function FreshShard(k: nat, swordHolstered: bool): (s: Shard)
    ensures s.index == k && s.state == Free && s.joint.None? && s.alive && s.hasSword && s.hasTarget
    ensures JointMatchesState(s)
    ensures s.wasInHolder == swordHolstered
    ensures s.lastUnlockTime == 0.0 && s.lastSwordScale == 0.0
  {
    Shard(k, Free, None, 0.0, swordHolstered, false, false, true, true, NoModifier, Vec3(0.0, 0.0, 0.0), true, true, 0.0, true)
  }

  /** Because no scale has been seen yet, the first frame in which the
      sword is out of a holder (at any real, nonzero scale) detaches and
      reforms a fresh shard at once, in either reading of the lock
      branch: it leaves the frame holding a joint, no longer Free, with
      the sword's scale recorded. The debounce is measured from time 0. */
  lemma FreshShardReformsAtOnce(k: nat, swordHolstered: bool, f: Frame, asWritten: bool)
    requires f.check == Present && !f.swordHolstered && f.swordScale != 0.0
    ensures var r := UpdateWith(FreshShard(k, swordHolstered), f, asWritten);
            r.state != Free && r.joint.Some? && JointMatchesState(r) && r.lastSwordScale == f.swordScale
    ensures Debounced(FreshShard(k, swordHolstered), f) <==> f.now > 0.1
  {
    var s := FreshShard(k, swordHolstered);
    var s1 := Rescale(s, f);
    assert s1.state == Reforming && s1.joint.Some? && s1.hasTarget && s1.lastSwordScale == f.swordScale;
    var s2 := FollowGuide(Retune(s1, f), f);
    assert s2.state == Reforming && s2.joint.Some? && s2.lastSwordScale == f.swordScale;
    if f.shouldReform {
      var s3 := Holster(s2, f);
      assert s3.state == Reforming && s3.joint.Some? && s3.lastSwordScale == f.swordScale;
      assert PrepareLock(s3, f) == s3;
    }
  }

  /** The spawn callback for shard `k`: the shard joins, its flag drops,
      and shards 1, 10 and 11 get a fresh label each. */
  function SpawnArrived(sw: Sword, k: nat, s: Shard): (r: Sword)
    ensures r.parts == sw.parts[k := s]
    ensures r.spawning == sw.spawning - {k}
    ensures k == 1 ==> r.labels.imbueShard == Init(sw.tutorial, k, k, Vec3(1.0, -1.0, 0.0))
    ensures k == 10 ==> r.labels.gunShard == Init(sw.tutorial, k, k, Vec3(1.0, -2.0, 0.0))
    ensures k == 11 ==> r.labels.imbueHandle == Init(sw.tutorial, k, k, Vec3(-1.0, -2.0, 0.0))
    ensures k !in {1, 10, 11} ==> r.labels == sw.labels
    ensures r == sw.(parts := r.parts, spawning := r.spawning, labels := r.labels)
  {
    var l := sw.labels;
    var l1 :=
      if k == 1 then l.(imbueShard := Init(sw.tutorial, k, k, Vec3(1.0, -1.0, 0.0)))
      else if k == 10 then l.(gunShard := Init(sw.tutorial, k, k, Vec3(1.0, -2.0, 0.0)))
      else if k == 11 then l.(imbueHandle := Init(sw.tutorial, k, k, Vec3(-1.0, -2.0, 0.0)))
      else l;
    sw.(parts := sw.parts[k := s], spawning := sw.spawning - {k}, labels := l1)
  }

  /** A requested shard arriving keeps the bookkeeping. */
  lemma SpawnKeepsBookkeeping(sw: Sword, k: nat, swordHolstered: bool)
    requires Bookkeeping(sw) && IsIndex(k)
    requires k !in sw.parts
    ensures Bookkeeping(SpawnPart(sw, k).(isReady := false))
    ensures k in sw.spawning ==> Bookkeeping(SpawnArrived(sw, k, FreshShard(k, swordHolstered)))
  {
  }

  /** A shard that despawns leaves the list (its despawn handler removes
      it). */
  function PartDespawned(sw: Sword, k: nat): (r: Sword)
    ensures k !in r.parts && r.parts == sw.parts - {k}
    ensures Bookkeeping(sw) ==> Bookkeeping(r)
    ensures r == sw.(parts := r.parts)
  {
    sw.(parts := sw.parts - {k})
  }

  /** The shards that survive the filter at the top of
      `CheckForMissingParts`: those whose component still exists. */
  function Live(parts: map<nat, Shard>): (r: map<nat, Shard>)
    ensures forall k :: k in r <==> k in parts && parts[k].alive
    ensures forall k :: k in r ==> r[k] == parts[k]
  {
    map k | k in parts && parts[k].alive :: parts[k]
  }

  /** `CheckForMissingParts`: drops destroyed shards, then requests a spawn
      for every number that has neither a shard nor a pending spawn; each
      request clears `isReady`. Returns the sword and the requests, in
      order. */
  function CheckForMissingParts(sw: Sword): (r: (Sword, seq<nat>))
    ensures r.0.parts == Live(sw.parts)
    ensures forall k :: k in r.1 <==> IsIndex(k) && k !in Live(sw.parts) && k !in sw.spawning
    ensures Ascending(r.1)
    ensures forall k :: k in r.0.spawning <==> k in sw.spawning || k in r.1
    ensures |r.1| > 0 ==> !r.0.isReady
    ensures |r.1| == 0 ==> r.0.isReady == sw.isReady
    ensures forall k :: IsIndex(k) ==> k in r.0.parts || k in r.0.spawning
    ensures r.0 == sw.(parts := r.0.parts, spawning := r.0.spawning, isReady := r.0.isReady)
  {
    var live := Live(sw.parts);
    var req := Without(live.Keys + sw.spawning, 1);
    assert forall k :: k in req <==> IsIndex(k) && k !in live && k !in sw.spawning;
    var spawning := sw.spawning + (set k | k in req);
    assert forall k :: k in spawning <==> k in sw.spawning || k in req;
    (sw.(parts := live, spawning := spawning, isReady := sw.isReady && |req| == 0), req)
  }

  /** The missing-shard check keeps the bookkeeping, and a sword still
      ready after it has all fifteen shards. */
  lemma CheckKeepsBookkeeping(sw: Sword)
    requires Bookkeeping(sw)
    ensures Bookkeeping(CheckForMissingParts(sw).0)
    ensures CheckForMissingParts(sw).0.isReady ==> Complete(CheckForMissingParts(sw).0)
  {
    var r := CheckForMissingParts(sw);
    if r.0.isReady {
      assert |r.1| == 0;
      assert r.0.spawning == sw.spawning;
    }
  }

  /** `PostInit`: the sword becomes ready and locking, and reforms the
      shards the mode allows. */
  function PostInit(sw: Sword, v: Veto, now: real): (r: Sword)
    ensures r.isReady && r.locking
    ensures r == ReformParts(sw.(isReady := true), v, now)
  {
    ReformParts(sw.(isReady := true, locking := true), v, now)
  }

  /** The gate at the top of `Update` after the missing-shard check: a
      sword that is not ready becomes ready when it has 15 shards and
      otherwise stops the frame (`None`). */
  function ReadyGate(sw: Sword, v: Veto, now: real): (r: Option<Sword>)
    ensures sw.isReady ==> r == Some(sw)
    ensures !sw.isReady && |sw.parts| == 15 ==> r == Some(PostInit(sw, v, now))
    ensures r.None? <==> !sw.isReady && |sw.parts| != 15
  {
    if !sw.isReady && |sw.parts| == 15 then Some(PostInit(sw, v, now))
    else if !sw.isReady then None
    else Some(sw)
  }

  /** The gate lets a frame through only for a complete sword, and keeps
      the bookkeeping. */
  lemma ReadyGateComplete(sw: Sword, v: Veto, now: real)
    requires Bookkeeping(sw)
    requires sw.isReady ==> Complete(sw)
    ensures ReadyGate(sw, v, now).Some? ==> Complete(ReadyGate(sw, v, now).value)
    ensures ReadyGate(sw, v, now).Some? ==> Bookkeeping(ReadyGate(sw, v, now).value)
    ensures ReadyGate(sw, v, now).Some? ==> ReadyGate(sw, v, now).value.isReady
  {
    if !sw.isReady && |sw.parts| == 15 {
      BoundedCard(sw.parts.Keys, 15);
      assert forall k :: k in sw.spawning ==> IsIndex(k) && k in sw.parts;
      assert sw.spawning == {};
      var ready := sw.(isReady := true, locking := true);
      assert Bookkeeping(ready);
      ReformDetachKeepBookkeeping(ready, v, false, k => Vec3(0.0, 0.0, 0.0), now);
      assert PostInit(sw, v, now).parts.Keys == sw.parts.Keys;
    }
  }

  /** `BladeHaptic`: none in the cannon; otherwise at most one tick every
      0.01 s, at half the impact speed's position in [0, 10]. Returns the
      sword and the tick intensity sent to every holding hand, if any. */
  function BladeHaptic(sw: Sword, inCannon: bool, velocity: real, now: real): (r: (Sword, Option<real>))
    ensures inCannon || now - sw.lastBladeHaptic <= 0.01 ==> r == (sw, None)
    ensures r.1.Some? ==> 0.0 <= r.1.value <= 0.5 && r.0.lastBladeHaptic == now
    ensures r.1.Some? && velocity >= 10.0 ==> r.1.value == 0.5
    ensures r.1.Some? && velocity <= 0.0 ==> r.1.value == 0.0
    ensures r.0 == sw.(lastBladeHaptic := r.0.lastBladeHaptic)
  {
    if inCannon then (sw, None)
    else if now - sw.lastBladeHaptic > 0.01 then
      (sw.(lastBladeHaptic := now), Some(InverseLerp(0.0, 10.0, velocity) * 0.5))
    else (sw, None)
  }

  /** Two ticks are never closer than 0.01 s. */
  lemma BladeHapticSpacing(sw: Sword, v1: real, v2: real, t1: real, t2: real)
    requires BladeHaptic(sw, false, v1, t1).1.Some?
    requires t2 - t1 <= 0.01
    ensures BladeHaptic(BladeHaptic(sw, false, v1, t1).0, false, v2, t2).1.None?
  {
  }
}
