/** `CannonMode`: shard 10 held as a gun. Shard 1 is the barrel beside
    the hand; the other thirteen shards are the magazine, a drum of rounds
    spinning around the thumb. One round at a time sits in the chamber;
    pulling the trigger fires it and chambers a random next one, with at
    least 0.4 s between shots, or about 0.05 s while the button holds the
    gun in burst mode. An empty gun reloads itself at most once a second,
    and fires again only when every round has come back. */
module Cannon {
  import opened Base
  import opened Annotations
  import opened BladePart
  import opened Blade
  import opened Poses
  import opened GrabbedModes

  /** The barrel (`Blade_1`) and the grip (`Blade_10`), which are never
      rounds. */
  const Barrel: nat := 1
  const Grip: nat := 10

  /** The minimum gap between shots, and how much of it a burst shot
      leaves: a burst shot counts as fired 0.35 s earlier. */
  const ShotGap: real := 0.4
  const BurstCredit: real := 0.35

  /** Every number occurs at most once. */
  ghost predicate Distinct(s: seq<nat>) {
    forall k :: multiset(s)[k] <= 1
  }

  /** Two equal entries at two places make a list not distinct. */
  lemma RepeatNotDistinct(s: seq<nat>, i: nat, j: nat)
    requires i < j < |s| && s[i] == s[j]
    ensures !Distinct(s)
  {
    assert s == s[..j] + s[j..];
    assert s[i] == s[..j][i];
    assert s[j] == s[j..][0];
    assert multiset(s) == multiset(s[..j]) + multiset(s[j..]);
    assert multiset(s[..j])[s[j]] >= 1 && multiset(s[j..])[s[j]] >= 1;
    assert multiset(s)[s[j]] >= 2;
  }

  // ---------------------------------------------------------------------
  // The magazine

  /** The magazine built on entry and on reload: the rig's guides, in the
      rig's order, without the barrel and the grip. */
  function MagazineOf(rbs: seq<nat>): (r: seq<nat>)
    ensures forall k :: k in r <==> k in rbs && k != Barrel && k != Grip
    ensures forall k :: multiset(r)[k] <= multiset(rbs)[k]
    ensures |r| == |rbs| - multiset(rbs)[Barrel] - multiset(rbs)[Grip]
  {
    if |rbs| == 0 then []
    else
      assert rbs == [rbs[0]] + rbs[1..];
      var rest := MagazineOf(rbs[1..]);
      if rbs[0] != Barrel && rbs[0] != Grip then [rbs[0]] + rest else rest
  }

  /** `List.Remove`: the first occurrence goes, if there is one. */
  function RemoveFirst(s: seq<nat>, k: nat): (r: seq<nat>)
    ensures k in s ==> multiset(r) == multiset(s) - multiset{k}
    ensures k !in s ==> r == s
  {
    if |s| == 0 then s
    else
      assert s == [s[0]] + s[1..];
      if s[0] == k then s[1..] else [s[0]] + RemoveFirst(s[1..], k)
  }

  /** `List.IndexOf`: the first place `k` occurs. */
  function IndexOf(s: seq<nat>, k: nat): (r: nat)
    requires k in s
    ensures r < |s| && s[r] == k && k !in s[..r]
  {
    if s[0] == k then 0
    else
      var j := IndexOf(s[1..], k);
      assert s[..j + 1] == [s[0]] + s[1..][..j];
      j + 1
  }

  /** In a list without repeats, the first place of the `j`-th entry is
      `j`. */
  lemma IndexOfDistinct(s: seq<nat>, j: nat)
    requires Distinct(s) && j < |s|
    ensures IndexOf(s, s[j]) == j
  {
    var i := IndexOf(s, s[j]);
    if i < j {
      RepeatNotDistinct(s, i, j);
    }
  }

  datatype CannonState = CannonState(
    magazine: seq<nat>,
    chambered: Option<nat>,
    lastShot: real,
    lastReload: real,
    lastButtonPressed: real,
    buttonWasPressed: bool,
    spin: Option<Effect>,      // spinEffect
    rotation: real,
    reloading: bool,
    fire: Annotation,          // fireAnnotation
    burst: Annotation)         // burstAnnotation

  /** The rig's guides: shard numbers, each named once. */
  ghost predicate RigGuides(rbs: seq<nat>) {
    (forall k :: k in rbs ==> IsIndex(k)) && Distinct(rbs)
  }

  predicate IsRound(k: nat) {
    IsIndex(k) && k != Barrel && k != Grip
  }

  /** The gun's bookkeeping: no round is in the magazine twice, every
      round is a shard other than the barrel and the grip, and the
      chambered round is not also in the magazine. */
  ghost predicate Sound(x: CannonState) {
    && Distinct(x.magazine)
    && (forall k :: k in x.magazine ==> IsRound(k))
    && (x.chambered.Some? ==> IsRound(x.chambered.value) && x.chambered.value !in x.magazine)
  }

  /** `ChamberRound(round)`: the chamber is emptied first; with rounds in
      the magazine, `round` is chambered and its first occurrence leaves
      the magazine. */
  function ChamberRoundWith(x: CannonState, round: nat): (r: CannonState)
    ensures |x.magazine| == 0 ==> r == x.(chambered := None)
    ensures |x.magazine| > 0 ==> r.chambered == Some(round)
    ensures round in x.magazine ==> multiset(r.magazine) + multiset{round} == multiset(x.magazine)
    ensures round !in x.magazine ==> r.magazine == x.magazine
    ensures r == x.(chambered := r.chambered, magazine := r.magazine)
  {
    var y := x.(chambered := None);
    if |y.magazine| == 0 then y
    else y.(chambered := Some(round), magazine := RemoveFirst(y.magazine, round))
  }

  /** `ChamberRound()`: nothing on an empty magazine (the chamber is left
      as it is); otherwise a round picked at random is chambered. `pick`
      stands for `Random.Range`: any index will do. */
  function ChamberRound(x: CannonState, pick: nat): (r: CannonState)
    ensures |x.magazine| == 0 ==> r == x
    ensures |x.magazine| > 0 ==> r.chambered.Some? && r.chambered.value in x.magazine
    ensures |x.magazine| > 0 ==> multiset(r.magazine) + multiset{r.chambered.value} == multiset(x.magazine)
    ensures r == x.(chambered := r.chambered, magazine := r.magazine)
  {
    if |x.magazine| == 0 then x
    else ChamberRoundWith(x, x.magazine[pick % |x.magazine|])
  }

  /** Chambering from a sound gun keeps it sound: the round moves from the
      magazine to the chamber, one fewer in the magazine. */
  lemma ChamberRoundKeepsSound(x: CannonState, pick: nat)
    requires Sound(x.(chambered := None))
    ensures var r := ChamberRound(x.(chambered := None), pick);
            Sound(r) && (|x.magazine| > 0 <==> r.chambered.Some?) &&
            |r.magazine| == if |x.magazine| > 0 then |x.magazine| - 1 else 0
  {
    var y := x.(chambered := None);
    var r := ChamberRound(y, pick);
    if |x.magazine| > 0 {
      var k := r.chambered.value;
      assert multiset(r.magazine)[k] + 1 == multiset(x.magazine)[k];
      assert forall j :: j in r.magazine ==> j in x.magazine by {
        forall j | j in r.magazine ensures j in x.magazine {
          assert multiset(r.magazine)[j] <= multiset(x.magazine)[j];
        }
      }
      assert |multiset(r.magazine)| + 1 == |multiset(x.magazine)|;
    }
  }

  /** `Reload`: at most once a second; then the magazine is refilled
      from the rig and the gun waits for its rounds. */
  function Reload(x: CannonState, rbs: seq<nat>, now: real): (r: CannonState)
    ensures now - x.lastReload <= 1.0 ==> r == x
    ensures now - x.lastReload > 1.0 ==> r.lastReload == now && r.reloading
    ensures now - x.lastReload > 1.0 ==> forall k :: k in r.magazine <==> k in rbs && k != Barrel && k != Grip
    ensures r == x.(magazine := r.magazine, lastReload := r.lastReload, reloading := r.reloading)
  {
    if now - x.lastReload <= 1.0 then x
    else x.(lastReload := now, reloading := true, magazine := MagazineOf(rbs))
  }

  /** Reloads are more than a second apart: a reload at `t1` makes the
      gun ignore every reload before `t1 + 1`. */
  lemma ReloadAtMostOncePerSecond(x: CannonState, rbs: seq<nat>, t1: real, t2: real)
    requires Reload(x, rbs, t1).lastReload != x.lastReload
    requires t2 - t1 <= 1.0
    ensures Reload(Reload(x, rbs, t1), rbs, t2) == Reload(x, rbs, t1)
  {
  }

  /** A reload from a rig whose guides are named once each gives a sound,
      full magazine with nothing chambered: thirteen rounds for the
      fifteen guides. */
  lemma ReloadFillsMagazine(x: CannonState, rbs: seq<nat>, now: real)
    requires RigGuides(rbs) && Barrel in rbs && Grip in rbs
    requires now - x.lastReload > 1.0 && x.chambered.None?
    ensures Sound(Reload(x, rbs, now))
    ensures |Reload(x, rbs, now).magazine| == |rbs| - 2
  {
  }

  // ---------------------------------------------------------------------
  // The drum's spin

  /** The spin while the button is held: from 20 degrees a second at the
      press to 400 half a second later. */
  function BurstSpin(now: real, lastButtonPressed: real): (r: real)
    ensures 20.0 <= r <= 400.0
    ensures now <= lastButtonPressed ==> r == 20.0
    ensures now - lastButtonPressed >= 0.5 ==> r == 400.0
  {
    Lerp(20.0, 400.0, Clamp01(now - lastButtonPressed) * 2.0)
  }

  /** The spin otherwise: 400 right after a shot, settling to 80 over two
      seconds (and 80 once the trigger is up, which zeroes `lastShot`). */
  function CoolSpin(now: real, lastShot: real): (r: real)
    ensures 80.0 <= r <= 400.0
    ensures now <= lastShot ==> r == 400.0
    ensures now - lastShot >= 2.0 ==> r == 80.0
  {
    Lerp(400.0, 80.0, Clamp01((now - lastShot) * 0.5))
  }

  /** The burst spin only speeds up while the button stays held, and the
      other spin only slows down after a shot. */
  lemma SpinsAreMonotone(t1: real, t2: real, mark: real)
    requires t1 <= t2
    ensures BurstSpin(t1, mark) <= BurstSpin(t2, mark)
    ensures CoolSpin(t2, mark) <= CoolSpin(t1, mark)
  {
    assert Clamp01(t1 - mark) <= Clamp01(t2 - mark);
    LerpMonotone(20.0, 400.0, Clamp01(t1 - mark) * 2.0, Clamp01(t2 - mark) * 2.0);
    var c1 := Clamp01(Clamp01((t1 - mark) * 0.5));
    var c2 := Clamp01(Clamp01((t2 - mark) * 0.5));
    assert c1 <= c2;
    MulMono(320.0, c1, c2);
  }

  // ---------------------------------------------------------------------
  // Labels

  const BurstFireText := "Pull trigger to burst fire"
  const FireText := "Pull trigger to fire"
  const ChargeBurstText := "Hold Oculus A/X to charge up a burst shot"

  /** Where the two labels float: ahead of the grip, on the thumb's side
      of the hand that holds it. */
  function FireOffset(side: Side): (r: Vec3)
    ensures r.x == 1.0 && r.y == 0.7 && (r.z == 1.0 <==> side == Left) && (r.z == -1.0 <==> side == Right)
  {
    Vec3(1.0, 0.7, if side == Left then 1.0 else -1.0)
  }

  function BurstOffset(side: Side): (r: Vec3)
    ensures r == FireOffset(side).(x := -1.0)
  {
    Vec3(-1.0, 0.7, if side == Left then 1.0 else -1.0)
  }

  // ---------------------------------------------------------------------
  // One frame

  /** What a frame's update sees: the time and the frame's duration, the
      side of the hand on the grip and its two controls, the shards whose
      bodies are within 1 of the grip, and the two random picks a frame can
      make (one to refill an empty chamber, one after a shot). */
  datatype Frame = Frame(
    now: real,
    dt: real,
    side: Side,
    button: bool,
    trigger: bool,
    near: set<nat>,
    pick: nat,
    nextPick: nat)

  /** A shot: the shoot effect at the round, and a forced homing throw
      along the pointing direction. */
  datatype Act = Shot(round: nat)

  /** The poses the update gives: the drum around the thumb, the barrel
      beside the hand, and the chambered round above it. */
  datatype CannonPose = InDrum(p: Placement) | AsBarrel | InBreech

  /** The first part of `Update`: both labels follow the hand; with the
      button held the drum spins up and only the fire label shows, with
      its burst text; otherwise both labels show and the spin settles. */
  function Upkeep(x: CannonState, f: Frame): (r: CannonState)
    ensures r == x.(rotation := r.rotation, fire := r.fire, burst := r.burst)
    ensures f.button ==> r.rotation == Turn(x.rotation, f.dt, BurstSpin(f.now, x.lastButtonPressed))
    ensures !f.button ==> r.rotation == Turn(x.rotation, f.dt, CoolSpin(f.now, x.lastShot))
    ensures r.fire.offset == FireOffset(f.side) && r.burst.offset == BurstOffset(f.side)
    ensures f.button ==> !r.burst.visible
    ensures x.fire.shouldShow ==> r.fire.visible && r.fire.text == Render(if f.button then BurstFireText else FireText, None)
    ensures !f.button && x.burst.shouldShow ==> r.burst.visible && r.burst.text == Render(ChargeBurstText, None)
  {
    var fire := x.fire.(offset := FireOffset(f.side));
    var burst := x.burst.(offset := BurstOffset(f.side));
    if f.button then
      x.(rotation := Turn(x.rotation, f.dt, BurstSpin(f.now, x.lastButtonPressed)),
         fire := SetText(fire, BurstFireText, None), burst := Hide(burst))
    else
      x.(rotation := Turn(x.rotation, f.dt, CoolSpin(f.now, x.lastShot)),
         fire := SetText(fire, FireText, None), burst := SetText(burst, ChargeBurstText, None))
  }

  /** The pose loop over the magazine: each round goes to the place of its
      first occurrence on a ring of the magazine's size, turned by the
      drum's rotation, tighter with the button held. */
  function DrumPoses(magazine: seq<nat>, rotation: real, button: bool): (r: seq<(nat, CannonPose)>)
    ensures |r| == |magazine|
    ensures forall j :: 0 <= j < |r| ==> r[j].0 == magazine[j] && r[j].1.InDrum?
    ensures forall j :: 0 <= j < |r| ==>
              r[j].1.p.group == Drum && r[j].1.p.size == |magazine| &&
              r[j].1.p.radius == (if button then 0.2 else 0.3)
  {
    seq(|magazine|, j requires 0 <= j < |magazine| =>
      var slot := IndexOf(magazine, magazine[j]);
      (magazine[j], InDrum(Placement(Drum, slot, |magazine|, if button then 0.2 else 0.3,
                                     RingAngle(slot, |magazine|, rotation), 0.0))))
  }

  /** With no round twice in the magazine, the drum spreads the rounds
      evenly: round `j` sits in slot `j`, `360 / n` degrees on from the
      one before it. */
  lemma DrumSpreadsEvenly(magazine: seq<nat>, rotation: real, button: bool, j: nat)
    requires Distinct(magazine) && j < |magazine|
    ensures DrumPoses(magazine, rotation, button)[j].1.p.slot == j
    ensures DrumPoses(magazine, rotation, button)[j].1.p.angle - rotation ==
              (j as real) * 360.0 / (|magazine| as real)
  {
    IndexOfDistinct(magazine, j);
  }

  /** Every pose of the frame: the drum, then the barrel when shard 1
      exists, then the chambered round when it has a shard. */
  function FramePoses(sw: Sword, x: CannonState, button: bool): (r: seq<(nat, CannonPose)>)
    ensures |r| >= |x.magazine|
    ensures r[..|x.magazine|] == DrumPoses(x.magazine, x.rotation, button)
    ensures (Barrel, AsBarrel) in r <==> Barrel in sw.parts
    ensures forall k :: (k, InBreech) in r <==> x.chambered == Some(k) && k in sw.parts
  {
    var drum := DrumPoses(x.magazine, x.rotation, button);
    var barrel := if Barrel in sw.parts then [(Barrel, AsBarrel)] else [];
    var breech := if x.chambered.Some? && x.chambered.value in sw.parts then [(x.chambered.value, InBreech)] else [];
    assert (drum + barrel + breech)[..|x.magazine|] == drum;
    assert forall j :: 0 <= j < |drum| ==> drum[j].1.InDrum?;
    drum + barrel + breech
  }

  /** The magazine's every round is within reach of the grip. */
  predicate Gathered(magazine: seq<nat>, near: set<nat>) {
    forall k :: k in magazine ==> k in near
  }

  /** The supply part of `Update`: an empty gun with nothing chambered
      reloads; a reloading gun stops the frame here until its rounds are
      back, and then stops reloading; an empty chamber is refilled. The
      flag says the frame stopped. */
  function Supply(x: CannonState, rbs: seq<nat>, f: Frame): (r: (CannonState, bool))
    ensures var dry := |x.magazine| == 0 && x.chambered.None?;
            var y := if dry then Reload(x, rbs, f.now) else x;
            r.1 <==> y.reloading && !Gathered(y.magazine, f.near)
    ensures r.1 ==> r.0 == if |x.magazine| == 0 && x.chambered.None? then Reload(x, rbs, f.now) else x
    ensures !r.1 ==> !r.0.reloading
    ensures r.0 == x.(magazine := r.0.magazine, chambered := r.0.chambered, lastReload := r.0.lastReload, reloading := r.0.reloading)
  {
    var y := if |x.magazine| == 0 && x.chambered.None? then Reload(x, rbs, f.now) else x;
    if y.reloading && !Gathered(y.magazine, f.near) then (y, true)
    else
      var z := y.(reloading := false);
      (if z.chambered.None? then ChamberRound(z, f.pick) else z, false)
  }

  /** The button part: the press time and a playing spin effect on the
      press, the effect ended whenever the button is up. */
  function PressButton(x: CannonState, f: Frame): (r: CannonState)
    ensures r.buttonWasPressed == f.button
    ensures f.button && !x.buttonWasPressed ==> r.lastButtonPressed == f.now && r.spin == Some(Playing)
    ensures f.button && x.buttonWasPressed ==> r == x
    ensures !f.button ==> r.spin == EndEffect(x.spin) && r.lastButtonPressed == x.lastButtonPressed
    ensures r == x.(buttonWasPressed := r.buttonWasPressed, lastButtonPressed := r.lastButtonPressed, spin := r.spin)
  {
    if f.button then
      if !x.buttonWasPressed then x.(buttonWasPressed := true, lastButtonPressed := f.now, spin := Some(Playing))
      else x
    else x.(buttonWasPressed := false, spin := EndEffect(x.spin))
  }

  /** `Fire()`: the chambered round's shard is detached (its throw is
      physics), the chamber is emptied and a next round is chambered. */
  function Fire(sw: Sword, x: CannonState, f: Frame): (r: (Sword, CannonState, seq<Act>))
    requires x.chambered.Some?
    ensures r.2 == [Shot(x.chambered.value)]
    ensures var k := x.chambered.value;
            r.0 == sw.(parts := r.0.parts) && r.0.parts.Keys == sw.parts.Keys &&
            (k in sw.parts ==> r.0.parts[k].state == Free && r.0.parts[k].joint.None?) &&
            forall j :: j in sw.parts && j != k ==> r.0.parts[j] == sw.parts[j]
    ensures r.1 == ChamberRound(x.(chambered := None), f.nextPick)
  {
    var k := x.chambered.value;
    var sw1 := if k in sw.parts then sw.(parts := sw.parts[k := Detach(sw.parts[k], false, Vec3(0.0, 0.0, 0.0), f.now)]) else sw;
    (sw1, ChamberRound(x.(chambered := None), f.nextPick), [Shot(k)])
  }

  /** The trigger part: with the trigger held and the gap since the last
      shot over 0.4 s, a shot, and `lastShot` moves to now, or 0.35 s
      before now in burst mode; with the trigger up, `lastShot` is zeroed.
      As written the shot does not look at the chamber: on an empty
      chamber `Fire` dereferences null and the exception ends the frame
      (`threw`). Corrected, an empty chamber does not fire. */
  function PullTrigger(sw: Sword, x: CannonState, f: Frame, asWritten: bool): (r: (Sword, CannonState, seq<Act>, bool))
    ensures var go := f.trigger && f.now - x.lastShot > ShotGap;
            r.3 <==> asWritten && go && x.chambered.None?
    ensures |r.2| > 0 <==> f.trigger && f.now - x.lastShot > ShotGap && x.chambered.Some?
    ensures |r.2| > 0 ==> r.2 == [Shot(x.chambered.value)] &&
                          r.1.lastShot == (if f.button then f.now - BurstCredit else f.now)
    ensures |r.2| == 0 ==> r.0 == sw
    ensures |r.2| == 0 && f.trigger ==> r.1 == x
    ensures !f.trigger ==> r.1 == x.(lastShot := 0.0)
    ensures r.1 == x.(magazine := r.1.magazine, chambered := r.1.chambered, lastShot := r.1.lastShot)
  {
    if f.trigger then
      if f.now - x.lastShot > ShotGap then
        if x.chambered.None? then (sw, x, [], asWritten)
        else
          var fired := Fire(sw, x, f);
          (fired.0, fired.1.(lastShot := if f.button then f.now - BurstCredit else f.now), fired.2, false)
      else (sw, x, [], false)
    else (sw, x.(lastShot := 0.0), [], false)
  }

  /** What a frame leaves behind. */
  datatype FrameResult = FrameResult(sw: Sword, x: CannonState, acts: seq<Act>, poses: seq<(nat, CannonPose)>, threw: bool)

  /** `Update`: labels and spin, the poses (from the magazine as the
      frame found it), supply, button, trigger. `rbs` is the rig's guide
      list, which a reload copies. */
  function UpdateWith(sw: Sword, x: CannonState, rbs: seq<nat>, f: Frame, asWritten: bool): (r: FrameResult)
    ensures r.poses == FramePoses(sw, Upkeep(x, f), f.button)
    ensures r.threw ==> asWritten
  {
    var x1 := Upkeep(x, f);
    var poses := FramePoses(sw, x1, f.button);
    var s := Supply(x1, rbs, f);
    if s.1 then FrameResult(sw, s.0, [], poses, false)
    else
      var t := PullTrigger(sw, PressButton(s.0, f), f, asWritten);
      FrameResult(t.0, t.1, t.2, poses, t.3)
  }

  /** The update as written: it leaves the same sword, gun, acts and poses
      as the corrected update, and differs from it only in the exception
      that an empty chamber raises. */
  function UpdateAsWritten(sw: Sword, x: CannonState, rbs: seq<nat>, f: Frame): (r: FrameResult)
    ensures r.(threw := false) == Update(sw, x, rbs, f)
  {
    UpdateWith(sw, x, rbs, f, true)
  }

  /** The update with the chamber checked before a shot: it never throws. */
  function Update(sw: Sword, x: CannonState, rbs: seq<nat>, f: Frame): (r: FrameResult)
    ensures !r.threw
  {
    UpdateWith(sw, x, rbs, f, false)
  }

  /** As written, a gun emptied within a second of its last reload throws
      on every frame the trigger is held until the reload is allowed
      again: the reload is refused, the chamber stays empty, and `Fire`
      runs anyway. */
  lemma FireOnEmptyChamberThrows(sw: Sword, x: CannonState, rbs: seq<nat>, f: Frame)
    requires x.magazine == [] && x.chambered.None? && !x.reloading
    requires f.now - x.lastReload <= 1.0 && f.trigger && f.now - x.lastShot > ShotGap
    ensures UpdateAsWritten(sw, x, rbs, f).threw
    ensures !Update(sw, x, rbs, f).threw && Update(sw, x, rbs, f).acts == []
  {
  }

  /** The supply step keeps the gun's bookkeeping. */
  lemma SupplyKeepsSound(x: CannonState, rbs: seq<nat>, f: Frame)
    requires RigGuides(rbs) && Sound(x)
    ensures Sound(Supply(x, rbs, f).0)
  {
    var dry := |x.magazine| == 0 && x.chambered.None?;
    var y := if dry then Reload(x, rbs, f.now) else x;
    assert Sound(y);
    var z := y.(reloading := false);
    if z.chambered.None? && !(y.reloading && !Gathered(y.magazine, f.near)) {
      ChamberRoundKeepsSound(z, f.pick);
    }
  }

  /** The trigger step keeps the gun's bookkeeping, and a shot chambers a
      round other than the one it fired. */
  lemma PullTriggerKeepsSound(sw: Sword, x: CannonState, f: Frame, asWritten: bool)
    requires Sound(x)
    ensures Sound(PullTrigger(sw, x, f, asWritten).1)
    ensures |PullTrigger(sw, x, f, asWritten).2| > 0 ==> PullTrigger(sw, x, f, asWritten).1.chambered != x.chambered
  {
    if f.trigger && f.now - x.lastShot > ShotGap && x.chambered.Some? {
      ChamberRoundKeepsSound(x, f.nextPick);
    }
  }

  /** Both versions keep the gun's bookkeeping, whatever the frame. */
  lemma UpdateKeepsSound(sw: Sword, x: CannonState, rbs: seq<nat>, f: Frame, asWritten: bool)
    requires RigGuides(rbs) && Sound(x)
    ensures Sound(UpdateWith(sw, x, rbs, f, asWritten).x)
  {
    var x1 := Upkeep(x, f);
    assert Sound(x1);
    var s := Supply(x1, rbs, f);
    SupplyKeepsSound(x1, rbs, f);
    if !s.1 {
      var b := PressButton(s.0, f);
      assert Sound(b);
      PullTriggerKeepsSound(sw, b, f, asWritten);
    }
  }

  /** A frame fires exactly when the trigger is held, the shot gap has
      passed, the gun is not waiting for its rounds and a round is
      chambered once the supply step is done; it fires that round, the
      round's shard ends free, and (on a sound gun) a different round
      takes the chamber. */
  lemma UpdateFiresChambered(sw: Sword, x: CannonState, rbs: seq<nat>, f: Frame, asWritten: bool)
    requires RigGuides(rbs) && Sound(x)
    ensures var r := UpdateWith(sw, x, rbs, f, asWritten);
            var s := Supply(Upkeep(x, f), rbs, f);
            |r.acts| > 0 <==> !s.1 && f.trigger && f.now - x.lastShot > ShotGap && s.0.chambered.Some?
    ensures var r := UpdateWith(sw, x, rbs, f, asWritten);
            var s := Supply(Upkeep(x, f), rbs, f);
            |r.acts| > 0 ==> r.acts == [Shot(s.0.chambered.value)] &&
                             (s.0.chambered.value in sw.parts ==> r.sw.parts[s.0.chambered.value].state == Free) &&
                             r.x.chambered != s.0.chambered
  {
    var x1 := Upkeep(x, f);
    var s := Supply(x1, rbs, f);
    SupplyKeepsSound(x1, rbs, f);
    if !s.1 {
      var b := PressButton(s.0, f);
      assert b.chambered == s.0.chambered && b.lastShot == x.lastShot && Sound(b);
      PullTriggerKeepsSound(sw, b, f, asWritten);
    }
  }

  /** The shot cadence: a frame fires only when more than 0.4 s have
      passed since `lastShot`, and then moves `lastShot` to now (0.35 s
      earlier in burst mode); a frame that gets to the trigger with it up
      zeroes `lastShot`; nothing else moves it. */
  lemma UpdateCadence(sw: Sword, x: CannonState, rbs: seq<nat>, f: Frame, asWritten: bool)
    ensures var r := UpdateWith(sw, x, rbs, f, asWritten);
            |r.acts| > 0 ==> f.trigger && f.now - x.lastShot > ShotGap &&
                             r.x.lastShot == (if f.button then f.now - BurstCredit else f.now)
    ensures var r := UpdateWith(sw, x, rbs, f, asWritten);
            |r.acts| == 0 ==> r.x.lastShot == x.lastShot || (r.x.lastShot == 0.0 && !f.trigger)
  {
  }

  /** Two frames in a row that both fire are more than 0.4 s apart, or
      more than 0.05 s when the first was a burst shot. */
  lemma ShotsSpaced(sw: Sword, x: CannonState, rbs: seq<nat>, f1: Frame, f2: Frame, asWritten: bool)
    ensures var r1 := UpdateWith(sw, x, rbs, f1, asWritten);
            |r1.acts| > 0 && |UpdateWith(r1.sw, r1.x, rbs, f2, asWritten).acts| > 0 ==>
              f2.now - f1.now > (if f1.button then ShotGap - BurstCredit else ShotGap)
  {
    var r1 := UpdateWith(sw, x, rbs, f1, asWritten);
    UpdateCadence(sw, x, rbs, f1, asWritten);
    UpdateCadence(r1.sw, r1.x, rbs, f2, asWritten);
  }

  /** The automatic reload: a frame reloads (moves `lastReload`) exactly
      when the gun is empty with nothing chambered and more than a second
      has passed since the last reload. */
  lemma UpdateReloadsWhenDry(sw: Sword, x: CannonState, rbs: seq<nat>, f: Frame, asWritten: bool)
    ensures var r := UpdateWith(sw, x, rbs, f, asWritten);
            var dry := |x.magazine| == 0 && x.chambered.None?;
            (dry && f.now - x.lastReload > 1.0 ==> r.x.lastReload == f.now) &&
            (!(dry && f.now - x.lastReload > 1.0) ==> r.x.lastReload == x.lastReload)
  {
    var x1 := Upkeep(x, f);
    var s := Supply(x1, rbs, f);
    var dry := |x.magazine| == 0 && x.chambered.None?;
    assert s.0.lastReload == (if dry && f.now - x.lastReload > 1.0 then f.now else x.lastReload);
    if !s.1 {
      var b := PressButton(s.0, f);
      assert b.lastReload == s.0.lastReload;
      assert PullTrigger(sw, b, f, asWritten).1.lastReload == b.lastReload;
    }
  }

  /** While the gun waits for its rounds, a frame neither chambers nor
      fires, and leaves the button's and the trigger's bookkeeping as it
      was. */
  lemma ReloadingHoldsFire(sw: Sword, x: CannonState, rbs: seq<nat>, f: Frame, asWritten: bool)
    requires x.reloading && !Gathered(x.magazine, f.near)
    ensures var r := UpdateWith(sw, x, rbs, f, asWritten);
            r.acts == [] && r.sw == sw && !r.threw && r.x.reloading &&
            r.x.magazine == x.magazine && r.x.chambered == x.chambered &&
            r.x.lastShot == x.lastShot && r.x.buttonWasPressed == x.buttonWasPressed && r.x.spin == x.spin
  {
    var k :| k in x.magazine && k !in f.near;
  }

  /** On the frame the button goes down the burst spin is computed from
      the previous press's time, before the press is recorded: after a
      pause of half a second or more the drum turns at the full 400
      degrees a second for that frame, then drops to 20 and ramps up. */
  lemma PressFrameSpinsFromStalePress(x: CannonState, f: Frame)
    requires f.button && !x.buttonWasPressed && f.now - x.lastButtonPressed >= 0.5
    ensures Upkeep(x, f).rotation == Turn(x.rotation, f.dt, 400.0)
  {
  }

  // ---------------------------------------------------------------------
  // The sword's view

  /** `ShouldReform`: the barrel, and every shard whose body is in the
      magazine except the grip. Fired rounds stay out until a reload puts
      them back. */
  function ReformVetoOf(magazine: seq<nat>): (v: Veto)
    ensures forall k :: Allows(v, k) <==> k == Barrel || (k in magazine && k != Grip)
  {
    Only((set k | k in magazine && k != Grip) + {Barrel})
  }

  /** The shard half of `Enter`: `ReformParts` under the magazine's veto,
      then the grip detached without a throw. */
  function ArmParts(sw: Sword, magazine: seq<nat>, now: real): (r: Sword)
    requires Grip in sw.parts
    ensures r.parts.Keys == sw.parts.Keys
    ensures r.parts[Grip] == Detach(ReformParts(sw, ReformVetoOf(magazine), now).parts[Grip], false, Vec3(0.0, 0.0, 0.0), now)
    ensures forall k :: k in sw.parts && k != Grip ==> r.parts[k] == ReformParts(sw, ReformVetoOf(magazine), now).parts[k]
    ensures r == sw.(parts := r.parts, locking := r.locking)
  {
    var sw1 := ReformParts(sw, ReformVetoOf(magazine), now);
    sw1.(parts := sw1.parts[Grip := Detach(sw1.parts[Grip], false, Vec3(0.0, 0.0, 0.0), now)])
  }

  lemma ArmPartsKeepsBookkeeping(sw: Sword, magazine: seq<nat>, now: real)
    requires Grip in sw.parts && Bookkeeping(sw)
    ensures Bookkeeping(ArmParts(sw, magazine, now))
  {
    var sw1 := ReformParts(sw, ReformVetoOf(magazine), now);
    ReformDetachKeepBookkeeping(sw, ReformVetoOf(magazine), false, k => Vec3(0.0, 0.0, 0.0), now);
    ReplaceShardKeepsBookkeeping(sw1, Grip, Detach(sw1.parts[Grip], false, Vec3(0.0, 0.0, 0.0), now));
  }

  /** `Enter`: the rig stops locking and animating and the guides are
      unparented; the magazine is built; the sword reforms what the new
      magazine allows and the grip is detached; a round is chambered; the
      two labels are created on the grip and the sword's own labels are
      hidden. The spin effect is spawned but not played. */
  function Enter(sw: Sword, rbs: seq<nat>, side: Side, now: real, pick: nat): (r: (Sword, CannonState))
    requires Grip in sw.parts
    ensures r.0.rig == sw.rig.(shouldLock := false, animatorEnabled := false, guidesParented := false)
    ensures r.0.labels == HideAllAnnotations(sw.labels) && r.0.parts.Keys == sw.parts.Keys
    ensures r.0.parts[Grip].state == Free && r.0.parts[Grip].joint.None?
    ensures sw.isReady ==> forall k :: k in sw.parts && k != Grip ==>
              r.0.parts[k] == if k == Barrel || k in rbs then Reform(sw.parts[k], false, now) else sw.parts[k]
    ensures !sw.isReady ==> forall k :: k in sw.parts && k != Grip ==> r.0.parts[k] == sw.parts[k]
    ensures r.1.spin == Some(Spawned) && !r.1.reloading && !r.1.buttonWasPressed && r.1.rotation == 0.0
    ensures r.1.fire == Init(sw.tutorial, Grip, Grip, FireOffset(side)) && r.1.burst == Init(sw.tutorial, Grip, Grip, BurstOffset(side))
    ensures r.1.magazine + (if r.1.chambered.Some? then [r.1.chambered.value] else []) != [] ==>
              r.1.chambered.Some? && r.1.chambered.value in MagazineOf(rbs)
  {
    var rig := sw.rig.(shouldLock := false, animatorEnabled := false, guidesParented := false);
    var magazine := MagazineOf(rbs);
    var sw2 := ArmParts(sw.(rig := rig), magazine, now);
    var x0 := CannonState(magazine, None, 0.0, 0.0, 0.0, false, Some(Spawned), 0.0, false,
                          Init(sw.tutorial, Grip, Grip, FireOffset(side)), Init(sw.tutorial, Grip, Grip, BurstOffset(side)));
    (sw2.(labels := HideAllAnnotations(sw2.labels)), ChamberRound(x0, pick))
  }

  /** Entered on a rig whose guides are named once each, the gun is
      sound, and a round is chambered unless the rig has no rounds; the
      magazine holds the rest. */
  lemma EnterLoadsSound(sw: Sword, rbs: seq<nat>, side: Side, now: real, pick: nat)
    requires Grip in sw.parts && RigGuides(rbs)
    ensures var x := Enter(sw, rbs, side, now, pick).1;
            Sound(x) && (x.chambered.Some? <==> |MagazineOf(rbs)| > 0) &&
            |x.magazine| == if |MagazineOf(rbs)| > 0 then |MagazineOf(rbs)| - 1 else 0
  {
    var x0 := CannonState(MagazineOf(rbs), None, 0.0, 0.0, 0.0, false, Some(Spawned), 0.0, false,
                          Init(sw.tutorial, Grip, Grip, FireOffset(side)), Init(sw.tutorial, Grip, Grip, BurstOffset(side)));
    ChamberRoundKeepsSound(x0, pick);
  }

  /** Entry keeps the sword's shard-number bookkeeping: it touches the
      shards only through `ReformParts` and a detach, and neither the spawn
      flags nor readiness. */
  lemma EnterKeepsBookkeeping(sw: Sword, rbs: seq<nat>, side: Side, now: real, pick: nat)
    requires Grip in sw.parts && Bookkeeping(sw)
    ensures var r := Enter(sw, rbs, side, now, pick).0;
            Bookkeeping(r) && r.spawning == sw.spawning && r.isReady == sw.isReady
  {
    var sw0 := sw.(rig := sw.rig.(shouldLock := false, animatorEnabled := false, guidesParented := false));
    ArmPartsKeepsBookkeeping(sw0, MagazineOf(rbs), now);
    BookkeepingFrame(ArmParts(sw0, MagazineOf(rbs), now), Enter(sw, rbs, side, now, pick).0);
  }

  /** `Exit`: the guides go back under the animator, the animator runs,
      both labels are destroyed, the spin effect is despawned and the rig
      locks again. */
  function Exit(sw: Sword, x: CannonState): (r: (Sword, CannonState))
    ensures r.0 == sw.(rig := r.0.rig)
    ensures r.0.rig == sw.rig.(shouldLock := true, animatorEnabled := true, guidesParented := true)
    ensures !r.1.fire.alive && !r.1.burst.alive && r.1.spin.None?
    ensures r.1 == x.(fire := r.1.fire, burst := r.1.burst, spin := None)
  {
    (sw.(rig := sw.rig.(shouldLock := true, animatorEnabled := true, guidesParented := true)),
     x.(fire := Destroy(x.fire), burst := Destroy(x.burst), spin := None))
  }

  /** Entering the cannon and leaving it gives the sword back the rig it
      had when no mode had touched it. */
  lemma EnterExitRoundTrip(sw: Sword, rbs: seq<nat>, side: Side, now: real, pick: nat)
    requires Grip in sw.parts && sw.rig == HomeRig
    ensures var e := Enter(sw, rbs, side, now, pick);
            Exit(e.0, e.1).0.rig == HomeRig && Exit(e.0, e.1).0.parts == e.0.parts
  {
  }
}
