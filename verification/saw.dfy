/** `CircularSawMode`: shard 12 held in the hand; the other fourteen
    shards spin as a circular saw 0.4 ahead of it, an outer blade of nine
    around an inner hub of five. The trigger spins the saw up and pulls
    the blade in. */
module Saw {
  import opened Base
  import opened Annotations
  import opened ModeInput
  import opened Blade
  import opened Poses
  import opened GrabbedModes

  const SawTarget: nat := 12

  /** The saw's state: the base's, the rotation, and the two public
      multipliers, both 1 on a new mode. */
  datatype SawState = SawState(core: ModeCore, rotation: real, speed: real, size: real)

  /** `Enter`: the grabbed-shard entry on shard 12. */
  function Enter(sw: Sword, side: Side, now: real): (r: (Sword, SawState))
    requires SawTarget in sw.parts
    ensures r.0 == EnterCore(sw, Grabbed, SawTarget, side, now).0
    ensures r.1 == SawState(EnterCore(sw, Grabbed, SawTarget, side, now).1, 0.0, 1.0, 1.0)
  {
    var e := EnterCore(sw, Grabbed, SawTarget, side, now);
    (e.0, SawState(e.1, 0.0, 1.0, 1.0))
  }

  /** `GetPos`: indices above 9 on the hub, a ring of five of radius 0.1
      turning backwards at a third of the speed; the rest on the blade, a
      ring of nine (slot = index), of radius 0.25, or 0.2 while the
      trigger reads pressed. Both scale with the size multiplier. */
  function GetPos(i: int, rotation: real, size: real, trigger: bool): (r: Placement)
    ensures i > 9 ==> r == Placement(InnerRing, i - 10, 5, 0.1 * size, RingAngle(i - 10, 5, -(rotation / 3.0)), 0.4)
    ensures i <= 9 ==> r == Placement(OuterRing, i, 9, size * (if trigger then 0.2 else 0.25), RingAngle(i, 9, rotation), 0.4)
  {
    if i > 9 then Placement(InnerRing, i - 10, 5, 0.1 * size, RingAngle(i - 10, 5, -(rotation / 3.0)), 0.4)
    else Placement(OuterRing, i, 9, size * (if trigger then 0.2 else 0.25), RingAngle(i, 9, rotation), 0.4)
  }

  /** The layout for the fourteen pose indices: two indices share a ring
      exactly when both are on the same side of 9, shards on one ring are
      a whole number of ring steps apart and never at the same angle, and
      (at a positive size) the hub lies inside the blade, which the
      trigger pulls in. */
  lemma Layout(i: int, j: int, rotation: real, size: real, trigger: bool)
    requires 1 <= i < j <= 14
    ensures (GetPos(i, rotation, size, trigger).group == GetPos(j, rotation, size, trigger).group) <==> (j <= 9 || 10 <= i)
    ensures j <= 9 ==> 0.0 < GetPos(j, rotation, size, trigger).angle - GetPos(i, rotation, size, trigger).angle < 360.0
    ensures 10 <= i ==> 0.0 < GetPos(j, rotation, size, trigger).angle - GetPos(i, rotation, size, trigger).angle < 360.0
    ensures size > 0.0 ==> GetPos(14, rotation, size, trigger).radius < GetPos(1, rotation, size, true).radius < GetPos(1, rotation, size, false).radius
  {
    if j <= 9 {
      RingAngleGap(i, j, 9, rotation);
    } else if 10 <= i {
      RingAngleGap(i - 10, j - 10, 5, -(rotation / 3.0));
    }
  }

  /** The spin rate: 700 degrees a second while the trigger reads
      pressed, 80 otherwise, times the speed multiplier. */
  function SpinRate(trigger: bool, speed: real): (r: real)
    ensures speed >= 0.0 ==> 80.0 * speed <= r <= 700.0 * speed
  {
    (if trigger then 700.0 else 80.0) * speed
  }

  /** The rotation after a frame of `dt` seconds: the ring turns at
      between 80 and 700 times the speed, the faster with the trigger down. */
  function Spin(rotation: real, dt: real, trigger: bool, speed: real): (r: real)
    ensures speed >= 0.0 && dt >= 0.0 ==> rotation + dt * (80.0 * speed) <= r <= rotation + dt * (700.0 * speed)
  {
    var rate := SpinRate(trigger, speed);
    if speed >= 0.0 && dt >= 0.0 then
      MulMono(dt, 80.0 * speed, rate);
      MulMono(dt, rate, 700.0 * speed);
      Turn(rotation, dt, rate)
    else Turn(rotation, dt, rate)
  }

  const SpinText := "Press trigger to spin"

  /** The pose loop over the guides, with the rotation the frame found:
      the `j`-th guide goes where `GetPos` sends index `j + 1`. */
  function RingPoses(x: SawState, trigger: bool): (r: seq<(nat, Placement)>)
    ensures |r| == |x.core.jointParts|
    ensures forall j :: 0 <= j < |r| ==>
              r[j].0 == x.core.jointParts[j] && r[j].1 == GetPos(j + 1, x.rotation, x.size, trigger)
  {
    PoseLoop(x.core.jointParts, i => GetPos(i, x.rotation, x.size, trigger))
  }

  datatype FrameResult = FrameResult(x: SawState, poses: seq<(nat, Placement)>)

  /** `Update`: the grabbed-shard base (default callbacks; the trigger
      label, with its constant text, shown only while the trigger does not
      read pressed; the button label hidden; the pose loop with the
      rotation as the frame found it), then the spin. */
  function Update(x: SawState, h: Holder, now: real, dt: real): (r: FrameResult)
    ensures r.x == x.(core := r.x.core, rotation := r.x.rotation)
    ensures var down := PlainPoll(x.core, h, now).inputs.wasTrigger;
            && r.x.core == RefreshLabels(PlainPoll(x.core, h, now), h.side, !down, SpinText, false, "")
            && r.x.rotation == Spin(x.rotation, dt, down, x.speed)
            && r.poses == RingPoses(x, down)
  {
    var core := PlainPoll(x.core, h, now);
    // After the callbacks the trigger reads as the edge flag just stored
    // (a release stamps `now`, which cannot be before `now`).
    var down := core.inputs.wasTrigger;
    var core' := RefreshLabels(core, h.side, !down, SpinText, false, "");
    FrameResult(x.(core := core', rotation := Spin(x.rotation, dt, down, x.speed)), RingPoses(x, down))
  }

  /** The trigger label is visible only while the trigger is up, and on a
      tutorial blade whose label cache is in step it is visible with its
      text whenever the trigger is up. */
  lemma UpdateLabel(x: SawState, h: Holder, now: real, dt: real)
    requires x.core.flavour == Grabbed
    ensures var r := Update(x, h, now, dt);
            r.x.core.use.ann.visible ==> !r.x.core.inputs.wasTrigger
    ensures var r := Update(x, h, now, dt);
            !r.x.core.inputs.wasTrigger && x.core.use.ann.shouldShow && CacheSound(x.core.use) ==>
              r.x.core.use.ann.visible && r.x.core.use.ann.text == Render(SpinText, None)
    ensures !Update(x, h, now, dt).x.core.altUse.ann.visible
  {
  }
}
