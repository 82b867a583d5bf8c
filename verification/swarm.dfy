/** `SwarmMode`: shard 13 held in the hand; the other fourteen shards
    swarm in a cloud ahead of it. The cloud is pushed further out by the
    trigger's analogue axis and drawn in by the button; no shard locks,
    and every joint is softened so that the swarm lags behind. */
module Swarm {
  import opened Base
  import opened Joints
  import opened ModeInput
  import opened Blade
  import opened GrabbedModes

  const SwarmTarget: nat := 13

  datatype SwarmState = SwarmState(
    core: ModeCore,
    offsets: map<nat, Vec3>,
    axes: map<nat, Vec3>,
    rotation: real)

  /** `Enter`: the grabbed-shard entry on shard 13, then a random offset
      and a random axis for every shard number. `random` stands for
      `RandomVector(-1, 1)`: the model does not fix its values. */
  function Enter(sw: Sword, side: Side, now: real, random: nat -> Vec3): (r: (Sword, SwarmState))
    requires SwarmTarget in sw.parts
    ensures r.0 == EnterCore(sw, Grabbed, SwarmTarget, side, now).0
    ensures r.1.core == EnterCore(sw, Grabbed, SwarmTarget, side, now).1
    ensures forall k :: k in r.1.offsets <==> IsIndex(k)
    ensures forall k :: k in r.1.axes <==> IsIndex(k)
    ensures r.1.rotation == 0.0
  {
    var e := EnterCore(sw, Grabbed, SwarmTarget, side, now);
    (e.0, SwarmState(e.1,
                     map k: nat | 1 <= k <= 15 :: random(2 * k),
                     map k: nat | 1 <= k <= 15 :: random(2 * k + 1),
                     0.0))
  }

  /** The swarm's soft drive. */
  const SwarmDrive := Drive(100.0, 10.0, Finite(1000.0))

  /** `JointModifier`: the x drive is copied, softened to spring 100,
      damper 10 and force at most 1000, and the copy is written back to all
      three linear drives; the angular drives and the connection are left
      alone. */
  function JointModifier(j: Joint): (r: Joint)
    ensures r.PositionDrives(SwarmDrive)
    ensures r.angularXDrive == j.angularXDrive && r.angularYZDrive == j.angularYZDrive
    ensures r.connected == j.connected && r.massScale == j.massScale
  {
    var d := j.xDrive.(spring := 100.0, damper := 10.0, maxForce := Finite(1000.0));
    j.(xDrive := d, yDrive := d, zDrive := d)
  }

  /** Softening is the same as writing the swarm's drive to the linear
      axes, so doing it twice changes nothing more. */
  lemma JointModifierIsPositionDrive(j: Joint)
    ensures JointModifier(j) == WithPositionDrive(j, SwarmDrive)
    ensures JointModifier(JointModifier(j)) == JointModifier(j)
  {
  }

  /** `ShouldLock`: no shard. */
  function LockVeto(): (v: Veto)
    ensures forall k :: !Allows(v, k)
  {
    Only({})
  }

  /** The veto pair of the mode: every shard but 13 reforms, none locks. */
  lemma Vetoes(x: SwarmState)
    requires x.core.target == SwarmTarget
    ensures forall k :: Allows(ReformVeto(x.core), k) <==> k != 13
    ensures forall k :: !Allows(LockVeto(), k)
  {
  }

  /** A shard's place in the swarm: a random point (fixed per guide) in a
      cube of half-size `size`, turned about a random axis (fixed per
      shard) by `spin` degrees, around a centre `ahead` units in front of
      the hand. */
  datatype SwarmPose = SwarmPose(ahead: real, size: real, spin: real)

  /** `GetPos`: the cube halves while the button is held, and the centre
      moves out with the trigger's analogue axis; the turn is the clock
      times 120, the same for every shard. */
  function GetPos(button: bool, useAxis: real, now: real): (r: SwarmPose)
    ensures r.size == 0.5 <==> button
    ensures r.size == 1.0 <==> !button
    ensures 0.0 <= useAxis <= 1.0 ==> 1.5 <= r.ahead <= 3.0
    ensures useAxis == 0.0 ==> r.ahead == 1.5
    ensures r.spin == now * 120.0
  {
    SwarmPose(1.5 * (1.0 + useAxis), if button then 0.5 else 1.0, now * 120.0)
  }

  /** The spin rate: 200 degrees a second, plus a third of that for every
      unit of the hand's speed. */
  function SpinRate(handSpeed: real): (r: real)
    requires handSpeed >= 0.0
    ensures r >= 200.0
    ensures handSpeed == 0.0 ==> r == 200.0
  {
    200.0 * (1.0 + handSpeed / 3.0)
  }

  /** A faster hand spins the swarm faster. */
  lemma SpinRateGrows(s1: real, s2: real)
    requires 0.0 <= s1 <= s2
    ensures SpinRate(s1) <= SpinRate(s2)
  {
  }

  /** What a frame's update sees besides the holder: the time, the frame's
      duration, the trigger's analogue axis and the hand's speed. */
  datatype Frame = Frame(now: real, dt: real, useAxis: real, handSpeed: real)

  datatype FrameResult = FrameResult(x: SwarmState, poses: seq<(nat, SwarmPose)>)

  /** `Update`: the grabbed-shard base (default callbacks, both labels
      hidden, the pose loop), then the spin. */
  function Update(x: SwarmState, h: Holder, f: Frame): (r: FrameResult)
    requires f.handSpeed >= 0.0
    ensures r.x == x.(core := r.x.core, rotation := r.x.rotation)
    ensures r.x.rotation == Turn(x.rotation, f.dt, SpinRate(f.handSpeed))
    ensures r.x.core == RefreshLabels(PlainPoll(x.core, h, f.now), h.side, false, "", false, "")
    ensures !r.x.core.use.ann.visible && !r.x.core.altUse.ann.visible
    ensures |r.poses| == |x.core.jointParts|
    ensures forall j :: 0 <= j < |r.poses| ==>
              r.poses[j].0 == x.core.jointParts[j] && r.poses[j].1 == GetPos(h.button, f.useAxis, f.now)
  {
    var core := RefreshLabels(PlainPoll(x.core, h, f.now), h.side, false, "", false, "");
    var poses := PoseLoop(core.jointParts, i => GetPos(h.button, f.useAxis, f.now));
    FrameResult(x.(core := core, rotation := Turn(x.rotation, f.dt, SpinRate(f.handSpeed))), poses)
  }

  /** Time only winds the swarm forward: over a frame of nonnegative
      duration the rotation `Update` computes never decreases, and
      advances by at least 200 degrees a second. */
  lemma WindsForward(rotation: real, dt: real, handSpeed: real)
    requires handSpeed >= 0.0 && dt >= 0.0
    ensures Turn(rotation, dt, SpinRate(handSpeed)) - rotation >= dt * 200.0
  {
    MulMono(dt, 200.0, SpinRate(handSpeed));
  }
}
