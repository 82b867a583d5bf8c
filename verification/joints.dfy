/** The configurable joint that pulls a shard towards its guide, reduced to
    the values the blade's code writes: the five drives, the body it is
    connected to, and the mass scale. Unity's `JointDrive` is a struct, so
    reading a drive yields a copy; writing a field of that copy changes the
    joint only when the copy is assigned back. */
module Joints {
  import opened Base

  /** `maximumForce`: a float that the code sets to `Mathf.Infinity` or to a
      finite bound. */
  datatype Force = Finite(value: real) | Infinite

  datatype Drive = Drive(spring: real, damper: real, maxForce: Force)

  /** The connected body: the shard's guide rigid body (with a zero
      connected anchor) or the sword's own body (with the anchor at the
      guide's position in the sword's frame). */
  datatype Connection = ToGuide | ToSword

  datatype Joint = Joint(
    xDrive: Drive, yDrive: Drive, zDrive: Drive,
    angularXDrive: Drive, angularYZDrive: Drive,
    connected: Connection,
    massScale: real)
  {
    /** All three linear drives carry `d`. */
    predicate PositionDrives(d: Drive) {
      xDrive == d && yDrive == d && zDrive == d
    }
  }

  /** Drive given to the linear axes of a freshly created joint. */
  const CreatePosDrive := Drive(2000.0, 120.0, Infinite)
  /** Drive given to both angular axes of a freshly created joint. */
  const CreateRotDrive := Drive(1000.0, 10.0, Infinite)
  /** Drive `LockJoint` writes to the linear axes. */
  const LockDrive := Drive(1000000.0, 4000.0, Infinite)
  /** Mass scale used whenever the joint is attached to the sword body. */
  const SwordMassScale := 20.0
  /** Unity's default mass scale of a new joint. */
  const DefaultMassScale := 1.0

  /** The joint `CreateJoint(toSword)` adds: attached to the sword body only
      when the caller asked for it and the sword allows locking. */
  function NewJoint(toSword: bool, shouldLock: bool): (j: Joint)
    ensures j.connected == ToSword <==> toSword && shouldLock
    ensures j.massScale == (if j.connected == ToSword then SwordMassScale else DefaultMassScale)
    ensures j.PositionDrives(CreatePosDrive)
    ensures j.angularXDrive == CreateRotDrive && j.angularYZDrive == CreateRotDrive
  {
    var conn := if toSword && shouldLock then ToSword else ToGuide;
    Joint(CreatePosDrive, CreatePosDrive, CreatePosDrive, CreateRotDrive, CreateRotDrive,
          conn, if conn == ToSword then SwordMassScale else DefaultMassScale)
  }

  /** Copies `d` into the three linear drives and leaves everything else. */
  function WithPositionDrive(j: Joint, d: Drive): (r: Joint)
    ensures r.PositionDrives(d)
    ensures r.angularXDrive == j.angularXDrive && r.angularYZDrive == j.angularYZDrive
    ensures r.connected == j.connected && r.massScale == j.massScale
  {
    j.(xDrive := d, yDrive := d, zDrive := d)
  }

  /** `LockJoint` on an existing joint: the stiff locking drive. */
  function LockedJoint(j: Joint): (r: Joint)
    ensures r.PositionDrives(LockDrive)
    ensures r.connected == j.connected && r.massScale == j.massScale
  {
    WithPositionDrive(j, LockDrive)
  }

  /** The damper `SetDriveFactor(f)` uses: lerp(20, 100, f). */
  function DriveDamper(factor: real): (r: real)
    ensures 20.0 <= r <= 100.0
    ensures factor <= 0.0 ==> r == 20.0
    ensures factor >= 1.0 ==> r == 100.0
  {
    Lerp(20.0, 100.0, factor)
  }

  /** `SetDriveFactor` on an existing joint: spring stays 2000, the damper
      scales with the factor, the force is unbounded. */
  function FactorJoint(j: Joint, factor: real): (r: Joint)
    ensures r.PositionDrives(Drive(2000.0, DriveDamper(factor), Infinite))
    ensures r.connected == j.connected && r.massScale == j.massScale
    ensures r.angularXDrive == j.angularXDrive && r.angularYZDrive == j.angularYZDrive
  {
    WithPositionDrive(j, Drive(2000.0, DriveDamper(factor), Infinite))
  }

  /** A larger factor never gives a weaker damper. */
  lemma DriveDamperMonotone(f: real, g: real)
    requires f <= g
    ensures DriveDamper(f) <= DriveDamper(g)
  {
    LerpMonotone(20.0, 100.0, f, g);
  }

  /** `RefreshJoint`: re-targets the joint by `shouldLock` alone. Attaching
      to the sword sets the mass scale to 20; attaching to the guide leaves
      the mass scale as it was. Drives are untouched. */
  function Refreshed(j: Joint, shouldLock: bool): (r: Joint)
    ensures r.connected == (if shouldLock then ToSword else ToGuide)
    ensures shouldLock ==> r.massScale == SwordMassScale
    ensures !shouldLock ==> r.massScale == j.massScale
    ensures r.xDrive == j.xDrive && r.yDrive == j.yDrive && r.zDrive == j.zDrive
    ensures r.angularXDrive == j.angularXDrive && r.angularYZDrive == j.angularYZDrive
  {
    if shouldLock then j.(connected := ToSword, massScale := SwordMassScale)
    else j.(connected := ToGuide)
  }

  /** Refreshing is idempotent: a second refresh with the same flag changes
      nothing. */
  lemma RefreshedIdempotent(j: Joint, shouldLock: bool)
    ensures Refreshed(Refreshed(j, shouldLock), shouldLock) == Refreshed(j, shouldLock)
  {
  }

  // ---------------------------------------------------------------------
  // Drive helpers from the utility library

  /** The two drive settings the utility library's setters change. */
  datatype DriveField = Spring | Damper

  function WithField(d: Drive, field: DriveField, value: real): Drive {
    match field
    case Spring => d.(spring := value)
    case Damper => d.(damper := value)
  }

  /** `SetSpring` and `SetDamping` as written: the x drive is copied out
      of the joint, the copy's field is changed, and the copy is dropped.
      The joint's x drive shows the new value only when it already held
      it. */
  function SetDriveAsWritten(j: Joint, field: DriveField, value: real): (r: Joint)
    ensures r.xDrive == WithField(j.xDrive, field, value) <==> WithField(j.xDrive, field, value) == j.xDrive
    ensures r == j
  {
    var drive := WithField(j.xDrive, field, value);
    j
  }

  /** `SetSpring` with the changed drive written back to the x axis. */
  function SetSpring(j: Joint, spring: real): (r: Joint)
    ensures r.xDrive.spring == spring
    ensures r.xDrive.damper == j.xDrive.damper && r.xDrive.maxForce == j.xDrive.maxForce
    ensures r.yDrive == j.yDrive && r.zDrive == j.zDrive
    ensures r.angularXDrive == j.angularXDrive && r.angularYZDrive == j.angularYZDrive
    ensures r.connected == j.connected && r.massScale == j.massScale
  {
    j.(xDrive := j.xDrive.(spring := spring))
  }

  /** `SetDamping` with the changed drive written back to the x axis. */
  function SetDamping(j: Joint, damper: real): (r: Joint)
    ensures r.xDrive.damper == damper
    ensures r.xDrive.spring == j.xDrive.spring && r.xDrive.maxForce == j.xDrive.maxForce
    ensures r.yDrive == j.yDrive && r.zDrive == j.zDrive
    ensures r.angularXDrive == j.angularXDrive && r.angularYZDrive == j.angularYZDrive
    ensures r.connected == j.connected && r.massScale == j.massScale
  {
    j.(xDrive := j.xDrive.(damper := damper))
  }

  /** The written-back setters commute with each other and agree with a
      direct write of the whole drive. */
  lemma SetSpringDampingCommute(j: Joint, spring: real, damper: real)
    ensures SetDamping(SetSpring(j, spring), damper) == SetSpring(SetDamping(j, damper), spring)
    ensures SetDamping(SetSpring(j, spring), damper).xDrive == Drive(spring, damper, j.xDrive.maxForce)
  {
  }

  /** A freshly created joint shows the lost write: asking for spring 5
      leaves the x spring at 2000, and asking for damper 5 leaves the
      damper at 120, where the written-back setters store 5. */
  lemma SetDriveAsWrittenLosesWrite()
    ensures SetDriveAsWritten(NewJoint(false, true), Spring, 5.0).xDrive.spring == 2000.0
    ensures SetSpring(NewJoint(false, true), 5.0).xDrive.spring == 5.0
    ensures SetDriveAsWritten(NewJoint(false, true), Damper, 5.0).xDrive.damper == 120.0
    ensures SetDamping(NewJoint(false, true), 5.0).xDrive.damper == 5.0
  {
  }

  /** `UpdateDriveStrengths`: nothing on a missing joint; otherwise linear
      drives 100s/10s capped at 1000 and angular drives 10s/1s capped at 100. */
  function UpdateDriveStrengths(j: Option<Joint>, strength: real): (r: Option<Joint>)
    ensures r.None? <==> j.None?
    ensures r.Some? ==> r.value.PositionDrives(Drive(100.0 * strength, 10.0 * strength, Finite(1000.0)))
    ensures r.Some? ==> r.value.angularXDrive == Drive(10.0 * strength, strength, Finite(100.0))
                        && r.value.angularYZDrive == r.value.angularXDrive
    ensures r.Some? ==> r.value.connected == j.value.connected && r.value.massScale == j.value.massScale
  {
    match j
    case None => None
    case Some(jt) =>
      var pos := Drive(100.0 * strength, 10.0 * strength, Finite(1000.0));
      var rot := Drive(10.0 * strength, 1.0 * strength, Finite(100.0));
      Some(jt.(xDrive := pos, yDrive := pos, zDrive := pos, angularXDrive := rot, angularYZDrive := rot))
  }

  /** Every drive is overwritten, so only the last strength matters. */
  lemma UpdateDriveStrengthsLastWins(j: Option<Joint>, a: real, b: real)
    ensures UpdateDriveStrengths(UpdateDriveStrengths(j, a), b) == UpdateDriveStrengths(j, b)
  {
  }
}
