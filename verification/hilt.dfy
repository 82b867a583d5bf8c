/** The three modes the sword takes while no shard is in hand: `SwordMode`
    (the plain blade and its tutorial labels), `ExpandedMode` (the blade
    fanned out while the alternate button is held) and `ShieldMode` (the
    same with a trigger pulled). None keeps state of its own: each acts on
    the sword's rig flags and labels, and each entry reforms the shards
    with the default answer of `BladeMode.ShouldReform`, which allows every
    shard. `Test` is constant false for all three and nothing consults it. */
module HiltModes {
  import opened Base
  import opened Annotations
  import opened BladePart
  import opened Blade

  // ---------------------------------------------------------------------
  // SwordMode

  /** The hand that does not hold the sword, as `SwordMode.Update` looks at
      it when exactly one hand holds the sword: its transform, its side,
      and the spell it casts when that spell is a charge spell. */
  datatype OtherHand = OtherHand(id: nat, side: Side, charge: Option<SpellKind>)

  const ExpandText := "Hold A/X to expand\nthe blade"
  const GunText := "Grab this shard to\nmake a handgun!"
  const SelectText := "Select Fire, Lightning, or Gravity with\nthis hand to form a weapon"

  /** The tap hint: what a tap of the button does next. */
  function TapText(locking: bool): string {
    if locking then "Tap A/X to Shatter\n the blade" else "Tap A/X to Reform\n the blade"
  }

  const ArcCannonSelected := "Arc Cannon (Lightning spell) selected!\nLook back at the blade"
  const ArcCannonGrab := "Grab this shard for Arc Cannon mode"
  const FlamethrowerSelected := "Flamethrower (Fire spell) selected!\nLook back at the blade"
  const FlamethrowerGrab := "Grab this shard for Flamethrower mode"
  const GravityGunSelected := "Gravity Gun (Gravity spell) selected!\nLook back at the blade"
  const GravityGunGrab := "Grab this shard for Gravity Gun mode"

  /** The pair of texts (other hand, imbue handle) announcing the weapon a
      charge spell selects; a charge spell of any other kind selects none. */
  function Selected(k: SpellKind): (r: Option<(string, string)>)
    ensures r.None? <==> k == OtherSpell
    ensures k == Lightning ==> r == Some((ArcCannonSelected, ArcCannonGrab))
    ensures k == Projectile ==> r == Some((FlamethrowerSelected, FlamethrowerGrab))
    ensures k == Gravity ==> r == Some((GravityGunSelected, GravityGunGrab))
  {
    match k
    case Lightning => Some((ArcCannonSelected, ArcCannonGrab))
    case Projectile => Some((FlamethrowerSelected, FlamethrowerGrab))
    case Gravity => Some((GravityGunSelected, GravityGunGrab))
    case OtherSpell => None
  }

  /** The other-hand label's offset: one unit back, and up for a right
      hand, down for a left one. */
  function OtherHandOffset(side: Side): (r: Vec3)
    ensures r.x == -1.0 && r.z == 0.0
    ensures side == Right ==> r.y == 1.0
    ensures side == Left ==> r.y == -1.0
  {
    Vec3(-1.0, if side == Right then 1.0 else -1.0, 0.0)
  }

  /** The other-hand label pointed at the other hand: its target (and
      rotation target) is that hand, and its offset follows the side. */
  function PointAt(a: Annotation, hand: OtherHand): (r: Annotation)
    ensures r.target == hand.id && r.rotationTarget == hand.id && r.offset == OtherHandOffset(hand.side)
    ensures r.(target := a.target, rotationTarget := a.rotationTarget, offset := a.offset) == a
  {
    SetTarget(a, hand.id).(offset := OtherHandOffset(hand.side))
  }

  /** The selection part of `SwordMode.Update`, run while locking with one
      hand on the sword: the other hand's charge spell picks the texts;
      with no charge spell the imbue-handle label hides and the other-hand
      label invites a choice. */
  function Invite(l: Labels, hand: OtherHand): (r: Labels)
    ensures r.handleA == l.handleA && r.handleB == l.handleB && r.imbueShard == l.imbueShard && r.gunShard == l.gunShard
    ensures hand.charge.None? ==>
              !r.imbueHandle.visible && r.otherHand == SetText(PointAt(l.otherHand, hand), SelectText, None)
    ensures hand.charge.Some? && Selected(hand.charge.value).Some? ==>
              var t := Selected(hand.charge.value).value;
              r.otherHand == SetText(PointAt(l.otherHand, hand), t.0, None) &&
              r.imbueHandle == SetText(l.imbueHandle, t.1, None)
    ensures hand.charge == Some(OtherSpell) ==> r.otherHand == PointAt(l.otherHand, hand) && r.imbueHandle == l.imbueHandle
  {
    var other := PointAt(l.otherHand, hand);
    if hand.charge.None? then
      l.(imbueHandle := Hide(l.imbueHandle), otherHand := SetText(other, SelectText, None))
    else
      match Selected(hand.charge.value)
      case Some(t) => l.(otherHand := SetText(other, t.0, None), imbueHandle := SetText(l.imbueHandle, t.1, None))
      case None => l.(otherHand := other)
  }

  /** `SwordMode.Update`: while locking, label A offers the expansion, the
      gun label its hint, and with exactly one hand on the sword the
      other-hand labels follow that hand's spell (with two hands the
      other-hand label hides); while not locking label A hides. Label B
      always names what a tap does next, and the imbue-shard label is
      never touched. */
  function SwordUpdate(l: Labels, locking: bool, handlers: nat, hand: OtherHand): (r: Labels)
    ensures r.handleB == SetText(l.handleB, TapText(locking), None)
    ensures r.imbueShard == l.imbueShard
    ensures !locking ==> r == l.(handleA := Hide(l.handleA), handleB := r.handleB)
    ensures locking ==> r.handleA == SetText(l.handleA, ExpandText, None) && r.gunShard == SetText(l.gunShard, GunText, None)
    ensures locking && handlers == 1 ==> r.otherHand.target == hand.id && r.otherHand.offset == OtherHandOffset(hand.side)
    ensures locking && handlers != 1 ==> !r.otherHand.visible && r.imbueHandle == l.imbueHandle
  {
    var l1 :=
      if locking then
        var l2 := l.(handleA := SetText(l.handleA, ExpandText, None), gunShard := SetText(l.gunShard, GunText, None));
        if handlers == 1 then Invite(l2, hand) else l2.(otherHand := Hide(l2.otherHand))
      else l.(handleA := Hide(l.handleA));
    l1.(handleB := SetText(l1.handleB, TapText(locking), None))
  }

  /** The same text set twice is the text set once. */
  lemma SetTextTwice(a: Annotation, t: string, hand: Option<Side>)
    ensures SetText(SetText(a, t, hand), t, hand) == SetText(a, t, hand)
  {
  }

  /** The sword's labels settle: a second frame with the same inputs
      leaves them where the first put them, whatever they held before. */
  lemma SwordUpdateSettles(l: Labels, locking: bool, handlers: nat, hand: OtherHand)
    ensures SwordUpdate(SwordUpdate(l, locking, handlers, hand), locking, handlers, hand) == SwordUpdate(l, locking, handlers, hand)
  {
    var r := SwordUpdate(l, locking, handlers, hand);
    SetTextTwice(l.handleB, TapText(locking), None);
    if locking {
      SetTextTwice(l.handleA, ExpandText, None);
      SetTextTwice(l.gunShard, GunText, None);
      if handlers == 1 {
        var l2 := l.(handleA := SetText(l.handleA, ExpandText, None), gunShard := SetText(l.gunShard, GunText, None));
        var other := PointAt(l2.otherHand, hand);
        assert PointAt(SetText(other, SelectText, None), hand) == SetText(other, SelectText, None);
        if hand.charge.Some? && Selected(hand.charge.value).Some? {
          var t := Selected(hand.charge.value).value;
          SetTextTwice(other, t.0, None);
          SetTextTwice(l2.imbueHandle, t.1, None);
          assert PointAt(SetText(other, t.0, None), hand) == SetText(other, t.0, None);
        }
      }
    }
  }

  /** A sword whose labels cannot show (no tutorial) shows none of them
      after a frame of `SwordMode`. */
  lemma SwordUpdateKeepsQuiet(l: Labels, locking: bool, handlers: nat, hand: OtherHand)
    requires Quiet(l.handleA) && Quiet(l.handleB) && Quiet(l.gunShard) && Quiet(l.imbueHandle) && Quiet(l.otherHand)
    requires !l.handleA.shouldShow && !l.handleB.shouldShow && !l.gunShard.shouldShow
    requires !l.imbueHandle.shouldShow && !l.otherHand.shouldShow
    ensures var r := SwordUpdate(l, locking, handlers, hand);
            !r.handleA.visible && !r.handleB.visible && !r.gunShard.visible && !r.imbueHandle.visible && !r.otherHand.visible
  {
  }

  /** `SwordMode.Enter`: `ReformParts`, every shard allowed. */
  function SwordEnter(sw: Sword, now: real): (r: Sword)
    ensures sw.isReady ==> r.locking && forall k :: k in r.parts ==> r.parts[k].state == Reforming
    ensures !sw.isReady ==> r == sw
    ensures r.parts.Keys == sw.parts.Keys
    ensures r == sw.(parts := r.parts, locking := r.locking)
  {
    ReformParts(sw, AllowAll, now)
  }

  // ---------------------------------------------------------------------
  // ExpandedMode

  const RetractText := "Release [[BUTTON]] to retract the blade"
  const ShieldHint := "Hold Trigger to form a shield"

  /** `ExpandedMode.Enter`: the animator's `IsExpanded` goes up, then the
      shards reform. */
  function ExpandedEnter(sw: Sword, now: real): (r: Sword)
    ensures r.rig == sw.rig.(isExpanded := true)
    ensures r.parts.Keys == sw.parts.Keys
    ensures r.parts == ReformParts(sw, AllowAll, now).parts && r.locking == ReformParts(sw, AllowAll, now).locking
    ensures r == sw.(rig := r.rig, parts := r.parts, locking := r.locking)
  {
    ReformParts(sw.(rig := sw.rig.(isExpanded := true)), AllowAll, now)
  }

  /** `ExpandedMode.Exit`: `IsExpanded` goes down, nothing else changes. */
  function ExpandedExit(sw: Sword): (r: Sword)
    ensures !r.rig.isExpanded
    ensures r == sw.(rig := sw.rig.(isExpanded := false))
  {
    sw.(rig := sw.rig.(isExpanded := false))
  }

  /** Entering and leaving the expanded blade gives back the rig it
      started from when that rig was not expanded. */
  lemma ExpandedRoundTrip(sw: Sword, now: real)
    requires !sw.rig.isExpanded
    ensures ExpandedExit(ExpandedEnter(sw, now)).rig == sw.rig
    ensures ExpandedEnter(sw, now).rig.isExpanded
  {
  }

  /** `ExpandedMode.Update`: label A tells how to retract (with the button
      glyph substituted), label B offers the shield, and the imbue-handle,
      other-hand and gun labels hide. The imbue-shard label is not
      touched. */
  function ExpandedUpdate(l: Labels): (r: Labels)
    ensures r.handleA == SetText(l.handleA, RetractText, None)
    ensures r.handleB == SetText(l.handleB, ShieldHint, None)
    ensures !r.imbueHandle.visible && !r.otherHand.visible && !r.gunShard.visible
    ensures r.imbueShard == l.imbueShard
    ensures r.imbueHandle.text == l.imbueHandle.text && r.otherHand.text == l.otherHand.text && r.gunShard.text == l.gunShard.text
  {
    l.(handleA := SetText(l.handleA, RetractText, None), handleB := SetText(l.handleB, ShieldHint, None),
       imbueHandle := Hide(l.imbueHandle), otherHand := Hide(l.otherHand), gunShard := Hide(l.gunShard))
  }

  /** The retract hint as shown: the placeholder becomes the button glyph
      for either hand. */
  lemma RetractTextRenders()
    ensures Render(RetractText, None) == "Release " + ButtonString + " to retract the blade"
  {
    assert RetractText == "Release " + Placeholder + " to retract the blade";
    RenderOnePlaceholder("Release ", " to retract the blade", None);
  }

  /** The expanded labels settle after one frame. */
  lemma ExpandedUpdateSettles(l: Labels)
    ensures ExpandedUpdate(ExpandedUpdate(l)) == ExpandedUpdate(l)
  {
    SetTextTwice(l.handleA, RetractText, None);
    SetTextTwice(l.handleB, ShieldHint, None);
  }

  // ---------------------------------------------------------------------
  // ShieldMode

  /** `IsFacing`: two directions face the same way when the angle between
      them (in degrees) is below 50. */
  predicate IsFacing(angle: real) {
    angle < 50.0
  }

  /** The five labels `ShieldMode.Enter` hides: both handle labels, the
      imbue-handle, other-hand and gun labels. The imbue-shard label keeps
      its state. */
  function ShieldHide(l: Labels): (r: Labels)
    ensures !r.handleA.visible && !r.handleB.visible && !r.imbueHandle.visible && !r.otherHand.visible && !r.gunShard.visible
    ensures r.imbueShard == l.imbueShard
    ensures r.handleA.text == l.handleA.text && r.handleB.text == l.handleB.text && r.otherHand.text == l.otherHand.text
  {
    l.(handleA := Hide(l.handleA), handleB := Hide(l.handleB), imbueHandle := Hide(l.imbueHandle),
       otherHand := Hide(l.otherHand), gunShard := Hide(l.gunShard))
  }

  /** `ShieldMode.Enter`: the blade leaves the expanded pose, takes the
      shield on the side the button hand's palm points to (`IsLeft` when
      the palm faces within 50 degrees of the blade's forward), reforms,
      and hides five labels. `palmAngle` is the angle between the palm
      and the blade's forward. */
  function ShieldEnter(sw: Sword, palmAngle: real, now: real): (r: Sword)
    ensures r.rig == sw.rig.(isExpanded := false, isShield := true, isLeft := IsFacing(palmAngle))
    ensures r.rig.isLeft <==> palmAngle < 50.0
    ensures r.parts.Keys == sw.parts.Keys
    ensures r.parts == ReformParts(sw, AllowAll, now).parts && r.locking == ReformParts(sw, AllowAll, now).locking
    ensures r.labels == ShieldHide(sw.labels)
    ensures r == sw.(rig := r.rig, parts := r.parts, locking := r.locking, labels := r.labels)
  {
    var rig := sw.rig.(isExpanded := false, isLeft := IsFacing(palmAngle), isShield := true);
    var sw1 := ReformParts(sw.(rig := rig), AllowAll, now);
    sw1.(labels := ShieldHide(sw1.labels))
  }

  /** `ShieldMode.Exit`: only `IsShield` goes down; the side stays. */
  function ShieldExit(sw: Sword): (r: Sword)
    ensures !r.rig.isShield
    ensures r == sw.(rig := sw.rig.(isShield := false))
  {
    sw.(rig := sw.rig.(isShield := false))
  }

  /** Shield in and out: the shield flag comes back down, the blade is no
      longer expanded, and the side chosen on entry stays behind. */
  lemma ShieldRoundTrip(sw: Sword, palmAngle: real, now: real)
    requires !sw.rig.isShield
    ensures ShieldExit(ShieldEnter(sw, palmAngle, now)).rig == sw.rig.(isExpanded := false, isLeft := IsFacing(palmAngle))
  {
  }
}
