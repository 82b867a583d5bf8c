/** The tutorial labels floating next to the blade. Only the state the
    blade's logic touches is modelled: whether the label may show at all,
    whether it is visible, its text, the transforms it follows (as ids),
    its offset, and whether it has been destroyed. */
module Annotations {
  import opened Base

  datatype Annotation = Annotation(
    shouldShow: bool,        // labels show only on the tutorial blade
    visible: bool,           // mesh renderer and line renderer enabled
    text: string,
    target: nat,
    rotationTarget: nat,
    offset: Vec3,
    alive: bool)

  /** A label that may not show is never visible. */
  predicate Quiet(a: Annotation) {
    !a.shouldShow ==> !a.visible
  }

  const Placeholder := "[[BUTTON]]"

  /** `GetButtonString`: the glyph when no hand is known. */
  const ButtonString := "A/X/Touchpad"

  /** `GetButtonStringHand`: the per-side glyph. */
  function ButtonStringHand(side: Side): (r: string)
    ensures side == Left ==> r == "XTouchpad"
    ensures side == Right ==> r == "ATouchpad"
    ensures '[' !in r
  {
    (if side == Left then "X" else "A") + "Touchpad"
  }

  /** `pat` occurs in `s` starting at `i`. */
  predicate OccursAt(s: string, pat: string, i: nat) {
    i + |pat| <= |s| && s[i..i + |pat|] == pat
  }

  ghost predicate Occurs(s: string, pat: string) {
    exists i: nat :: OccursAt(s, pat, i)
  }

  /** `String.Replace`: scans left to right and replaces every
      non-overlapping occurrence of `pat`. */
  function Replace(s: string, pat: string, rep: string): (r: string)
    requires |pat| > 0
    decreases |s|
  {
    if |s| < |pat| then s
    else if s[..|pat|] == pat then rep + Replace(s[|pat|..], pat, rep)
    else [s[0]] + Replace(s[1..], pat, rep)
  }

  /** Text without the placeholder is stored verbatim. */
  lemma {:induction false} ReplaceAbsent(s: string, pat: string, rep: string)
    requires |pat| > 0 && !Occurs(s, pat)
    ensures Replace(s, pat, rep) == s
    decreases |s|
  {
    if |s| >= |pat| {
      assert !OccursAt(s, pat, 0);
      assert s[..|pat|] != pat;
      forall i: nat | OccursAt(s[1..], pat, i)
        ensures OccursAt(s, pat, i + 1)
      {
        assert s[1..][i..i + |pat|] == s[i + 1..i + 1 + |pat|];
      }
      ReplaceAbsent(s[1..], pat, rep);
      assert [s[0]] + s[1..] == s;
    }
  }

  /** A prefix free of the pattern's first character is copied unchanged,
      and the rest is replaced on its own. */
  lemma {:induction false} ReplaceSkipsPrefix(a: string, b: string, pat: string, rep: string)
    requires |pat| > 0 && pat[0] !in a
    ensures Replace(a + b, pat, rep) == a + Replace(b, pat, rep)
    decreases |a|
  {
    if |a| > 0 {
      var s := a + b;
      assert s[0] == a[0];
      if |s| >= |pat| {
        assert s[..|pat|][0] == a[0] != pat[0];
        assert s[1..] == a[1..] + b;
        ReplaceSkipsPrefix(a[1..], b, pat, rep);
        assert [a[0]] + a[1..] == a;
      } else {
        assert |b| < |pat|;
        assert Replace(b, pat, rep) == b;
      }
    } else {
      assert a + b == b;
    }
  }

  /** A leading placeholder becomes the replacement. */
  lemma ReplaceLeading(b: string, pat: string, rep: string)
    requires |pat| > 0
    ensures Replace(pat + b, pat, rep) == rep + Replace(b, pat, rep)
  {
    assert (pat + b)[..|pat|] == pat;
    assert (pat + b)[|pat|..] == b;
  }

  /** The text `SetText` stores for `newText` and an optional hand. */
  function Render(newText: string, hand: Option<Side>): (r: string)
  {
    Replace(newText, Placeholder, if hand.None? then ButtonString else ButtonStringHand(hand.value))
  }

  /** A text holding one placeholder between two placeholder-free parts
      renders with the glyph in its place. */
  lemma RenderOnePlaceholder(before: string, after: string, hand: Option<Side>)
    requires '[' !in before && '[' !in after
    ensures Render(before + Placeholder + after, hand)
            == before + (if hand.None? then ButtonString else ButtonStringHand(hand.value)) + after
  {
    var rep := if hand.None? then ButtonString else ButtonStringHand(hand.value);
    assert before + Placeholder + after == before + (Placeholder + after);
    ReplaceSkipsPrefix(before, Placeholder + after, Placeholder, rep);
    ReplaceLeading(after, Placeholder, rep);
    assert !Occurs(after, Placeholder);
    ReplaceAbsent(after, Placeholder, rep);
  }

  /** `Init`, as written: `rotationTarget` is set from `target` and the
      parameter is dropped. */
  function InitAsWritten(tutorial: bool, target: nat, rotationTarget: nat, offset: Vec3): (a: Annotation)
    ensures a.rotationTarget == target
    ensures a.shouldShow == tutorial && a.visible == tutorial && a.text == ""
  {
    Annotation(tutorial, tutorial, "", target, target, offset, true)
  }

  /** With distinct transforms, the as-written `Init` loses the rotation
      target it was given. */
  lemma InitAsWrittenDropsRotationTarget()
    ensures InitAsWritten(true, 1, 2, Vec3(0.0, 1.0, -1.0)).rotationTarget != 2
  {
  }

  /** `Init` keeping the rotation target it was given. A fresh label is
      visible (its renderers start enabled) unless `shouldShow` is false,
      in which case it is hidden at once. */
  function Init(tutorial: bool, target: nat, rotationTarget: nat, offset: Vec3): (a: Annotation)
    ensures a.target == target && a.rotationTarget == rotationTarget && a.offset == offset
    ensures a.shouldShow == tutorial && a.visible == tutorial && a.text == "" && a.alive
    ensures Quiet(a)
  {
    Annotation(tutorial, tutorial, "", target, rotationTarget, offset, true)
  }

  /** `SetTarget`: both transforms follow the new target. */
  function SetTarget(a: Annotation, target: nat): (r: Annotation)
    ensures r.target == target && r.rotationTarget == target
    ensures r.(target := a.target, rotationTarget := a.rotationTarget) == a
  {
    a.(target := target, rotationTarget := target)
  }

  /** `SetText`: ignored on a label that may not show; otherwise the label
      is shown and the placeholder substituted. */
  function SetText(a: Annotation, newText: string, hand: Option<Side>): (r: Annotation)
    ensures !a.shouldShow ==> r == a
    ensures a.shouldShow ==> r.visible && r.text == Render(newText, hand)
    ensures r.shouldShow == a.shouldShow && r.target == a.target && r.alive == a.alive
    ensures Quiet(a) ==> Quiet(r)
  {
    if !a.shouldShow then a
    else a.(visible := true, text := Render(newText, hand))
  }

  /** `Show`: ignored on a label that may not show. */
  function Show(a: Annotation): (r: Annotation)
    ensures r.visible == (a.visible || a.shouldShow)
    ensures r.(visible := a.visible) == a
    ensures Quiet(a) ==> Quiet(r)
  {
    if !a.shouldShow then a else a.(visible := true)
  }

  /** `Hide`: always hides. */
  function Hide(a: Annotation): (r: Annotation)
    ensures !r.visible
    ensures r.(visible := a.visible) == a
    ensures Quiet(r)
  {
    a.(visible := false)
  }

  /** `Destroy`: clears the text and removes the label. */
  function Destroy(a: Annotation): (r: Annotation)
    ensures r.text == "" && !r.alive
    ensures r.(text := a.text, alive := a.alive) == a
  {
    a.(text := "", alive := false)
  }

  /** Whatever sequence of label calls is applied, a label that may not show
      is never visible: every call keeps `Quiet`. */
  datatype Call = CallSetText(newText: string, hand: Option<Side>) | CallShow | CallHide | CallSetTarget(t: nat) | CallDestroy

  function Apply(a: Annotation, c: Call): (r: Annotation)
    ensures Quiet(a) ==> Quiet(r)
    ensures r.shouldShow == a.shouldShow
  {
    match c
    case CallSetText(t, h) => SetText(a, t, h)
    case CallShow => Show(a)
    case CallHide => Hide(a)
    case CallSetTarget(t) => SetTarget(a, t)
    case CallDestroy => Destroy(a)
  }

  function ApplyAll(a: Annotation, cs: seq<Call>): (r: Annotation)
    decreases |cs|
  {
    if |cs| == 0 then a else ApplyAll(Apply(a, cs[0]), cs[1..])
  }

  /** A non-tutorial label, created by `Init`, stays invisible through any
      sequence of calls. */
  lemma {:induction false} NonTutorialNeverVisible(a: Annotation, cs: seq<Call>)
    requires Quiet(a)
    ensures Quiet(ApplyAll(a, cs))
    ensures !a.shouldShow ==> !ApplyAll(a, cs).visible
    decreases |cs|
  {
    if |cs| > 0 {
      NonTutorialNeverVisible(Apply(a, cs[0]), cs[1..]);
    }
  }
}
