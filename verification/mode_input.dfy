/** What the two grabbed-shard mode bases share: the per-frame edge
    detection of the trigger and the alt button, the trigger cooldown, the
    timestamps the default callbacks record, and the two ways the bases
    keep their tutorial labels up to date. */
module ModeInput {
  import opened Base
  import opened Annotations

  datatype Control = Trigger | Button

  /** The callbacks `CheckInputs` calls, in the order it calls them. */
  datatype InputEvent = Pressed(c: Control) | Held(c: Control) | Released(c: Control) | NotHeld(c: Control)

  /** The input fields of a mode object: the two edge flags and the four
      timestamps the default callbacks record. A fresh mode starts with
      every field zero or false. */
  datatype Inputs = Inputs(
    wasTrigger: bool,
    wasButton: bool,
    lastButtonPress: real,
    lastTriggerPress: real,
    lastButtonReleased: real,
    lastTriggerReleased: real)

  const FreshInputs := Inputs(false, false, 0.0, 0.0, 0.0, 0.0)

  /** `IsTriggerPressed`: the raw trigger, suppressed until `cooldown` has
      passed since the last trigger release. */
  function TriggerReads(raw: bool, now: real, lastTriggerReleased: real, cooldown: real): (r: bool)
    ensures r <==> raw && now > lastTriggerReleased + cooldown
  {
    raw && now - lastTriggerReleased > cooldown
  }

  /** The callbacks for one control in one frame. */
  function ControlEvents(c: Control, was: bool, pressed: bool): (r: seq<InputEvent>)
    ensures Pressed(c) in r <==> pressed && !was
    ensures Released(c) in r <==> !pressed && was
    ensures Held(c) in r <==> pressed
    ensures NotHeld(c) in r <==> !pressed
    ensures multiset(r)[Held(c)] + multiset(r)[NotHeld(c)] == 1
    ensures multiset(r)[Pressed(c)] == (if pressed && !was then 1 else 0)
    ensures multiset(r)[Released(c)] == (if !pressed && was then 1 else 0)
    ensures forall i :: 0 <= i < |r| ==> r[i].c == c
    ensures forall e :: e in r ==> e.c == c
  {
    if pressed then (if !was then [Pressed(c), Held(c)] else [Held(c)])
    else (if was then [Released(c), NotHeld(c)] else [NotHeld(c)])
  }

  /** `CheckInputs`: trigger callbacks first, then button callbacks. The new
      edge flags are the current readings. */
  function CheckInputs(i: Inputs, trigger: bool, button: bool): (r: (Inputs, seq<InputEvent>))
    ensures r.0 == i.(wasTrigger := trigger, wasButton := button)
    ensures Pressed(Trigger) in r.1 <==> trigger && !i.wasTrigger
    ensures Released(Trigger) in r.1 <==> !trigger && i.wasTrigger
    ensures Pressed(Button) in r.1 <==> button && !i.wasButton
    ensures Released(Button) in r.1 <==> !button && i.wasButton
    ensures Held(Trigger) in r.1 <==> trigger
    ensures Held(Button) in r.1 <==> button
    ensures multiset(r.1)[Held(Trigger)] + multiset(r.1)[NotHeld(Trigger)] == 1
    ensures multiset(r.1)[Held(Button)] + multiset(r.1)[NotHeld(Button)] == 1
  {
    var t := ControlEvents(Trigger, i.wasTrigger, trigger);
    var b := ControlEvents(Button, i.wasButton, button);
    var es := t + b;
    assert Held(Trigger) !in b && NotHeld(Trigger) !in b && Held(Button) !in t && NotHeld(Button) !in t;
    assert multiset(es) == multiset(t) + multiset(b);
    (i.(wasTrigger := trigger, wasButton := button), es)
  }

  /** Every trigger callback of a frame comes before every button callback:
      the frame's callbacks are the trigger's followed by the button's. */
  lemma CheckInputsOrder(i: Inputs, trigger: bool, button: bool)
    ensures var es := CheckInputs(i, trigger, button).1;
            es == ControlEvents(Trigger, i.wasTrigger, trigger) + ControlEvents(Button, i.wasButton, button)
    ensures var es := CheckInputs(i, trigger, button).1;
            var n := |ControlEvents(Trigger, i.wasTrigger, trigger)|;
            forall k :: 0 <= k < |es| ==> (es[k].c == Trigger <==> k < n)
  {
    var t := ControlEvents(Trigger, i.wasTrigger, trigger);
    var bs := ControlEvents(Button, i.wasButton, button);
    var es := t + bs;
    forall k | 0 <= k < |es| ensures es[k].c == Trigger <==> k < |t| {
      if k < |t| {
        assert es[k] == t[k];
      } else {
        assert es[k] == bs[k - |t|];
      }
    }
  }

  /** The mode's callbacks run in the order `CheckInputs` fires them. */
  function Dispatch<S>(s: S, es: seq<InputEvent>, cb: (S, InputEvent) -> S): S
    decreases |es|
  {
    if |es| == 0 then s else Dispatch(cb(s, es[0]), es[1..], cb)
  }

  /** A property every callback of the frame keeps holds after the whole
      frame. */
  lemma {:induction false} DispatchPreserves<S>(s: S, es: seq<InputEvent>, cb: (S, InputEvent) -> S, p: S -> bool)
    requires p(s)
    requires forall x: S, e: InputEvent :: e in es && p(x) ==> p(cb(x, e))
    ensures p(Dispatch(s, es, cb))
    decreases |es|
  {
    if |es| > 0 {
      assert es[0] in es;
      assert forall e :: e in es[1..] ==> e in es;
      DispatchPreserves(cb(s, es[0]), es[1..], cb, p);
    }
  }

  /** Dispatching two runs of callbacks is dispatching the first and then
      the second. */
  lemma {:induction false} DispatchAppend<S>(s: S, a: seq<InputEvent>, b: seq<InputEvent>, cb: (S, InputEvent) -> S)
    ensures Dispatch(s, a + b, cb) == Dispatch(Dispatch(s, a, cb), b, cb)
    decreases |a|
  {
    if |a| > 0 {
      assert (a + b)[0] == a[0];
      assert (a + b)[1..] == a[1..] + b;
      DispatchAppend(cb(s, a[0]), a[1..], b, cb);
    } else {
      assert a + b == b;
    }
  }

  /** Dispatching one callback, or two, is calling them in turn. */
  lemma DispatchShort<S>(s: S, a: InputEvent, b: InputEvent, cb: (S, InputEvent) -> S)
    ensures Dispatch(s, [a], cb) == cb(s, a)
    ensures Dispatch(s, [a, b], cb) == cb(cb(s, a), b)
  {
    assert [a][1..] == [];
    assert Dispatch(s, [a], cb) == Dispatch(cb(s, a), [], cb);
    assert [a, b][1..] == [b];
    assert Dispatch(s, [a, b], cb) == Dispatch(cb(s, a), [b], cb);
    assert Dispatch(cb(s, a), [b], cb) == Dispatch(cb(cb(s, a), b), [], cb);
  }

  /** The default callbacks: presses and releases record the time. */
  function BaseCallback(i: Inputs, e: InputEvent, now: real): (r: Inputs)
    ensures e == Pressed(Trigger) ==> r == i.(lastTriggerPress := now)
    ensures e == Released(Trigger) ==> r == i.(lastTriggerReleased := now)
    ensures e == Pressed(Button) ==> r == i.(lastButtonPress := now)
    ensures e == Released(Button) ==> r == i.(lastButtonReleased := now)
    ensures e.Held? || e.NotHeld? ==> r == i
  {
    match e
    case Pressed(Trigger) => i.(lastTriggerPress := now)
    case Pressed(Button) => i.(lastButtonPress := now)
    case Released(Trigger) => i.(lastTriggerReleased := now)
    case Released(Button) => i.(lastButtonReleased := now)
    case Held(_) => i
    case NotHeld(_) => i
  }

  /** The default callback table, for a mode that overrides none of the
      callbacks. */
  function Recorder(now: real): (cb: (Inputs, InputEvent) -> Inputs)
    ensures forall i: Inputs, e: InputEvent :: cb(i, e) == BaseCallback(i, e, now)
  {
    (i: Inputs, e: InputEvent) => BaseCallback(i, e, now)
  }

  /** With the default callbacks, a frame stamps `now` on each time whose
      event fired and leaves every other field as it was. */
  lemma {:induction false} RecordStamps(i: Inputs, es: seq<InputEvent>, now: real)
    ensures Dispatch(i, es, Recorder(now)) ==
              i.(lastTriggerPress := if Pressed(Trigger) in es then now else i.lastTriggerPress,
                 lastTriggerReleased := if Released(Trigger) in es then now else i.lastTriggerReleased,
                 lastButtonPress := if Pressed(Button) in es then now else i.lastButtonPress,
                 lastButtonReleased := if Released(Button) in es then now else i.lastButtonReleased)
    decreases |es|
  {
    if |es| > 0 {
      RecordStamps(BaseCallback(i, es[0], now), es[1..], now);
      assert forall e :: e in es <==> e == es[0] || e in es[1..];
    }
  }

  /** Within the cooldown after a release, the trigger cannot fire Pressed. */
  lemma CooldownBlocksPress(i: Inputs, raw: bool, button: bool, now: real, cooldown: real)
    requires now - i.lastTriggerReleased <= cooldown
    ensures Pressed(Trigger) !in CheckInputs(i, TriggerReads(raw, now, i.lastTriggerReleased, cooldown), button).1
    ensures Held(Trigger) !in CheckInputs(i, TriggerReads(raw, now, i.lastTriggerReleased, cooldown), button).1
  {
  }

  // ---------------------------------------------------------------------
  // Edges over a run of frames

  function Count(es: seq<InputEvent>, e: InputEvent): nat {
    multiset(es)[e]
  }

  lemma CountAppend(a: seq<InputEvent>, b: seq<InputEvent>, e: InputEvent)
    ensures Count(a + b, e) == Count(a, e) + Count(b, e)
  {
    assert multiset(a + b) == multiset(a) + multiset(b);
  }

  /** The callbacks of one control over a run of readings. */
  function Run(c: Control, was: bool, readings: seq<bool>): (r: seq<InputEvent>)
    decreases |readings|
  {
    if |readings| == 0 then []
    else ControlEvents(c, was, readings[0]) + Run(c, readings[0], readings[1..])
  }

  function LastReading(was: bool, readings: seq<bool>): bool {
    if |readings| == 0 then was else readings[|readings| - 1]
  }

  /** Presses and releases alternate: over any run, the presses outnumber
      the releases by exactly the change of the edge flag. */
  lemma {:induction false} RunAlternates(c: Control, was: bool, readings: seq<bool>)
    ensures Count(Run(c, was, readings), Pressed(c)) + (if was then 1 else 0)
            == Count(Run(c, was, readings), Released(c)) + (if LastReading(was, readings) then 1 else 0)
    decreases |readings|
  {
    if |readings| > 0 {
      var head := ControlEvents(c, was, readings[0]);
      var tail := Run(c, readings[0], readings[1..]);
      RunAlternates(c, readings[0], readings[1..]);
      assert Run(c, was, readings) == head + tail;
      CountAppend(head, tail, Pressed(c));
      CountAppend(head, tail, Released(c));
      assert LastReading(readings[0], readings[1..]) == LastReading(was, readings);
    }
  }

  /** Every frame of a run produces exactly one of Held or NotHeld. */
  lemma {:induction false} RunReadsEveryFrame(c: Control, was: bool, readings: seq<bool>)
    ensures Count(Run(c, was, readings), Held(c)) + Count(Run(c, was, readings), NotHeld(c)) == |readings|
    decreases |readings|
  {
    if |readings| > 0 {
      var head := ControlEvents(c, was, readings[0]);
      var tail := Run(c, readings[0], readings[1..]);
      RunReadsEveryFrame(c, readings[0], readings[1..]);
      assert Run(c, was, readings) == head + tail;
      CountAppend(head, tail, Held(c));
      CountAppend(head, tail, NotHeld(c));
    }
  }

  // ---------------------------------------------------------------------
  // Label upkeep

  /** A label with the text last pushed to it (`lastUseText`). */
  datatype CachedLabel = CachedLabel(ann: Annotation, last: string)

  /** The cache agrees with the label: a non-empty cached text is what the
      label shows, whenever the label may show at all. */
  predicate CacheSound(c: CachedLabel) {
    c.ann.shouldShow && c.last != "" ==> c.ann.visible && c.ann.text == Render(c.last, None)
  }

  /** The grabbed-shard base: the text is pushed only when it differs from
      the cached one; hiding resets the cache. */
  function RefreshCached(c: CachedLabel, shown: bool, text: string): (r: CachedLabel)
    ensures shown ==> r.last == text
    ensures shown && c.last == text ==> r == c
    ensures shown && c.last != text ==> r.ann == SetText(c.ann, text, None)
    ensures !shown ==> r.last == "" && !r.ann.visible
    ensures r.ann.shouldShow == c.ann.shouldShow
    ensures CacheSound(c) ==> CacheSound(r)
  {
    if shown then
      if c.last != text then CachedLabel(SetText(c.ann, text, None), text) else c
    else CachedLabel(Hide(c.ann), "")
  }

  /** Repeating a frame with the same inputs pushes nothing new. */
  lemma RefreshCachedIdempotent(c: CachedLabel, shown: bool, text: string)
    ensures RefreshCached(RefreshCached(c, shown, text), shown, text) == RefreshCached(c, shown, text)
  {
  }

  /** With a sound cache, a shown non-empty text is on the label after the
      frame, whether or not it had to be pushed. */
  lemma RefreshCachedShows(c: CachedLabel, text: string)
    requires CacheSound(c) && c.ann.shouldShow && text != ""
    ensures RefreshCached(c, true, text).ann.visible
    ensures RefreshCached(c, true, text).ann.text == Render(text, None)
  {
  }

  /** The imbue base: the text is set every frame while shown. */
  function RefreshEveryFrame(a: Annotation, shown: bool, text: string): (r: Annotation)
    ensures shown && a.shouldShow ==> r.visible && r.text == Render(text, None)
    ensures !shown ==> !r.visible
    ensures Quiet(a) ==> Quiet(r)
    ensures !shown ==> r.text == a.text
    ensures r.shouldShow == a.shouldShow
  {
    if shown then SetText(a, text, None) else Hide(a)
  }

  /** Setting the same text twice is the same as setting it once. */
  lemma RefreshEveryFrameIdempotent(a: Annotation, shown: bool, text: string)
    ensures RefreshEveryFrame(RefreshEveryFrame(a, shown, text), shown, text) == RefreshEveryFrame(a, shown, text)
  {
  }
}
