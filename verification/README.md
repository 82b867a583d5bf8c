# Shatterblade, modelled in Dafny

Shatterblade is a sword mod for the VR game Blade & Sorcery (Unity): a hilt
and fifteen blade shards ("parts") held together by configurable joints. The
shards can be thrown, pulled back ("reformed"), snapped onto their guide
points ("locked") and rearranged by a set of modes. The hilt hand picks a
sword, an expanded sword or a shield. Holding shard 10 picks the cannon. Holding
shard 11 while the top shard is imbued with a spell picks gravity,
lightning or the flamethrower. The code also holds a swarm mode and a
circular-saw mode, which the mode switch never selects; they are
modelled as mode objects on their own.

This project models the mod's logic as pure functions over immutable
values. It then proves what the code promises of that logic.

- `base.dfy` (`Base`): option, vector and side types, plus the `Mathf` helpers the code uses (`Clamp`, `Clamp01`, `Lerp`, `InverseLerp`).
- `utils.dfy` (`Utils`): the pure parts of the utility library. These are `SafetyClamp`, the axis tests, `Side.Other`, `GetMassModifier`, `MinBy`, the collider walk shared by `Explosion` and `PushForce`, and `ConeCastAll`.
- `joints.dfy` (`Joints`): the configurable joint reduced to its drives, connected body and mass scale. It covers `CreateJoint`'s drive values, `LockJoint`, `SetDriveFactor`, `RefreshJoint`, `SetSpring`, `SetDamping` and `UpdateDriveStrengths`.
- `blade_part.dfy` (`BladePart`): one shard's Free / Reforming / Locked state machine and its per-frame `Update`.
- `annotation.dfy` (`Annotations`): the tutorial labels and the `[[BUTTON]]` substitution.
- `mode_input.dfy` (`ModeInput`): the trigger and button edge detection shared by the held modes. Each frame becomes a list of events, and the modes' callbacks fold over that list.
- `poses.dfy` (`Poses`): the ordering of the shards that the held modes arrange (`PartsInOrder`) and the ring-angle arithmetic.
- `blade.dfy` (`Blade`): the sword's part bookkeeping. This covers spawning, respawning despawned parts, the ready gate, and `ReformParts` / `DetachParts`.
- `grabbed.dfy` (`GrabbedModes`): what every held mode shares: `Test`, `Enter`, `Exit`, the reform and lock vetoes, the label refresh and the spin ramp.
- `gravity.dfy`, `flamethrower.dfy`, `lightning.dfy`, `cannon.dfy`, `swarm.dfy`, `saw.dfy`: one module per held mode.
- `hilt.dfy` (`HiltModes`): the sword, expanded and shield modes.
- `shatterblade.dfy` (`Shatterblade`): the mode switch. This covers the cascade that picks a mode each frame, the button's tap and hold, and the main `Update`.

Time is an explicit `now` parameter, and a frame's delta time is `dt`.
Engine queries are inputs: a list of cast hits, the angle between two
vectors, whether a hand holds a shard. Floats are `real`.

## Model

| member | source | states |
|---|---|---|
| Base.EndEffect | Modes/GravityMode.cs:185 | `effect?.End()` ends a spawned effect and leaves a missing one missing. |
| Base.Clamp | Utils.cs:156 | The result lies in [lo, hi]; a value inside is kept; a value below gives lo, above gives hi. |
| Base.Clamp01 | Modes/CannonMode.cs:103 | The result lies in [0, 1]; 0 at or below 0, 1 at or above 1, unchanged inside. |
| Base.Lerp | BladePart.cs:387 | The result stays between the two ends; a parameter at or below 0 gives the start, at or above 1 gives the end. |
| Base.LerpMonotone | BladePart.cs:387 | On a rising interval, a larger parameter never gives a smaller result. |
| Base.InverseLerp | BladePart.cs:237 | The result lies in [0, 1]; 0 for an empty interval; 0 at the start and 1 at the end of a non-empty one. |
| Utils.SafetyClamp | Utils.cs:156 | Magnitudes are bounded by ±1000; values inside are unchanged; values outside saturate at the nearer bound. |
| Utils.MostlyX | Utils.cs:171 | Definition only, no contract of its own: the x component is strictly larger in absolute value than y and z. `MostlyExclusive` states how the three tests relate. |
| Utils.MostlyY | Utils.cs:176 | Definition only, no contract of its own: the y component is strictly larger in absolute value than x and z. |
| Utils.MostlyZ | Utils.cs:181 | Definition only, no contract of its own: the z component is strictly larger in absolute value than x and y. |
| Utils.MostlyExclusive | Utils.cs:171-181 | At most one of `MostlyX`, `MostlyY`, `MostlyZ` holds; none holds exactly when the largest absolute component is tied. |
| Utils.Other | Utils.cs:208-210 | The other side differs from the given one. |
| Utils.OtherInvolutive | Utils.cs:208-210 | Flipping a side twice returns it. |
| Utils.GetMassModifier | Utils.cs:319-325 | Items of mass at least 1 keep their mass, and lighter ones get exactly three times it; for a non-negative mass the result lies between the mass and three times it, and it is positive exactly when the mass is. |
| Utils.MinIndex | Utils.cs:108-112 | The index found holds a least key, and no earlier element has that key: ties keep the earlier element, as the aggregate's strict comparison does. |
| Utils.MinBy | Utils.cs:108-112 | The default (none) exactly for an empty sequence; otherwise the first element with the least key. |
| Utils.MinByLeast | Utils.cs:108-112 | The chosen element's key is no greater than any element's key. |
| Utils.ForceModifier | Utils.cs:444-450 | Without mass compensation the modifier is 1; with it, bodies of mass at least 1 use their mass and lighter ones exactly twice it. |
| Utils.MassModifiersAgree | Utils.cs:319-325 | The item modifier and the force modifier agree from mass 1 up; below it they stand in the ratio 3 to 2, so a light positive body always gets more from the item modifier. Neither is monotone across mass 1 (0.9 gets more than 1). |
| Utils.Walk | Utils.cs:435-460 | The collider loop never impulses a seen or player-layer body; it never pushes a seen creature; no body or creature is hit twice; every non-player body met is impulsed with its modifier. |
| Utils.Impacts | Utils.cs:432-494 | `Explosion` and `PushForce` never touch player-layer bodies and never push the player. They hit each body and creature at most once, use modifier 1 without compensation, and impulse every non-player body met. |
| Utils.InCone | Utils.cs:614-617 | Definition only, no contract of its own: a hit is kept when its point angle, or its body's angle, is below the cone angle. `ConeCastAll` states that exactly these hits are kept. |
| Utils.ConeCastAll | Utils.cs:606-624 | The result has no more hits than the cast; it holds exactly the cast's hits inside the cone, by point angle or by body angle. |
| Utils.ConeCastAllAppend | Utils.cs:606-624 | The filter distributes over concatenation, so retained hits keep their order. |
| Joints.NewJoint | BladePart.cs:398-440 | A new joint is attached to the sword body exactly when asked for and the sword locks. It then has mass scale 20, else the default 1. Linear drives are (2000, 120, ∞) and angular drives (1000, 10, ∞). |
| Joints.PositionDrives | BladePart.cs:373-375 | Definition only, no contract of its own: the three linear axes all carry the given drive, as `LockJoint` and `SetDriveFactor` leave them. |
| Joints.WithPositionDrive | BladePart.cs:373-375 | The drive is written to all three linear axes; angular drives, connection and mass scale are kept. |
| Joints.LockedJoint | BladePart.cs:368-377 | Locking writes (1000000, 4000, ∞) to all linear axes and keeps the connection and mass scale. |
| Joints.DriveDamper | BladePart.cs:387 | The damper lies in [20, 100]; 20 at factor 0 or below, 100 at factor 1 or above. |
| Joints.FactorJoint | BladePart.cs:383-393 | `SetDriveFactor` gives every linear axis spring 2000, the lerped damper and infinite force; everything else is kept. |
| Joints.DriveDamperMonotone | BladePart.cs:387 | A larger factor never gives a weaker damper. |
| Joints.Refreshed | BladePart.cs:313-328 | A refreshed joint is connected to the sword (mass scale 20) exactly when the sword locks, otherwise to the guide (mass scale kept); drives are kept. |
| Joints.RefreshedIdempotent | BladePart.cs:313-328 | Refreshing twice with the same flag is the same as once. |
| Joints.SetDriveAsWritten | Utils.cs:311-318 | As written, `SetSpring` and `SetDamping` change a copy of the x drive, so the joint is unchanged: its x drive shows the requested value only when it already held it. |
| Joints.SetDriveAsWrittenLosesWrite | Utils.cs:311-318 | On a fresh joint, asking for spring 5 leaves 2000 and asking for damper 5 leaves 120 as written, while the written-back setters store 5. |
| Joints.SetSpring | Utils.cs:311-314 | The x drive gets the new spring and keeps its damper and force; every other drive and the connection are unchanged. |
| Joints.SetDamping | Utils.cs:315-318 | The x drive gets the new damper and keeps its spring and force; every other drive and the connection are unchanged. |
| Joints.SetSpringDampingCommute | Utils.cs:311-318 | The corrected setters commute, and together they set the x drive to (spring, damper, old force). |
| Joints.UpdateDriveStrengths | Utils.cs:579-596 | A missing joint stays missing. Otherwise the linear drives become (100s, 10s, 1000) and the angular drives (10s, s, 100); the connection and mass scale are kept. |
| Joints.UpdateDriveStrengthsLastWins | Utils.cs:579-596 | Every drive is overwritten, so two updates equal the last one alone. |
| BladePart.DestroyJoint | BladePart.cs:445-451 | Afterwards there is no joint. A shard without a joint is unchanged. Destroying an existing joint records the time and touches nothing else. |
| BladePart.CreateJoint | BladePart.cs:398-401 | Afterwards there is a joint; an existing joint is kept as it is; otherwise the new joint is `NewJoint`; nothing else changes. |
| BladePart.Detach | BladePart.cs:345-352 | The shard is Free with no joint, telekinesis on and no modifier. A throw sets the velocity to three times the point velocity. The unlock time moves only if a joint existed. |
| BladePart.Reform | BladePart.cs:357-366 | The shard is Reforming with a fresh joint to its guide, telekinesis off and the reforming modifier; the unlock time moves only if a joint existed; the holster flags are kept. |
| BladePart.LockJoint | BladePart.cs:368-377 | Locking a shard with no joint throws (the `joint.xDrive` dereference) and changes nothing; otherwise exactly the joint becomes the locked joint. |
| BladePart.SetDriveFactor | BladePart.cs:383-393 | The joint gets the factor's drive on all linear axes; the connection and the rest of the shard are kept. |
| BladePart.DistanceFactor | BladePart.cs:237 | The factor lies in [0, 1]; 1 at the guide, 0 at distance 2 or more. |
| BladePart.DistanceDamperMonotone | BladePart.cs:237 | A closer shard never gets a weaker damper: 100 at the guide, 20 from distance 2. |
| BladePart.RefreshJoint | BladePart.cs:313-328 | Only the joint changes, to its refreshed form. |
| BladePart.AttachAsWritten | BladePart.cs:333-340 | As written, `Attach` throws exactly when there is no joint. It always sets the locked modifier. When it completes, the joint is a freshly created one. |
| BladePart.AttachAsWrittenDefects | BladePart.cs:333-340 | Without a joint, `Attach` as written ends with none. With one, the surviving joint carries the creation drive and not the locking drive. |
| BladePart.Attach | BladePart.cs:333-340 | After the corrected `Attach` there is a joint carrying the locking drive, attached to the sword (mass scale 20) exactly when the sword locks, with the locked modifier; the state and telekinesis are kept. |
| BladePart.Recover | BladePart.cs:198-205 | The recovery frees the shard, removes its joint and modifier, turns telekinesis on and removes the component. |
| BladePart.Rescale | BladePart.cs:211-216 | A holstered sword or an unchanged scale changes nothing. Otherwise the shard records the new scale and is Reforming, with the joint invariant kept. |
| BladePart.Retune | BladePart.cs:236-248 | A joined, unlocked shard that the sword wants back gets the distance-based drive; any other shard is unchanged; the state and the joint's presence never change. |
| BladePart.FollowGuide | BladePart.cs:249-265 | A joined, locked shard whose guide moved refreshes its joint; any other shard is unchanged. |
| BladePart.Holster | BladePart.cs:266-287 | A shard in a holder is unchanged. A locked shard of a holstered sword is parked on its guide, kinematic and hidden. A parked shard whose sword leaves the holder is unparked, shown and reformed. The joint invariant is kept. |
| BladePart.PrepareLock | BladePart.cs:289-293 | A joint-less shard that no hand holds reforms; any other shard is unchanged. |
| BladePart.Debounced | BladePart.cs:288 | Definition only, no contract of its own: more than 0.1 s has passed since the last joint was destroyed. |
| BladePart.CloseEnoughToLock | BladePart.cs:294-296 | Definition only, no contract of its own: within 0.1 of the guide, within 10 degrees of its rotation, and the mode lets the shard lock. |
| BladePart.LockBranchAsWritten | BladePart.cs:288-305 | As written, a locked or not yet debounced shard is unchanged. |
| BladePart.LockBranchAsWrittenBreaksInvariant | BladePart.cs:288-305 | A held, joint-less Free shard that reaches its guide ends Locked with no joint, breaking "a joint exactly when not Free". |
| BladePart.LockBranch | BladePart.cs:288-305 | With the corrected `Attach`: a shard that is locked, or still in the 0.1 s debounce, is unchanged. A debounced shard close enough to lock (within 0.1 and 10°, mode agreeing) ends Locked, with the locking drive and telekinesis off. Otherwise it does not lock. The joint invariant is kept. |
| BladePart.LockBranchWith | BladePart.cs:288-305 | Definition only, no contract of its own: selects the lock branch as written or corrected; `Update`, `UpdateAsWritten` and `LockIff` state what each reading does. |
| BladePart.UpdateWith | BladePart.cs:192-307 | One frame, with the lock branch in either reading. A dead or sword-less shard is unchanged; a throwing despawn check runs the recovery; a despawned sword is dropped. |
| BladePart.Update | BladePart.cs:192-307 | With the corrected lock branch and `Attach`: every frame keeps "a joint exactly when not Free", and a shard that becomes Locked in the frame carries the locking drive. |
| BladePart.UpdateAsWritten | BladePart.cs:192-307 | As written, a shard that becomes Locked in the frame and holds a joint carries the creation drive, not the locking drive. |
| BladePart.UpdateAsWrittenBreaksInvariant | BladePart.cs:288-305 | As written, a held, joint-less Free shard at its guide in a quiet frame ends Locked with no joint, breaking "a joint exactly when not Free"; the corrected frame locks it with a joint. |
| BladePart.LockIff | BladePart.cs:236-305 | With the corrected lock branch and `Attach`: in a quiet frame, an unlocked shard becomes Locked exactly when the sword wants it back, it is debounced, and it is close enough to lock. A locked result carries the locking drive. |
| BladePart.HolsterRoundTrip | BladePart.cs:266-287 | A locked shard is parked when the sword is holstered. It comes back unparked, shown and Reforming when the sword is drawn. |
| Annotations.ButtonStringHand | Annotation.cs:25 | The left hand reads "XTouchpad" and the right "ATouchpad"; neither holds a placeholder. |
| Annotations.Replace | Annotation.cs:78 | Definition only, no contract of its own: `String.Replace`, scanning left to right and replacing each non-overlapping occurrence. `ReplaceAbsent`, `ReplaceSkipsPrefix` and `ReplaceLeading` state its behaviour. |
| Annotations.ReplaceAbsent | Annotation.cs:78 | Text without the placeholder is stored verbatim. |
| Annotations.ReplaceSkipsPrefix | Annotation.cs:78 | A prefix without the placeholder's first character is copied unchanged. |
| Annotations.ReplaceLeading | Annotation.cs:78 | A leading placeholder becomes the replacement. |
| Annotations.Render | Annotation.cs:75-79 | Definition only, no contract of its own: the `[[BUTTON]]` placeholder is replaced by the hand's glyph, or the generic one without a hand. `RenderOnePlaceholder` states the result. |
| Annotations.RenderOnePlaceholder | Annotation.cs:75-79 | One placeholder between placeholder-free parts becomes the hand's glyph, or the generic glyph without a hand. |
| Annotations.InitAsWritten | Annotation.cs:45-68 | As written, the rotation target is the target; the label is visible exactly for the tutorial blade and starts empty. |
| Annotations.InitAsWrittenDropsRotationTarget | Annotation.cs:49 | With distinct transforms, the as-written `Init` loses the rotation target it was given. |
| Annotations.Init | Annotation.cs:45-68 | The label keeps the target, rotation target and offset it was given; it may show and is visible exactly for the tutorial blade; it starts empty and alive. |
| Annotations.SetTarget | Annotation.cs:70-73 | Both transforms follow the new target; nothing else changes. |
| Annotations.SetText | Annotation.cs:75-79 | A label that may not show is unchanged; otherwise it is visible with the rendered text. |
| Annotations.Show | Annotation.cs:87-91 | Only a label that may show becomes visible; nothing else changes. |
| Annotations.Hide | Annotation.cs:93-96 | The label is hidden; nothing else changes. |
| Annotations.Destroy | Annotation.cs:98-103 | The text is cleared and the label removed; nothing else changes. |
| Annotations.Apply | Annotation.cs:70-103 | No label call makes a label that may not show visible, or changes whether it may show. |
| Annotations.NonTutorialNeverVisible | Annotation.cs:45-103 | A label on a non-tutorial blade stays invisible through any sequence of calls. |
| ModeInput.TriggerReads | Modes/GrabbedShardMode.cs:145 | The trigger reads as pressed exactly when it is raw-pressed and the cooldown since the last release has passed. |
| ModeInput.ControlEvents | Modes/GrabbedShardMode.cs:188-200 | One control's frame holds Pressed exactly on a rising edge and Released exactly on a falling edge, each at most once. It holds exactly one of Held or NotHeld, matching the reading. Every event names that control. |
| ModeInput.CheckInputs | Modes/GrabbedShardMode.cs:187-214 | The edge flags become this frame's readings. Each control gets its press and release edges, and exactly one of Held or NotHeld. |
| ModeInput.CheckInputsOrder | Modes/GrabbedShardMode.cs:187-214 | The frame is the trigger's callbacks followed by the button's, and every trigger callback precedes every button callback. |
| ModeInput.Dispatch | Modes/GrabbedShardMode.cs:187-214 | Definition only, no contract of its own: the frame's callbacks run in event order, each on the state the previous one left. `DispatchPreserves`, `DispatchAppend` and `DispatchShort` state its laws. |
| ModeInput.DispatchPreserves | Modes/GrabbedShardMode.cs:187-214 | A property every callback keeps holds after the whole frame's callbacks. |
| ModeInput.DispatchAppend | Modes/GrabbedShardMode.cs:187-214 | Running two batches of callbacks is running the first and then the second. |
| ModeInput.DispatchShort | Modes/GrabbedShardMode.cs:187-214 | One callback, or two, run in the order listed. |
| ModeInput.BaseCallback | Modes/GrabbedShardMode.cs:150-185 | The default callbacks: each press or release stamps its time; Held and NotHeld change nothing. |
| ModeInput.Recorder | Modes/GrabbedShardMode.cs:150-185 | The default callback table answers every event as the default callbacks do. |
| ModeInput.RecordStamps | Modes/GrabbedShardMode.cs:150-214 | With the default callbacks, a frame stamps `now` on exactly the times whose edge it contains and leaves the others. |
| ModeInput.CooldownBlocksPress | Modes/GrabbedShardMode.cs:145 | Within the cooldown after a release, the trigger fires neither Pressed nor Held. |
| ModeInput.Run | Modes/GrabbedShardMode.cs:188-200 | Definition only, no contract of its own: the events of one control over a run of frames, each frame's edge read against the previous reading. `RunAlternates` and `RunReadsEveryFrame` state its behaviour. |
| ModeInput.RunAlternates | Modes/GrabbedShardMode.cs:188-200 | Over any run of frames, presses exceed releases by exactly the change of the edge flag, so the two alternate. |
| ModeInput.RunReadsEveryFrame | Modes/GrabbedShardMode.cs:188-200 | Every frame of a run produces exactly one of Held or NotHeld. |
| ModeInput.RefreshCached | Modes/GrabbedShardMode.cs:221-229 | A shown text is cached. An unchanged text pushes nothing; a changed one is set on the label. A hidden label is hidden and its cache cleared. A sound cache stays sound. |
| ModeInput.RefreshCachedIdempotent | Modes/GrabbedShardMode.cs:221-229 | Repeating a frame with the same label inputs changes nothing. |
| ModeInput.RefreshCachedShows | Modes/GrabbedShardMode.cs:221-229 | With a sound cache, a shown non-empty text is on the label afterwards. |
| ModeInput.RefreshEveryFrame | Modes/ImbueMode.cs:122-126 | In the imbue base a shown label of a tutorial blade carries the text; a label not shown is hidden and keeps its text. |
| ModeInput.RefreshEveryFrameIdempotent | Modes/ImbueMode.cs:122-126 | Setting the same text twice equals setting it once. |
| Poses.Without | Modes/GrabbedShardMode.cs:117-120 | The numbers from `i` to 15 outside the excluded set, each exactly once, ascending. |
| Poses.JointParts | Modes/GrabbedShardMode.cs:113-120 | The entry list holds every shard number 1..15 but the target, ascending. |
| Poses.JointPartsLength | Modes/GrabbedShardMode.cs:117-120 | The list from `i` has one entry fewer than the remaining numbers when the target is still ahead. |
| Poses.JointPartsShape | Modes/GrabbedShardMode.cs:117-120 | Entry `j` is shard `i + j` before the target and `i + j + 1` after it. |
| Poses.JointPartsSlots | Modes/GrabbedShardMode.cs:117-120 | Fourteen entries: entry `j` is shard `j + 1` below the target and `j + 2` from it on. |
| Poses.Insert | Modes/ImbueMode.cs:114 | Insertion adds exactly one occurrence of the element. |
| Poses.InsertSorted | Modes/ImbueMode.cs:114 | Inserting into a sorted list keeps it sorted. |
| Poses.SortByNumber | Modes/ImbueMode.cs:114 | The sort is a permutation of its input. |
| Poses.SortByNumberSorted | Modes/ImbueMode.cs:114 | The sort's output is non-descending. |
| Poses.Except11 | Modes/ImbueMode.cs:113 | The filter drops every `Blade_11` and keeps every other guide with its multiplicity. |
| Poses.PartsInOrder | Modes/ImbueMode.cs:112-115 | `PartsInOrder` is a permutation of the guides other than `Blade_11`. |
| Poses.PartsInOrderIsJointParts | Modes/ImbueMode.cs:112-115 | For any order of a rig naming each of the fifteen guides once, `PartsInOrder` equals the list a mode targeting shard 11 builds on entry. That list is in numeric order, so `Blade_9` precedes `Blade_10`. |
| Poses.Slots | Modes/GrabbedShardMode.cs:240-248 | The pose loop gives the `j`-th body pose index `j + 1`. |
| Poses.SlotsOfJointParts | Modes/GrabbedShardMode.cs:240-248 | In a held mode, pose indices run 1..14, and pose `i` drives shard `i` below the target and `i + 1` above it. |
| Poses.RingAnglePeriodic | Modes/GravityMode.cs:123 | Slots a full ring apart are a full turn apart. |
| Poses.RingAngleGap | Modes/GravityMode.cs:123 | Two slots less than a ring apart sit strictly between no turn and a full turn apart, at their step count times 360/n. |
| Blade.BoundedCard | Shatterblade.cs:247 | A set of numbers in 1..n has at most n members, and exactly n when it holds all of them; so "15 parts" means "every number has a part". |
| Blade.GetPart | Shatterblade.cs:345 | The shard with that number, or null when there is none; under the bookkeeping it carries that number. |
| Blade.ShouldReform | Shatterblade.cs:344 | Definition only, no contract of its own: the sword is locking and the mode's veto allows the shard. `ReformPartsMatchesShouldReform` states that `ReformParts` reforms exactly these shards. |
| Blade.ReformParts | Shatterblade.cs:336-343 | Nothing happens before the sword is ready. Otherwise locking turns on and every shard the mode allows reforms. Other shards and the rest of the sword are unchanged. |
| Blade.ReformPartsMatchesShouldReform | Shatterblade.cs:336-344 | After `ReformParts` on a ready sword, a shard that was not reforming is reforming exactly when the sword now wants it back. |
| Blade.DetachParts | Shatterblade.cs:331-335 | Every shard is detached, Free and jointless, thrown from its guide's point velocity when asked; nothing else changes. |
| Blade.ReformDetachKeepBookkeeping | Shatterblade.cs:331-343 | Reforming and detaching keep the shard-number bookkeeping. |
| Blade.ReplaceShardKeepsBookkeeping | Shatterblade.cs:336-343 | Replacing a shard by one with the same number keeps the bookkeeping. |
| Blade.DetachThenReform | Shatterblade.cs:306-313 | Detaching and then reforming every shard leaves each reforming on exactly one fresh joint to its guide. |
| Blade.HideAllAnnotations | Shatterblade.cs:150-156 | The five labels the sword owns are hidden; the other-hand label is untouched; texts are kept. |
| Blade.SpawnPart | Shatterblade.cs:116-117 | Requesting a spawn raises that number's spawn flag and changes nothing else. |
| Blade.FreshShard | BladePart.cs:97-117 | A freshly initialised shard is Free with no joint, its guide and sword set, the holster flag copied from the sword; its unlock time is 0 and no sword scale has been seen (the zero scale), as `Init` leaves the fields it does not assign. |
| Blade.FreshShardReformsAtOnce | BladePart.cs:211-216 | A fresh shard whose sword is out of a holder at any nonzero scale is detached and reformed in its first frame, in either reading of the lock branch: it ends the frame with a joint, not Free, the scale recorded; its debounce counts from time 0. |
| Blade.SpawnArrived | Shatterblade.cs:118-147 | The arriving shard joins under its number and its spawn flag drops. Shards 1, 10 and 11 each get a fresh label with the offsets (1,-1,0), (1,-2,0) and (-1,-2,0). Nothing else changes. |
| Blade.SpawnKeepsBookkeeping | Shatterblade.cs:116-147 | A spawn request and the arrival of the requested shard keep the bookkeeping. |
| Blade.PartDespawned | BladePart.cs:36-38 | A despawned shard leaves the list and the bookkeeping is kept. |
| Blade.Live | Shatterblade.cs:224 | The filter keeps exactly the shards whose component still exists. |
| Blade.CheckForMissingParts | Shatterblade.cs:223-232 | Destroyed shards are dropped. A spawn is requested, in ascending order, for exactly the numbers with neither a shard nor a pending spawn. Any request clears readiness. Afterwards every number has a shard or a pending spawn. |
| Blade.CheckKeepsBookkeeping | Shatterblade.cs:223-232 | The missing-part check keeps the bookkeeping, and a sword still ready after it has all fifteen shards. |
| Blade.PostInit | Shatterblade.cs:173-183 | The sword becomes ready and locking, and reforms what the mode allows. |
| Blade.ReadyGate | Shatterblade.cs:247-251 | A ready sword passes. A sword that is not ready becomes ready at 15 parts and otherwise stops the frame. |
| Blade.ReadyGateComplete | Shatterblade.cs:246-251 | Any frame that gets past the gate has a ready, complete sword with intact bookkeeping. |
| Blade.BladeHaptic | Shatterblade.cs:323-330 | No tick in the cannon or within 0.01 s of the last one. A tick lies in [0, 0.5], is 0.5 from speed 10 and 0 at speed 0, and stamps the time. |
| Blade.BladeHapticSpacing | Shatterblade.cs:326 | Two ticks are never 0.01 s or less apart. |
| GrabbedModes.Test | Modes/GrabbedShardMode.cs:31 | A held mode applies exactly when its target shard exists and a hand holds it. |
| GrabbedModes.SpellTest | Modes/SpellMode.cs:29-30 | A spell mode applies exactly when shard 11 exists, is held, and the holder's spell is that kind. |
| GrabbedModes.SpellTestRefinesTest | Modes/SpellMode.cs:29-30 | A spell test implies the grabbed-shard test, and at most one spell kind passes at a time. |
| GrabbedModes.Spell | Modes/SpellMode.cs:26 | The holder's spell as the mode's kind, or null when it is another kind. |
| GrabbedModes.UseOffset | Modes/GrabbedShardMode.cs:80-81 | The trigger label sits at (1, -1, ±z) on the palm side: z is 1.5 for held shards and 1 for imbue modes, positive for the left hand. |
| GrabbedModes.AltOffset | Modes/GrabbedShardMode.cs:85-86 | The button label is the trigger label mirrored upwards (y = 1). |
| GrabbedModes.ReformVeto | Modes/GrabbedShardMode.cs:255 | The mode wants back every shard but its target. |
| GrabbedModes.LockVeto | Modes/GrabbedShardMode.cs:260 | Held-shard modes lock every shard but the target; the imbue base keeps the default and locks every shard. |
| GrabbedModes.EnterCore | Modes/GrabbedShardMode.cs:111-130 | Entry stops locking, the animator and the guide parenting. It builds the guide list without the target, creates both labels on the target, and hides the sword's own labels. |
| GrabbedModes.EnterParts | Modes/GrabbedShardMode.cs:123-124 | The other shards reform with locking off on a ready sword (untouched otherwise), and the target ends Free without a joint. |
| GrabbedModes.EnterShards | Modes/GrabbedShardMode.cs:111-130 | After entry the target is detached without a throw. On a ready sword every other shard has been reformed with locking off; on a sword not yet ready they are untouched. Spawning and readiness are kept. |
| GrabbedModes.EnterKeepsBookkeeping | Modes/GrabbedShardMode.cs:111-130 | Entry keeps the shard-number bookkeeping. |
| GrabbedModes.ExitCore | Modes/GrabbedShardMode.cs:132-139 | Exit destroys both labels, re-parents the guides, runs the animator and turns locking back on; nothing else of the sword changes. |
| GrabbedModes.EnterExitRoundTrip | Modes/GrabbedShardMode.cs:111-139 | Entering and leaving a held mode gives back the rig the sword had before, and the parts as entry left them. |
| GrabbedModes.EnterReformsAllButTarget | Modes/GrabbedShardMode.cs:111-130 | On a ready sword, after entry a shard is reforming exactly when it is not the target, and the sword wants back exactly the non-target shards. |
| GrabbedModes.PlainPoll | Modes/GrabbedShardMode.cs:145-214 | With the default callbacks and no cooldown, the edge flags follow the controls and each edge stamps its own time. |
| GrabbedModes.RefreshLabels | Modes/GrabbedShardMode.cs:219-238 | Offsets follow the hand. A label not to be shown is hidden. A shown label shows the text when it changed (grabbed base) or every frame (imbue base). An unchanged text in the grabbed base leaves the label as it was. |
| GrabbedModes.RefreshLabelsIdempotent | Modes/GrabbedShardMode.cs:219-238 | Running the label upkeep twice with the same inputs changes nothing the second time, in both bases. |
| GrabbedModes.PoseBodies | Modes/GrabbedShardMode.cs:241 | The grabbed base walks its entry list; the imbue base walks `PartsInOrder`. |
| GrabbedModes.PoseLoop | Modes/GrabbedShardMode.cs:240-248 | The `j`-th guide goes to the pose of index `j + 1`, for every guide in the list. |
| GrabbedModes.PoseBodiesAfterEnter | Modes/GrabbedShardMode.cs:240-248 | In either base, a mode on a rig naming each guide once walks the fourteen non-target guides in numeric order. |
| GrabbedModes.Turn | Modes/GravityMode.cs:229 | Definition only, no contract of its own: the rotation advances by the frame time times the rate, as every mode's `rotation += Time.deltaTime * rate`. |
| GrabbedModes.SpinRate | Modes/GravityMode.cs:229 | The ring turns between 80 and 300 degrees a second: 80 when not ramping or at the press, 300 from one second after it. |
| GrabbedModes.SpinRateRamps | Modes/GravityMode.cs:229 | The longer the trigger has been held, the faster the ring turns. |
| Gravity.Cooldown | Modes/GravityMode.cs:216 | The trigger delay is positive exactly while the button is held. |
| Gravity.CooldownEffect | Modes/GravityMode.cs:216 | With the button up the trigger reads raw. With it held, the trigger stays dead for a second after a release. |
| Gravity.HeldRadius | Modes/GravityMode.cs:92-99 | While holding, the radius is the item's radius plus 0.1, capped at 2, and is remembered. With nothing held it is the remembered value. It never exceeds 2 once the remembered value does not. |
| Gravity.HeldRadiusIdempotent | Modes/GravityMode.cs:92-99 | Asking for the radius twice gives the same answer and changes nothing more. |
| Gravity.PincerPos | Modes/GravityMode.cs:103-118 | The two pincer shards sit opposite each other. Around a held item they turn at a third of the rotation, 0.1 beyond its radius. With nothing held they sit 0.1 from the centre and 0.15 ahead: across the palm with the button, along the thumb without. |
| Gravity.PincersOpposite | Modes/GravityMode.cs:103-118 | Whatever is held, whichever control is down and however far the mode has turned, pincer shards 1 and 2 share group, size, radius and distance ahead, and their angles differ by exactly half a turn. |
| Gravity.OuterRingPos | Modes/GravityMode.cs:134-147 | Seven slots turn against the rotation. Holding: radius 0.2, 0.1 ahead. Otherwise radius 0.3, 0.1 ahead with the button and 0.2 behind without. |
| Gravity.InnerRingPos | Modes/GravityMode.cs:119-133 | Five slots turn with the rotation. With the button: radius 0.1 at the centre. Otherwise radius 0.1 and 0.2 ahead while holding, or 0.3 and 0.1 behind. |
| Gravity.GetPos | Modes/GravityMode.cs:148-156 | Indices below 3 form the pincer, 3..9 the outer ring and the rest the inner ring. |
| Gravity.GetPosRings | Modes/GravityMode.cs:119-156 | Pose indices 1..14 fill the pincer with two, the outer ring with seven and the inner ring with five. Two shards of one ring sit a whole number of sevenths (fifths) of a turn apart, less than a full turn. |
| Gravity.StepIntensity | Modes/GravityMode.cs:226-231 | While holding with an effect, the intensity rises by 3·dt, capped at 1. With nothing held it falls by 3·dt, floored at 0. It stays a fraction. Holding without an effect leaves it unchanged. |
| Gravity.StepIntensitySaturates | Modes/GravityMode.cs:226-231 | A third of a second of holding saturates the intensity; as long of letting go drains it. |
| Gravity.UseText | Modes/GravityMode.cs:210-212 | The label offers the blast exactly with the button held, the throw exactly when holding without it, and the pull otherwise. |
| Gravity.AltShown | Modes/GravityMode.cs:215 | The button label shows exactly while neither control reads pressed. |
| Gravity.Eligibles | Modes/GravityMode.cs:32 | The pullable items are exactly the cast's items that are neither a shard, the sword, nor kinematic. |
| Gravity.Pick | Modes/GravityMode.cs:31-37 | Nothing is picked exactly when no item is eligible. Otherwise the pick is eligible, has the least score among the eligible, and is the first such. |
| Gravity.TetherFor | Modes/GravityMode.cs:42 | The pull spring is 100 and the damper 5, each scaled by the item's mass modifier. |
| Gravity.AcquireTarget | Modes/GravityMode.cs:30-48 | With nothing to pick nothing changes. Otherwise the pick is held, tethered and modified, and the effect plays when it spawned. |
| Gravity.OnTriggerPressedAsWritten | Modes/GravityMode.cs:183-189 | As written, a trigger press zeroes the intensity, ends the effect and blasts with the button held, but does not record the press time. |
| Gravity.OnTriggerPressed | Modes/GravityMode.cs:183-189 | The corrected press does the same and records the press time, as the base callback would. |
| Gravity.OnTriggerHeld | Modes/GravityMode.cs:191-196 | A target is sought exactly while the button is up and nothing is held. |
| Gravity.OnTriggerReleased | Modes/GravityMode.cs:198-208 | The release time is recorded. The tether and the hold are dropped, and the held item is thrown. The effect ends, the modifiers are gone, and the mode's bookkeeping holds. |
| Gravity.OnEvent | Modes/GravityMode.cs:181-208 | Callbacks only append to the frame's log. Only the held trigger picks something up, and a release drops it. Only a trigger press moves the press time, to now. |
| Gravity.OnEventAsWritten | Modes/GravityMode.cs:181-208 | The as-written table differs only on the trigger press. |
| Gravity.OnEventConsistent | Modes/GravityMode.cs:181-208 | Every callback keeps the target, tether and modifier together. |
| Gravity.Callbacks | Modes/GravityMode.cs:181-208 | The callback table answers each event as `OnEvent`, or as the as-written table. |
| Gravity.Finish | Modes/GravityMode.cs:217-236 | After the callbacks, the ring turns at the spin rate and the intensity takes its step. The radius is remembered, one pose goes to each guide, and the hold, the tether and the log are kept. |
| Gravity.UpdateWith | Modes/GravityMode.cs:217-236 | A whole frame, in either reading of the press callback, keeps the mode's bookkeeping when time does not run backwards. |
| Gravity.Update | Modes/GravityMode.cs:217-236 | With the base press callback restored, the frame keeps the bookkeeping, and a frame whose trigger goes down records the press time. |
| Gravity.UpdateAsWritten | Modes/GravityMode.cs:183-189 | As written, the frame keeps the bookkeeping but never changes the press time. |
| Gravity.KeepsConsistent | Modes/GravityMode.cs:181-208 | Any run of callbacks keeps the mode's bookkeeping. |
| Gravity.KeepsEmptyHanded | Modes/GravityMode.cs:191-196 | Without a held trigger, callbacks never pick anything up. |
| Gravity.UpdateAcquiresOnlyWhenAsked | Modes/GravityMode.cs:191-196 | A frame pulls an item in only when the trigger reads pressed, the button is up and nothing was held. |
| Gravity.KeepsLetGo | Modes/GravityMode.cs:198-208 | Once let go, further callbacks without a held trigger keep it so. |
| Gravity.UpdateReleaseThrows | Modes/GravityMode.cs:198-208 | A frame whose trigger reading falls ends with nothing held, tethered or modified, and the held item is thrown first. |
| Gravity.DispatchedLetsGo | Modes/GravityMode.cs:198-208 | The callbacks of a releasing frame let go, opening the log with the throw. |
| Gravity.ReleaseLetsGo | Modes/GravityMode.cs:198-208 | The release callback alone lets go and throws the held item. |
| Gravity.AsWrittenKeepsPressTime | Modes/GravityMode.cs:183-189 | As written, no callback records the trigger press. |
| Gravity.UpdateAsWrittenSkipsRamp | Modes/GravityMode.cs:229 | As written, a mode that never recorded a press turns at the full 300°/s from its first held frame: the ramp never happens. |
| Gravity.KeepsPressTime | Modes/GravityMode.cs:181-208 | Once the press is recorded, later callbacks keep it and the rotation. |
| Gravity.UpdateRampStartsAtPress | Modes/GravityMode.cs:229 | Corrected, the frame that presses the trigger and catches an item turns at the slow 80°/s; the ramp starts there. |
| Gravity.DispatchedPress | Modes/GravityMode.cs:183-189 | A pressing frame records the press time and keeps the rotation through its callbacks. |
| Gravity.Enter | Modes/GravityMode.cs:23-29 | Entry is the held-shard entry on shard 11, holding nothing, with no effect and all counters at zero. |
| Gravity.Exit | Modes/GravityMode.cs:238-244 | Exit is the held-shard exit. The tether goes, the effect ends and the held item loses its modifier. |
| Flamethrower.BasePos | Modes/FlamethrowerMode.cs:34-37 | Base point `c` is one of three on a ring of radius 0.3 turning with the rotation. |
| Flamethrower.ChargeTarget | Modes/FlamethrowerMode.cs:78 | A charge floats 0.25 ahead of its base point. |
| Flamethrower.ChargeTargets | Modes/FlamethrowerMode.cs:76-85 | The first `n` charge points, in order. |
| Flamethrower.ChargeTargetsSpread | Modes/FlamethrowerMode.cs:76-85 | The three charges stand a third of a turn apart, the first at the rotation itself. |
| Flamethrower.NormalPos | Modes/FlamethrowerMode.cs:22-32 | Pose 1 is the centre and pose 2 is half a unit up. Poses 3..9 form a seven-ring of radius 0.3 turning with the rotation. The rest form a five-ring of radius 0.2 turning against it. |
| Flamethrower.ClusterSlot | Modes/FlamethrowerMode.cs:45-47 | A pressed pose joins one of three clusters at one of four places. |
| Flamethrower.PressedIndex | Modes/FlamethrowerMode.cs:45-47 | Each cluster place is taken by a pressed pose in 3..14. |
| Flamethrower.ClusterSlotRoundTrip | Modes/FlamethrowerMode.cs:45-47 | The twelve pressed poses fill the three clusters of four exactly: the two maps are inverse. |
| Flamethrower.PressedPos | Modes/FlamethrowerMode.cs:39-51 | Pose 1 sits 0.2 ahead and pose 2 at the centre. Pose `i` sits in place `(i-2) % 4` of a 0.15 ring around base point `(i-2)/4`, 0.15 ahead, turning at -1.5 times the rotation. |
| Flamethrower.PressedPosCluster | Modes/FlamethrowerMode.cs:45 | Pose 14, the only one the division sends to a fourth base point, lands a full turn past the first cluster's point, which is that same point. |
| Flamethrower.NormalPosRings | Modes/FlamethrowerMode.cs:27-31 | Two poses share a normal ring exactly when both are in 3..9 or both 10 and over; they then stand less than a turn apart. |
| Flamethrower.GetPos | Modes/FlamethrowerMode.cs:53-54 | The pressed poses apply exactly while the button is held. |
| Flamethrower.AimPushAsWritten | Modes/FlamethrowerMode.cs:63 | As written, the aim push is 0.25 with the trigger down and the literal `015f`, fifteen, without. |
| Flamethrower.AimPushOutOfScale | Modes/FlamethrowerMode.cs:63 | As written, the trigger-up push is a hundred times the cluster offset and over ten times the trigger-down push. |
| Flamethrower.AimPush | Modes/FlamethrowerMode.cs:63 | Read as `0.15f`, the trigger-up push is the cluster offset, positive and no larger than the charge offset. |
| Flamethrower.OnTriggerPressed | Modes/FlamethrowerMode.cs:70-90 | The press time is recorded. With the button held, three fresh charges at intensity 0 stand at the charge points. Otherwise the flame is lit. |
| Flamethrower.BurnsAsWritten | Modes/FlamethrowerMode.cs:100 | As written, the flame damages whenever a flame effect was ever spawned. |
| Flamethrower.Burns | Modes/FlamethrowerMode.cs:100 | As meant, the flame damages exactly while it plays. |
| Flamethrower.OnTriggerHeldWith | Modes/FlamethrowerMode.cs:92-110 | The rotation advances at the ramped rate. With the button held, the charges follow their points and grow to the time since the press, capped at 1. Otherwise the spheres fly, and the flame burns by the selected test. |
| Flamethrower.OnTriggerNotHeld | Modes/FlamethrowerMode.cs:182-185 | The rotation advances at 80°/s and nothing else changes. |
| Flamethrower.ResolveAsWritten | Modes/FlamethrowerMode.cs:160-169 | As written, the charges end. More than a second after the press, three fireballs fly from the three charge points whether or not any charge was lit. |
| Flamethrower.Resolve | Modes/FlamethrowerMode.cs:160-169 | As meant, fireballs fly only from lit charges held over a second; the charges end either way. |
| Flamethrower.ResolveWith | Modes/FlamethrowerMode.cs:160-180 | Both readings of the throw end every charge, and they agree whenever a charge is lit; the corrected one throws nothing without charges. |
| Flamethrower.ThrowsUncharged | Modes/FlamethrowerMode.cs:171-179 | As written, a second of flame followed by a button tap throws three fireballs that were never charged; as meant it throws none. |
| Flamethrower.FireballsNeedCharges | Modes/FlamethrowerMode.cs:160-169 | As meant, three fireballs fly exactly when charges were lit and held long enough, each from its charge's point, and none otherwise. |
| Flamethrower.OnTriggerReleasedWith | Modes/FlamethrowerMode.cs:187-197 | The release time is recorded and the flame ends. With the button held, the charges fly or fizzle; without it they stay. |
| Flamethrower.OnButtonReleasedWith | Modes/FlamethrowerMode.cs:171-180 | The release time is recorded. While the trigger reads pressed the charges fly or fizzle; otherwise they stay. |
| Flamethrower.BurnsWithoutFlame | Modes/FlamethrowerMode.cs:100-106 | As written, an ended flame still burns while the trigger is held without the button; as meant it does not. |
| Flamethrower.BurnsOnlyWhileLit | Modes/FlamethrowerMode.cs:100-106 | As meant, the trigger burns exactly when the button is up and the flame plays. |
| Flamethrower.OnEvent | Modes/FlamethrowerMode.cs:70-197 | Callbacks only append to the log. Button callbacks never turn the rings, touch the flame or move the press time. A press records its time. Held turns at the ramped rate, not-held at the slow rate, and a release does not turn. |
| Flamethrower.Callbacks | Modes/FlamethrowerMode.cs:70-197 | The callback table answers each event as `OnEvent`. |
| Flamethrower.OnEventWellFormed | Modes/FlamethrowerMode.cs:70-197 | Every callback keeps the charges at none, or three of one intensity in [0, 1] at the charge points of one rotation. |
| Flamethrower.KeepsWellFormed | Modes/FlamethrowerMode.cs:70-197 | Any run of callbacks keeps the charge bookkeeping. |
| Flamethrower.ButtonKeeps | Modes/FlamethrowerMode.cs:171-180 | The button's callbacks never turn the rings, touch the flame or move the trigger's press time. |
| Flamethrower.Finish | Modes/ImbueMode.cs:116-140 | After the callbacks, the trigger label shows the burn text and the button label is hidden. Each guide in `PartsInOrder` takes its pose at the rotation the callbacks left. |
| Flamethrower.UpdateWith | Modes/FlamethrowerMode.cs:203-205 | A whole frame keeps the charge bookkeeping, as written and as meant. |
| Flamethrower.TriggerTurnsOnce | Modes/FlamethrowerMode.cs:92-94 | The trigger's callbacks turn the rings exactly once. A frame with the trigger down turns at the ramped rate, counted from now when it went down this frame. Any other frame turns at the slow rate. |
| Flamethrower.UpdateTurnsOnce | Modes/FlamethrowerMode.cs:92-94 | Every frame turns the rings exactly once: ramped while the trigger reads pressed, from this frame if it went down now, and slow otherwise. |
| Flamethrower.Enter | Modes/FlamethrowerMode.cs:16-20 | Entry is the imbue entry on shard 11, with no flame, no charges and no rotation. |
| Flamethrower.Exit | Modes/FlamethrowerMode.cs:207-210 | Exit is the imbue exit, and the flame ends; lit charges are left as they are. |
| Flamethrower.Vetoes | Modes/FlamethrowerMode.cs:212 | The mode wants back every shard but 11 and locks every shard. |
| Lightning.TriggerDead | Modes/LightningMode.cs:66 | Within one second of a release the trigger reads released, so neither its press nor its held callback can fire. |
| Lightning.CooldownTime | Modes/LightningMode.cs:26 | The cooldown ratio is in [0, 1]. It is 1 at the release and falls linearly, reaching 0 once the one-second cooldown has run. |
| Lightning.CooldownTimeFalls | Modes/LightningMode.cs:26 | The ratio never rises as time passes. |
| Lightning.IdleRate | Modes/LightningMode.cs:85 | The idle spin is between 80 and 400 degrees a second: 80 at rest and 400 right after a shot. |
| Lightning.IdleRateSlows | Modes/LightningMode.cs:85 | The idle spin never speeds up as time passes. |
| Lightning.GetPos | Modes/LightningMode.cs:28-47 | Shards 1 and 2 sit ahead of the centre. Shards 3 to 9 form a ring of seven around the palm, 0.2 behind it, turning with the rotation. The rest form a ring of five turning against it. Distances and radii grow with the cooldown ratio. The shake follows the ratio on the outer ring and the charge on the inner ring, and only while the trigger reads pressed. |
| Lightning.GetPosBounds | Modes/LightningMode.cs:28-47 | For ratio and charge in [0, 1] the front shards stay 0.1 to 0.5 ahead. The outer radius stays in [0.15, 0.25] and the inner in [0.1, 0.2]. The shake stays in [0, 0.1] and is zero with the trigger up. |
| Lightning.PartHitFor | Modes/LightningMode.cs:138-142 | The part hit is absent exactly when the cone found none. When present, it is one of the parts found, with the least score. |
| Lightning.Qualifying | Modes/LightningMode.cs:128-132 | The query keeps exactly the ray hits that are neither on a shard nor on the player. |
| Lightning.TargetPoint | Modes/LightningMode.cs:127-136 | The target is fifty units ahead exactly when no hit qualifies. Otherwise it is a qualifying hit no farther than any other. |
| Lightning.StrikeFor | Modes/LightningMode.cs:94-96 | The bolt goes to the part hit when the cone found one, and to the target point otherwise. |
| Lightning.Shot | Modes/LightningMode.cs:92-124 | A shot starts with the one bolt and ends with the explosion, of force 50 and radius 3, at the bolt's target. In between is a 50-point shock exactly when a part was hit. |
| Lightning.OnTriggerPressed | Modes/LightningMode.cs:68-72 | A press records its time and starts the charge effect playing. Nothing else changes. |
| Lightning.OnTriggerHeld | Modes/LightningMode.cs:74-81 | Holding arms the shot and turns the rings at the ramped rate. The charge level follows the time since the press when the effect exists. |
| Lightning.OnTriggerNotHeld | Modes/LightningMode.cs:83-86 | Otherwise the rings turn at the idle rate for the current cooldown ratio. Nothing else changes. |
| Lightning.OnTriggerReleased | Modes/LightningMode.cs:88-125 | A release records its time and disarms. An armed shot ends the charge and fires the shot for the frame's queries. Unarmed, nothing else happens. |
| Lightning.OnEvent | Modes/LightningMode.cs:68-125 | Button events only record times. Each trigger event runs its override. Only a release adds acts. |
| Lightning.Callbacks | Modes/LightningMode.cs:68-125 | The callback table answers each event as `OnEvent`. |
| Lightning.ButtonKeeps | Modes/LightningMode.cs:68-125 | The button's callbacks add no act and leave the arming, the charge, the rotation and the trigger's edge flag alone. |
| Lightning.TriggerPart | Modes/LightningMode.cs:68-125 | With the trigger down the shot is armed and no act is added. A new press starts the charge. When the trigger falls, exactly the armed shot fires and its charge ends. Otherwise nothing changes. |
| Lightning.UseText | Modes/LightningMode.cs:50 | The label says release to fire exactly when the trigger reads pressed, and hold to charge otherwise. |
| Lightning.Finish | Modes/GrabbedShardMode.cs:216-249 | After the callbacks the button label is hidden. Each guide takes the `GetPos` pose for the frame's trigger reading, cooldown ratio and charge. |
| Lightning.Update | Modes/LightningMode.cs:68-93 | Every frame keeps the shot armed exactly with the trigger's edge flag, and an armed shot always has a playing charge. A frame fires exactly one shot when its trigger reading falls, and none otherwise. The button label stays hidden. |
| Lightning.DispatchedDischargesOncePerPress | Modes/LightningMode.cs:68-93 | The callbacks of one frame keep the shot armed with the trigger and fire exactly when the trigger reading falls. |
| Lightning.ShotBoltsOnce | Modes/LightningMode.cs:92-99 | A shot holds exactly one bolt, and it is the first act. |
| Lightning.Enter | Modes/LightningMode.cs:21-25 | Entry is the grabbed-shard entry on shard 11, unarmed, without a charge and with the rings at rest. |
| Lightning.Exit | Modes/LightningMode.cs:148-151 | Exit ends the charge and then runs the grabbed-shard exit. Nothing else changes. |
| Cannon.MagazineOf | Modes/CannonMode.cs:28-31 | The magazine holds exactly the rig's guides other than the barrel (1) and the grip (10). Its length is the rig's minus their occurrences, and no guide appears more often than in the rig. |
| Cannon.RemoveFirst | Modes/CannonMode.cs:64 | Removing a present round takes away exactly one occurrence of it. Removing an absent one changes nothing. |
| Cannon.IndexOf | Modes/CannonMode.cs:114 | The index found holds the round, and the round does not occur before it. |
| Cannon.IndexOfDistinct | Modes/CannonMode.cs:114 | In a magazine without repeats, the index of the j-th round is j. |
| Cannon.ChamberRoundWith | Modes/CannonMode.cs:59-65 | The chamber is emptied. On an empty magazine nothing else changes. Otherwise the given round is chambered and, when present, leaves the magazine once. |
| Cannon.ChamberRound | Modes/CannonMode.cs:66-70 | On an empty magazine nothing changes. Otherwise a round from the magazine is chambered, and the magazine is what it was minus that round. |
| Cannon.ChamberRoundKeepsSound | Modes/CannonMode.cs:59-70 | Chambering into an empty chamber of a sound gun keeps it sound. A round is chambered exactly when the magazine had one, and the magazine shrinks by one. |
| Cannon.Reload | Modes/CannonMode.cs:49-58 | Within a second of the last reload nothing changes. Otherwise the reload time becomes now, the gun starts reloading, and the magazine holds exactly the rig's rounds. |
| Cannon.ReloadAtMostOncePerSecond | Modes/CannonMode.cs:50-51 | After a reload, any reload within the next second changes nothing. |
| Cannon.ReloadFillsMagazine | Modes/CannonMode.cs:49-58 | A reload from a rig naming each guide once gives a sound gun with all the rig's guides but two in the magazine. |
| Cannon.BurstSpin | Modes/CannonMode.cs:102-103 | With the button held the drum spins between 20 and 400 degrees a second. It is 20 at the press and 400 from half a second on. |
| Cannon.CoolSpin | Modes/CannonMode.cs:109-110 | Otherwise the drum spins between 80 and 400 degrees a second. It is 400 at a shot and 80 from two seconds on. |
| Cannon.SpinsAreMonotone | Modes/CannonMode.cs:102-110 | The burst spin never slows as time passes, and the other spin never speeds up. |
| Cannon.FireOffset | Modes/CannonMode.cs:44-45 | The fire label sits at x 1 and height 0.7, with z 1 for the left hand and -1 for the right. |
| Cannon.BurstOffset | Modes/CannonMode.cs:46-47 | The burst label is the fire label's offset mirrored to x -1. |
| Cannon.Upkeep | Modes/CannonMode.cs:99-111 | Both labels follow the hand. With the button held the drum turns at the burst spin, the burst label hides and the fire label shows the burst text. Otherwise the drum turns at the settling spin and both labels show their texts. Nothing else changes. |
| Cannon.DrumPoses | Modes/CannonMode.cs:84-90 | Each magazine round gets a drum pose, in magazine order, on a ring the size of the magazine. The radius is 0.2 with the button held and 0.3 otherwise. |
| Cannon.DrumSpreadsEvenly | Modes/CannonMode.cs:84-90 | With no round twice, round j takes slot j, at j times 360 over the magazine's size degrees past the rotation. |
| Cannon.FramePoses | Modes/CannonMode.cs:112-131 | A frame's poses start with the drum's. The barrel is posed exactly when shard 1 exists. A round is posed in the breech exactly when it is chambered and its shard exists. |
| Cannon.Supply | Modes/CannonMode.cs:133-145 | An empty gun with nothing chambered tries to reload. The frame stops exactly when the gun is reloading and some round is not yet within reach of the grip. A frame that goes on has stopped reloading. Only the magazine, chamber and reload state change. |
| Cannon.PressButton | Modes/CannonMode.cs:146-156 | The button flag follows the button. A new press records its time and plays a new spin effect. A held button changes nothing. A released button ends the spin effect. |
| Cannon.Fire | Modes/CannonMode.cs:71-81 | A shot fires the chambered round. Its shard ends free without a joint, and every other shard is untouched. The next round is chambered from the magazine. |
| Cannon.PullTrigger | Modes/CannonMode.cs:157-168 | With the trigger held past the 0.4 s gap, a chambered round fires and the shot time moves to now, or 0.35 s earlier with the button held. As written, an empty chamber throws there. With the trigger up the shot time is zeroed. |
| Cannon.UpdateWith | Modes/CannonMode.cs:91-169 | A frame's poses are taken from the drum after the spin, and only the as-written update can throw. |
| Cannon.Update | Modes/CannonMode.cs:91-169 | The corrected update never throws. |
| Cannon.UpdateAsWritten | Modes/CannonMode.cs:91-169 | As written, the update leaves the same sword, gun, acts and poses as the corrected one and differs only in the exception an empty chamber raises. |
| Cannon.FireOnEmptyChamberThrows | Modes/CannonMode.cs:133-159 | As written, an empty gun within a second of its last reload throws on every frame the trigger is held past the gap. The corrected update does not throw and fires nothing. |
| Cannon.SupplyKeepsSound | Modes/CannonMode.cs:133-145 | The supply step keeps the gun sound: no round twice, only rounds in the magazine, and the chambered one not also in the magazine. |
| Cannon.PullTriggerKeepsSound | Modes/CannonMode.cs:157-168 | The trigger step keeps the gun sound, and a shot leaves a different round in the chamber. |
| Cannon.UpdateKeepsSound | Modes/CannonMode.cs:91-169 | Both versions of a frame keep the gun sound. |
| Cannon.UpdateFiresChambered | Modes/CannonMode.cs:137-165 | A frame fires exactly when the trigger is held past the gap, the gun is not waiting for rounds, and a round is chambered after supply. It fires that round, whose shard ends free, and a different round takes the chamber. |
| Cannon.UpdateCadence | Modes/CannonMode.cs:157-168 | A firing frame had the trigger held past the gap and moves the shot time to now, or 0.35 s earlier with the button held. Otherwise the shot time stays, or is zeroed with the trigger up. |
| Cannon.ShotsSpaced | Modes/CannonMode.cs:158-164 | Two firing frames in a row are more than 0.4 s apart, or more than 0.05 s when the first was a burst. |
| Cannon.UpdateReloadsWhenDry | Modes/CannonMode.cs:133-135 | A frame reloads exactly when the gun is empty with nothing chambered and more than a second has passed since the last reload. |
| Cannon.ReloadingHoldsFire | Modes/CannonMode.cs:137-143 | While the gun waits for its rounds, a frame fires nothing, chambers nothing and leaves the shards, the button state and the shot time alone. |
| Cannon.PressFrameSpinsFromStalePress | Modes/CannonMode.cs:101-103 | On the frame the button goes down, the spin uses the previous press's time. After a pause of half a second the drum turns at the full 400 for that frame. |
| Cannon.ReformVetoOf | Modes/CannonMode.cs:180-181 | The mode wants back exactly the barrel and the magazine's rounds other than the grip. |
| Cannon.ArmParts | Modes/CannonMode.cs:32-33 | Every shard but the grip is reformed under the mode's veto. The grip is reformed and then detached without a throw. |
| Cannon.ArmPartsKeepsBookkeeping | Modes/CannonMode.cs:32-33 | Arming the shards keeps the sword's bookkeeping. |
| Cannon.Enter | Modes/CannonMode.cs:22-42 | The rig stops locking and animating and the guides are unparented. The grip ends free, and a ready sword reforms the barrel and the magazine's rounds. Both labels are created on the grip and the sword's labels are hidden. The spin is spawned but not played, and a round from the magazine is chambered when there is one. |
| Cannon.EnterLoadsSound | Modes/CannonMode.cs:28-36 | Entered on a rig naming each guide once, the gun is sound. A round is chambered exactly when the rig has rounds, and the magazine holds the rest. |
| Cannon.EnterKeepsBookkeeping | Modes/CannonMode.cs:22-42 | Entry keeps the sword's bookkeeping, its spawn flags and its readiness. |
| Cannon.Exit | Modes/CannonMode.cs:170-179 | The guides go back under the animator, which runs again, and the rig locks. Both labels are destroyed and the spin effect is despawned. Nothing else changes. |
| Cannon.EnterExitRoundTrip | Modes/CannonMode.cs:22-179 | Entering from the untouched rig and then leaving gives the rig back, and leaving keeps the shards as entry left them. |
| Swarm.Enter | Modes/SwarmMode.cs:19-28 | Entry is the grabbed-shard entry on shard 13, with a random offset and a random axis for exactly the fifteen shard numbers and the swarm at rest. |
| Swarm.JointModifier | Modes/SwarmMode.cs:50-58 | All three linear drives get spring 100, damper 10 and force at most 1000. The angular drives, the connection and the mass scale are left alone. |
| Swarm.JointModifierIsPositionDrive | Modes/SwarmMode.cs:50-58 | Softening writes the swarm's drive to the linear axes, so doing it twice changes nothing more. |
| Swarm.LockVeto | Modes/SwarmMode.cs:48 | No shard locks. |
| Swarm.Vetoes | Modes/SwarmMode.cs:28-48 | Every shard but 13 reforms, and none locks. |
| Swarm.GetPos | Modes/SwarmMode.cs:17-37 | The cube is 0.5 across with the button held and 1 otherwise. The centre sits 1.5 to 3 ahead as the trigger's axis goes from 0 to 1. The turn is the clock times 120, the same for every shard. |
| Swarm.SpinRate | Modes/SwarmMode.cs:62 | The swarm spins at 200 degrees a second or more, and exactly 200 with the hand still. |
| Swarm.SpinRateGrows | Modes/SwarmMode.cs:62 | A faster hand never spins the swarm slower. |
| Swarm.Update | Modes/SwarmMode.cs:60-63 | After the default callbacks, both labels are hidden and every guide takes the swarm pose for the button and the trigger's axis. Then the rotation turns at the spin rate for the hand's speed. |
| Swarm.WindsForward | Modes/SwarmMode.cs:62 | Over a frame of nonnegative length the rotation advances by at least 200 degrees a second. |
| Saw.Enter | Modes/CircularSawMode.cs:8-11 | Entry is the grabbed-shard entry on shard 12, at rotation 0 with both multipliers 1. |
| Saw.GetPos | Modes/CircularSawMode.cs:13-25 | Indices above 9 sit on the hub, a ring of five of radius 0.1 turning backwards at a third of the speed. The rest sit on the blade, a ring of nine of radius 0.25, or 0.2 while the trigger reads pressed. Both scale with the size. |
| Saw.Layout | Modes/CircularSawMode.cs:13-25 | Two of the fourteen indices share a ring exactly when both are on the same side of 9. Two on one ring are never at the same angle. At a positive size the hub lies inside the blade, and the trigger pulls the blade in. |
| Saw.SpinRate | Modes/CircularSawMode.cs:32-36 | The saw spins between 80 and 700 times the speed multiplier, in degrees a second. |
| Saw.Spin | Modes/CircularSawMode.cs:32-36 | Over a frame the rotation advances by between 80 and 700 times the speed and the frame's length. |
| Saw.RingPoses | Modes/GrabbedShardMode.cs:240-248 | Each guide, in order, takes the saw pose for its index at the rotation the frame found. |
| Saw.Update | Modes/CircularSawMode.cs:30-37 | After the default callbacks, the trigger label shows the spin text only while the trigger is up and the button label is hidden. The guides take their poses before the spin, and the spin uses the trigger's reading. |
| Saw.UpdateLabel | Modes/CircularSawMode.cs:28-29 | The trigger label is visible only with the trigger up. On a blade whose label cache is in step it is then visible with its text. The button label is never visible. |
| HiltModes.Selected | Modes/SwordMode.cs:29-39 | A lightning charge announces the Arc Cannon, a projectile (fire) charge the Flamethrower and a gravity charge the Gravity Gun, each with its grab text. Any other charge spell announces nothing. |
| HiltModes.OtherHandOffset | Modes/SwordMode.cs:27-28 | The other-hand label sits one unit back, up for a right hand and down for a left one. |
| HiltModes.PointAt | Modes/SwordMode.cs:24-28 | The other-hand label targets and faces the other hand, with the offset for its side. Nothing else about it changes. |
| HiltModes.Invite | Modes/SwordMode.cs:24-43 | Without a charge spell the imbue-handle label hides and the other-hand label invites a choice. A known charge spell sets both texts to its weapon. Any other charge only points the label. The handle, gun and imbue-shard labels are untouched. |
| HiltModes.SwordUpdate | Modes/SwordMode.cs:18-51 | Label B always says what a tap does next. While locking, label A offers the expansion and the gun label its hint. With one hand on the sword the other-hand label follows the other hand, and with any other count it hides. While not locking only label A hides. The imbue-shard label is never touched. |
| HiltModes.SetTextTwice | Annotation.cs:75-79 | Setting the same text twice is the same as setting it once. |
| HiltModes.SwordUpdateSettles | Modes/SwordMode.cs:18-51 | A second sword frame with the same inputs leaves the labels where the first put them. |
| HiltModes.SwordUpdateKeepsQuiet | Modes/SwordMode.cs:18-51 | On a sword whose labels cannot show, no label is visible after a sword frame. |
| HiltModes.SwordEnter | Modes/SwordMode.cs:13-16 | A ready sword locks and sets every shard reforming. A sword not ready is unchanged. Only the shards and the locking flag change. |
| HiltModes.ExpandedEnter | Modes/ExpandedMode.cs:14-18 | The rig's expanded flag goes up and every shard is reformed. Nothing else changes. |
| HiltModes.ExpandedExit | Modes/ExpandedMode.cs:29-32 | Only the expanded flag goes down. |
| HiltModes.ExpandedRoundTrip | Modes/ExpandedMode.cs:14-32 | From a rig that was not expanded, entering expands it and leaving gives the rig back. |
| HiltModes.ExpandedUpdate | Modes/ExpandedMode.cs:20-27 | Label A tells how to retract and label B offers the shield. The imbue-handle, other-hand and gun labels hide and keep their texts. The imbue-shard label is untouched. |
| HiltModes.RetractTextRenders | Modes/ExpandedMode.cs:22 | The retract hint shows the button's glyph in place of its placeholder. |
| HiltModes.ExpandedUpdateSettles | Modes/ExpandedMode.cs:20-27 | The expanded labels settle after one frame. |
| HiltModes.ShieldHide | Modes/ShieldMode.cs:19-23 | Both handle labels and the imbue-handle, other-hand and gun labels hide and keep their texts. The imbue-shard label is untouched. |
| HiltModes.ShieldEnter | Modes/ShieldMode.cs:13-24 | The rig leaves the expanded pose and takes the shield. The shield is on the left exactly when the button hand's palm is within 50 degrees of the blade's forward. Every shard is reformed and five labels hide. |
| HiltModes.ShieldExit | Modes/ShieldMode.cs:25-28 | Only the shield flag goes down. |
| HiltModes.ShieldRoundTrip | Modes/ShieldMode.cs:13-28 | Shield in and out lowers the shield flag again, leaves the blade not expanded and keeps the side chosen on entry. |
| Shatterblade.VetoOf | Shatterblade.cs:344 | With no mode or a hilt mode every shard may reform. Under the cannon exactly the barrel and the magazine's rounds other than the grip may. Under a spell weapon every shard but the one in hand may. |
| Shatterblade.ShouldReformUnderHilt | Shatterblade.cs:344 | Under no mode or a hilt mode, the sword wants a shard back exactly while it is locking. |
| Shatterblade.EnterCannon | Modes/CannonMode.cs:22-42 | Entering the cannon makes a cannon mode with cannon state. It keeps the shard numbers and leaves the rig unlocked and without the animator. |
| Shatterblade.EnterGravity | Modes/GravityMode.cs:23-29 | Entering the gravity gun makes a gravity mode with gravity state. It keeps the shard numbers and leaves the rig unlocked and without the animator. |
| Shatterblade.EnterLightning | Modes/LightningMode.cs:21-25 | Entering the arc cannon makes a lightning mode with lightning state. It keeps the shard numbers and leaves the rig unlocked and without the animator. |
| Shatterblade.EnterFlamethrower | Modes/FlamethrowerMode.cs:16-20 | Entering the flamethrower makes a flamethrower mode with its state. It keeps the shard numbers and leaves the rig unlocked and without the animator. |
| Shatterblade.EnterMode | Shatterblade.cs:219-220 | The new mode has the requested kind and the state that kind keeps, and the shard numbers stay. The expanded blade raises its flag. The shield raises its flag and lowers the expanded one. A hand-held mode leaves the rig unlocked and without the animator. |
| Shatterblade.EnterModeKeepsBookkeeping | Shatterblade.cs:219-220 | Entering any mode keeps the shard-number bookkeeping, the spawn flags and readiness. |
| Shatterblade.HiltEntryKeepsBookkeeping | Shatterblade.cs:219-220 | Entering a hilt mode keeps the bookkeeping, the spawn flags and readiness. |
| Shatterblade.HeldEntryKeepsBookkeeping | Shatterblade.cs:219-220 | Entering a hand-held mode keeps the bookkeeping, the spawn flags and readiness. |
| Shatterblade.ExitMode | Shatterblade.cs:215 | A mode's exit touches only the rig. The plain sword changes nothing. The expanded blade and the shield lower their own flag. A hand-held mode restores locking, the animator and the guides' parenting. |
| Shatterblade.ChangeMode | Shatterblade.cs:213-221 | The result is a mode of the requested kind with fitting state. Switching to the active kind changes nothing and runs no hook. With no mode only the entry runs. Otherwise the old mode exits once and then the new one enters once. The shard numbers stay. |
| Shatterblade.ChangeModeSettles | Shatterblade.cs:214 | A second switch to the same kind, whatever its entry data, changes nothing. |
| Shatterblade.ChangeModeKeepsBookkeeping | Shatterblade.cs:213-221 | A switch keeps the bookkeeping, the spawn flags and readiness. |
| Shatterblade.RatioAbove | Shatterblade.cs:235 | Definition only, no contract of its own: the charge ratio `energy / maxEnergy > bound` without the division, with a zero maximum read as the sign of the energy. `RatioAboveIsQuotient` states the agreement with the quotient. |
| Shatterblade.TopShardIsImbued | Shatterblade.cs:234-238 | Definition only, no contract of its own: the top shard's first imbue is over 30% charged with gravity, lightning or fire. `Cascade` states how it picks the spell mode. |
| Shatterblade.RatioAboveIsQuotient | Shatterblade.cs:235 | With a nonzero maximum the charge test is the quotient's comparison. |
| Shatterblade.WeaponFor | Shatterblade.cs:277-282 | Gravity selects the gravity gun, lightning the arc cannon and a projectile spell the flamethrower, and nothing else selects them. |
| Shatterblade.Cascade | Shatterblade.cs:274-304 | A spell weapon is chosen exactly when shard 11 is in hand and the top shard is imbued, and the imbue's spell picks which. Otherwise the cannon is chosen exactly when shard 10 is in hand. Otherwise the button picks the shield, with the trigger, or the expanded blade, without it. The chosen mode can always be entered. |
| Shatterblade.CascadePriority | Shatterblade.cs:274-304 | An imbued shard 11 in hand wins over shard 10, and shard 10 in hand wins over the button. The plain sword is chosen exactly when nothing is held, imbued or pressed. |
| Shatterblade.Hold | Shatterblade.cs:286-291 | While the button is held the blade is locking. The press time is taken only on the first frame of the press. |
| Shatterblade.Release | Shatterblade.cs:303-319 | The press ends. A press under 0.3 s is a tap: locking flips from what it was before, the shards reform or are thrown off to match, and the flip is remembered. A longer press leaves the blade counted as locking. With no press nothing changes. |
| Shatterblade.TapMovesEveryShard | Shatterblade.cs:306-314 | A tap on a ready sword sets every shard reforming when it turns locking on, and every shard free without a joint when it turns it off. |
| Shatterblade.TwoTapsRestore | Shatterblade.cs:306-314 | Two quick taps give the blade back the locking it had. |
| Shatterblade.TapAfterHoldShatters | Shatterblade.cs:306-317 | After a long press the next tap shatters the blade. |
| Shatterblade.ReleaseKeepsBookkeeping | Shatterblade.cs:303-319 | A release keeps the bookkeeping, the shard numbers, the spawn flags and readiness. |
| Shatterblade.HiltUpdate | Shatterblade.cs:321 | The plain sword and the expanded blade refresh their labels. The shield, with no update of its own, changes nothing. Only the labels change. |
| Shatterblade.Steer | Shatterblade.cs:274-321 | After the gate the active mode is the cascade's choice, with fitting state, and the shard numbers stay. A button held into a hilt mode locks the blade and keeps the first press time. Under the plain sword the press is over. |
| Shatterblade.Update | Shatterblade.cs:246-321 | The missing-shard check runs first. A sword that is not ready and not complete stops there. Otherwise the frame ends in the mode the cascade picks for the readied sword. |
| Shatterblade.SteerKeepsBookkeeping | Shatterblade.cs:274-321 | The part of the frame after the gate keeps the bookkeeping and readiness, and leaves a fitting mode. |
| Shatterblade.HoldSwitchKeepsBookkeeping | Shatterblade.cs:286-302 | Holding the button into the shield or the expanded blade keeps the bookkeeping and readiness. |
| Shatterblade.SwordSwitchKeepsBookkeeping | Shatterblade.cs:303-320 | Switching to the plain sword and then releasing keeps the bookkeeping and readiness. |
| Shatterblade.UpdateKeepsBookkeeping | Shatterblade.cs:240-322 | Every frame keeps each shard under its own number, a ready sword complete, and the mode's state fitting. A frame past the gate leaves the sword ready. |

## Left out

- Orientations (`GetRot` in every mode, `LookRotation`, `AngleAxis`) and vector geometry: a pose is reduced to its ring, slot, ring size, radius and angle in degrees.
- Physics: forces, impulses, throws (`HomingThrow`, `GravityPush`, `ThrowHeldThing`, `Explosion`'s forces), depenetration and physic modifiers. Only the choices the code makes before calling the engine are modelled.
- Engine queries (ray casts, cone casts, overlap spheres, which hand holds a shard, the angle between two directions) are inputs to the functions, not computed.
- Haptics, audio, visual effects and their intensities beyond started, playing and ended. `FireSpheres`, `SpawnFireball`, `ThrowEffectCoroutine` and `Flash` are left out for this reason.
- Randomness (`Random.Range`, `RandomVector`, `UniqueVector`): each becomes a parameter (a pick index, a vector function) whose value the model leaves free.
- Coroutines, deferred actions and the asynchronous spawn. The spawn callback is a separate function (`Blade.SpawnArrived`) that may run on any later frame.
- Collision-ignore loops (`IgnoreCollider`, `IgnoreRagdoll`, ignoring the other shards) and the handle sliding fix-up: they only change engine collision and grip state.
- `Shatterblade.Init`, `OnItemLoaded` and the `item == null` retry at the top of `Update`: the model starts from a sword whose item exists.
- `OnDespawnEvent`: the sword's own despawn is not part of this model; a despawned shard is (`Blade.PartDespawned`, `BladePart.Recover`).
- The flash pass in `Shatterblade.Update` is disabled by a literal `false` in its condition, so it is left out.
- `Shatterblade.Update` ends by calling the active mode's `Update`. The model composes that call only for the hilt modes (`Shatterblade.HiltUpdate`). Each hand-held mode's frame is its own `Update` (or `UpdateWith`) function, which takes the mode's state and the frame's inputs.
- Which hand becomes `buttonHand` when several hands press the trigger is not modelled. Only the angle of its palm reaches `HiltModes.ShieldEnter`.
- The revision hooks `Test`, `ShouldPartLock` and `ModifyJoint` take their defaults: tests pass, every part may lock, and the joint is not modified. The exceptions are the mode overrides shown in the source. The cascade never calls `Test`.
- The swarm and circular-saw modes do not override `Exit`: their exit is the grabbed-shard exit, `GrabbedModes.ExitCore`, applied to the mode's core, and has no function of its own.
- The sword's `localScale` is one number: the rescale test compares it as a whole, and `Vector3.zero`, the value `BladePart.Init` leaves in the last seen scale, is 0.
- The swarm's random offsets and axes are stored by `Enter` and never read; its positions and orientations come from `Utils.UniqueVector`, a per-object random vector the model leaves free.
- `Debug.Log` calls and logging.
- GrabbedModes.Poll carries no contract of its own. The events it produces are stated by `ModeInput.CheckInputs`, and the state it keeps is stated by the modes' lemmas about their frames.
- Blade.SpawnArrived: a new label's rotation target is recorded as the shard's number. The code passes the sword's own transform, which the model does not name.
- Swarm.GetPos: the positions themselves come from `UniqueVector`, so only the cube's size, its distance ahead and the shared turn are stated.
- Lightning.TargetPoint: the ray's order is given by the hits' distances. The engine's hit points are not modelled.
- Cannon.Fire: the shot's flight is physics. Only the detach of the fired shard and the re-chambering are stated.

## Findings

| source | as written | input that shows it | evidently intended | confidence | as-written member | corrected member |
|---|---|---|---|---|---|---|
| Utils.cs:311-318 | `SetSpring` and `SetDamping` change a copy of the x drive and never write it back, so the joint is unchanged. | A fresh joint and `SetSpring(5)`: the x spring stays 2000. | The new spring or damper is written back to the joint's linear drives. | not executed | Joints.SetDriveAsWrittenLosesWrite | Joints.SetSpring |
| Modes/GravityMode.cs:183-189 | The gravity mode's `OnTriggerPressed` does not call the base, so the press time is never recorded. | A mode that never saw a press, one second or more into the game, catching an item: the ring turns at the full 300 degrees a second at once. | The press time is recorded, and the spin ramps from 80 to 300 starting at the press. | not executed | Gravity.UpdateAsWrittenSkipsRamp | Gravity.UpdateRampStartsAtPress |
| BladePart.cs:288-305 | The lock branch sets the state to Locked before `Attach`, whose `LockJoint` dereferences a missing joint. A held shard is never reformed, so it has no joint. | A Free shard without a joint, held, debounced and at its guide: it ends Locked with no joint. | A shard has a joint exactly when it is not Free. | not executed | BladePart.UpdateAsWrittenBreaksInvariant | BladePart.Update |
| BladePart.cs:333-340 | `Attach` applies the locking drive with `LockJoint` and then destroys that joint and creates a new one. | Any shard with a joint: the surviving joint has the creation drive, not the locking drive. On a shard without a joint, `LockJoint` throws. | The joint that survives `Attach` carries the locking drive. | not executed | BladePart.AttachAsWrittenDefects | BladePart.Attach |
| Modes/FlamethrowerMode.cs:100 | The burn test checks only that the flame effect exists, and an ended effect still exists. | An ended flame with the trigger held and the button up: the cone burns although no flame plays. | The cone burns exactly while the flame plays. | not executed | Flamethrower.BurnsWithoutFlame | Flamethrower.BurnsOnlyWhileLit |
| Annotation.cs:49 | `Init` stores `target` as the rotation target and drops its `rotationTarget` parameter. | `Init` with target 1 and rotation target 2: the label turns towards 1. | The label keeps the rotation target it was given. | not executed | Annotations.InitAsWrittenDropsRotationTarget | Annotations.Init |
| Modes/FlamethrowerMode.cs:171-180 | On the button's release with the trigger held for over a second, `ThrowFireballs` spawns three fireballs whether or not charges were lit. | No charges, the trigger held for over a second, then a tap of the button: three fireballs are thrown. | Fireballs fly only from lit charges. | not executed | Flamethrower.ThrowsUncharged | Flamethrower.FireballsNeedCharges |
| Modes/FlamethrowerMode.cs:63 | The literal `015f` is 15, not 0.15, so with the trigger up the aim push is a hundred times the clusters' forward offset. | The trigger up: the push is 15 units ahead, over ten times the pressed push of 0.25. | The push is 0.15, an offset on the scale the poses use. | not executed | Flamethrower.AimPushOutOfScale | Flamethrower.AimPush |
| Modes/CannonMode.cs:157-159 | The trigger fires without checking the chamber. When the reload is refused because the last one was under a second ago, `Fire` dereferences the empty chamber. | An empty gun with nothing chambered, not reloading, within a second of its last reload, the trigger held past the shot gap: the frame throws. | An empty chamber does not fire. | not executed | Cannon.FireOnEmptyChamberThrows | Cannon.Update |
