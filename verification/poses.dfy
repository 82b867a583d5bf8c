/** The shard lists a mode builds on entry and walks every frame, and the
    placement a mode's `GetPos` gives a shard. Guide bodies are named by
    their shard number (`Blade_{k}` is `k`); the rig's own order of its
    guide bodies is an input, because it is whatever the engine's
    hierarchy walk returns. */
module Poses {
  import opened Base

  predicate Ascending(s: seq<nat>) {
    forall a, b :: 0 <= a < b < |s| ==> s[a] < s[b]
  }

  predicate NonDescending(s: seq<nat>) {
    forall a, b :: 0 <= a < b < |s| ==> s[a] <= s[b]
  }

  /** The shard numbers from `i` to 15 outside `excluded`, ascending. */
  function Without(excluded: set<nat>, i: nat): (r: seq<nat>)
    requires 1 <= i <= 16
    ensures forall k :: k in r <==> i <= k <= 15 && k !in excluded
    ensures forall j :: 0 <= j < |r| ==> i <= r[j] <= 15
    ensures Ascending(r)
    decreases 16 - i
  {
    if i == 16 then []
    else (if i !in excluded then [i] else []) + Without(excluded, i + 1)
  }

  /** `jointParts` of a grabbed-shard mode: the guides of every shard but
      the target, in shard order. */
  function JointParts(target: nat): (r: seq<nat>)
    ensures forall k :: k in r <==> 1 <= k <= 15 && k != target
    ensures Ascending(r)
  {
    Without({target}, 1)
  }

  /** Without the target the list has one entry fewer than the rig. */
  lemma {:induction false} JointPartsLength(target: nat, i: nat)
    requires 1 <= target <= 15 && 1 <= i <= 16
    ensures i <= target ==> |Without({target}, i)| == 15 - i
    ensures target < i ==> |Without({target}, i)| == 16 - i
    decreases 16 - i
  {
    if i < 16 {
      JointPartsLength(target, i + 1);
      var w, rest := Without({target}, i), Without({target}, i + 1);
      if i != target {
        assert w == [i] + rest;
      } else {
        assert w == rest;
      }
    }
  }

  /** Entry `j` of the list is shard `i + j` below the target and
      `i + j + 1` from the target on. */
  lemma {:induction false} JointPartsShape(target: nat, i: nat)
    requires 1 <= target <= 15 && 1 <= i <= 16
    ensures forall j :: 0 <= j < |Without({target}, i)| ==>
              Without({target}, i)[j] == (if i > target || i + j < target then i + j else i + j + 1)
    decreases 16 - i
  {
    if i < 16 {
      JointPartsShape(target, i + 1);
      var w := Without({target}, i);
      var rest := Without({target}, i + 1);
      if i != target {
        assert w == [i] + rest;
        forall j | 0 <= j < |w|
          ensures w[j] == (if i > target || i + j < target then i + j else i + j + 1)
        {
          if j > 0 {
            assert w[j] == rest[j - 1];
          }
        }
      } else {
        assert w == rest;
      }
    }
  }

  /** Fourteen entries, the target skipped. */
  lemma JointPartsSlots(target: nat)
    requires 1 <= target <= 15
    ensures |JointParts(target)| == 14
    ensures forall j :: 0 <= j < 14 ==> JointParts(target)[j] == (if j + 1 < target then j + 1 else j + 2)
  {
    JointPartsLength(target, 1);
    JointPartsShape(target, 1);
  }

  // ---------------------------------------------------------------------
  // PartsInOrder

  /** Insertion of one number before the first entry not below it. */
  function Insert(x: nat, s: seq<nat>): (r: seq<nat>)
    ensures multiset(r) == multiset(s) + multiset{x}
    decreases |s|
  {
    if |s| == 0 then [x]
    else if x <= s[0] then [x] + s
    else
      assert s == [s[0]] + s[1..];
      [s[0]] + Insert(x, s[1..])
  }

  /** Inserting into a non-descending list keeps it non-descending. */
  lemma {:induction false} InsertSorted(x: nat, s: seq<nat>)
    requires NonDescending(s)
    ensures NonDescending(Insert(x, s))
    decreases |s|
  {
    if |s| > 0 {
      var r := Insert(x, s);
      if x <= s[0] {
        forall a, b | 0 <= a < b < |r| ensures r[a] <= r[b] {
          if a > 0 { assert r[a] == s[a - 1]; }
          assert r[b] == s[b - 1];
        }
      } else {
        var t := Insert(x, s[1..]);
        InsertSorted(x, s[1..]);
        assert r == [s[0]] + t;
        forall e | e in t ensures s[0] <= e {
          assert e in multiset(t);
          assert e == x || e in multiset(s[1..]);
        }
        forall a, b | 0 <= a < b < |r| ensures r[a] <= r[b] {
          assert r[b] == t[b - 1];
          if a > 0 { assert r[a] == t[a - 1]; } else { assert t[b - 1] in t; }
        }
      }
    }
  }

  /** The stable sort by shard number that `orderby` performs (equal keys
      only arise for equal numbers, so stability is not observable). */
  function SortByNumber(s: seq<nat>): (r: seq<nat>)
    ensures multiset(r) == multiset(s)
    decreases |s|
  {
    if |s| == 0 then []
    else
      assert s == [s[0]] + s[1..];
      Insert(s[0], SortByNumber(s[1..]))
  }

  /** The sort's output is non-descending. */
  lemma {:induction false} SortByNumberSorted(s: seq<nat>)
    ensures NonDescending(SortByNumber(s))
    decreases |s|
  {
    if |s| > 0 {
      SortByNumberSorted(s[1..]);
      InsertSorted(s[0], SortByNumber(s[1..]));
    }
  }

  /** The guides other than `Blade_11`, in the rig's order. */
  function Except11(rbs: seq<nat>): (r: seq<nat>)
    ensures forall k :: k in r <==> k in rbs && k != 11
    ensures |r| <= |rbs|
    ensures multiset(r)[11] == 0
    ensures forall k :: k != 11 ==> multiset(r)[k] == multiset(rbs)[k]
    decreases |rbs|
  {
    if |rbs| == 0 then []
    else
      assert rbs == [rbs[0]] + rbs[1..];
      (if rbs[0] != 11 then [rbs[0]] else []) + Except11(rbs[1..])
  }

  /** `PartsInOrder`: the guides other than `Blade_11`, ordered by the
      number after the underscore. */
  function PartsInOrder(rbs: seq<nat>): (r: seq<nat>)
    ensures multiset(r) == multiset(Except11(rbs))
    ensures forall k :: k in r <==> k in rbs && k != 11
  {
    var r := SortByNumber(Except11(rbs));
    assert forall k :: k in r <==> k in multiset(r);
    assert forall k :: k in Except11(rbs) <==> k in multiset(Except11(rbs));
    r
  }

  /** A non-descending list without repeats is ascending. */
  lemma DistinctSorted(s: seq<nat>)
    requires NonDescending(s)
    requires forall k :: multiset(s)[k] <= 1
    ensures Ascending(s)
  {
    forall a, b | 0 <= a < b < |s| ensures s[a] < s[b] {
      if s[a] == s[b] {
        CountTwo(s, a, b);
      }
    }
  }

  /** A value at two positions occurs at least twice. */
  lemma CountTwo(s: seq<nat>, a: nat, b: nat)
    requires a < b < |s| && s[a] == s[b]
    ensures multiset(s)[s[a]] >= 2
  {
    assert s == s[..a] + [s[a]] + s[a + 1..b] + [s[b]] + s[b + 1..];
  }

  /** A list is non-empty exactly when something is in it. */
  lemma HasMember(s: seq<nat>)
    ensures |s| > 0 <==> exists k :: k in s
  {
    if |s| > 0 { assert s[0] in s; }
  }

  /** Two ascending lists with the same elements are the same list. */
  lemma {:induction false} AscendingUnique(s: seq<nat>, t: seq<nat>)
    requires Ascending(s) && Ascending(t)
    requires forall k :: k in s <==> k in t
    ensures s == t
    decreases |s|
  {
    HasMember(s);
    HasMember(t);
    if |s| == 0 || |t| == 0 {
    } else {
      assert t[0] in s;
      assert s[0] in t;
      assert s[0] == t[0];
      forall k ensures k in s[1..] <==> k in t[1..] {
        if k in s[1..] {
          assert k in s && k != s[0];
          assert k in t;
        }
        if k in t[1..] {
          assert k in t && k != t[0];
          assert k in s;
        }
      }
      AscendingUnique(s[1..], t[1..]);
      assert s == [s[0]] + s[1..] && t == [t[0]] + t[1..];
    }
  }

  /** Whatever order the rig lists its fifteen guides in, `PartsInOrder`
      is the list a grabbed-shard mode with target 11 builds: numeric
      order, so `Blade_9` comes before `Blade_10`. */
  lemma PartsInOrderIsJointParts(rbs: seq<nat>)
    requires forall k :: k in rbs <==> 1 <= k <= 15
    requires forall k :: multiset(rbs)[k] <= 1
    ensures PartsInOrder(rbs) == JointParts(11)
  {
    var r := PartsInOrder(rbs);
    SortByNumberSorted(Except11(rbs));
    forall k ensures multiset(r)[k] <= 1 {
      if k != 11 {
        assert multiset(r)[k] == multiset(rbs)[k];
      }
    }
    DistinctSorted(r);
    AscendingUnique(r, JointParts(11));
  }

  // ---------------------------------------------------------------------
  // The pose loop

  /** The pose loop: the `j`-th body of the list gets pose index `j + 1`. */
  function Slots(bodies: seq<nat>): (r: seq<(nat, nat)>)
    ensures |r| == |bodies|
    ensures forall j :: 0 <= j < |r| ==> r[j].0 == j + 1 && r[j].1 == bodies[j]
  {
    seq(|bodies|, j requires 0 <= j < |bodies| => (j + 1, bodies[j]))
  }

  /** In a grabbed-shard mode, pose indices run 1..14, and pose `i` goes to
      shard `i` below the target and shard `i + 1` above it. */
  lemma SlotsOfJointParts(target: nat)
    requires 1 <= target <= 15
    ensures |Slots(JointParts(target))| == 14
    ensures forall j :: 0 <= j < 14 ==> 1 <= Slots(JointParts(target))[j].0 <= 14
    ensures forall j :: 0 <= j < 14 ==>
              Slots(JointParts(target))[j].1 ==
                (if Slots(JointParts(target))[j].0 < target then Slots(JointParts(target))[j].0
                 else Slots(JointParts(target))[j].0 + 1)
  {
    JointPartsSlots(target);
  }

  // ---------------------------------------------------------------------
  // Placements

  /** Where a mode sends a shard, reduced to the group it joins, its slot
      in that group, the group's size, the distance from the group's centre
      (for a pair, the offset of each member along the pair's axis), the
      angle in degrees around the centre, and the offset along the hand's
      pointing direction. Random jitter is not part of a placement. */
  datatype Group =
    | Centre       // the mode's centre point itself
    | Raised       // straight above the centre
    | Ahead        // straight in front of the centre
    | HeldPincer   // the pair of jaws around a held object
    | SidePincer   // the pair, spread along the palm direction
    | UpPincer     // the pair, spread along the thumb direction
    | OuterRing
    | InnerRing
    | Cluster      // one of the flamethrower's three charge points
    | ClusterRing  // a place around a charge cluster's own centre
    | Drum         // the cannon's ring of rounds around the thumb
  datatype Placement = Placement(group: Group, slot: int, size: nat, radius: real, angle: real, forward: real)

  /** The angle of member `i` of a pair: shard 1 at no angle, the other
      one at half a turn. */
  function PairAngle(i: int): real {
    if i == 1 then 0.0 else 180.0
  }

  /** The angle of slot `slot` on a ring of `size`, turned by `turn`. */
  function RingAngle(slot: int, size: nat, turn: real): real
    requires size > 0
  {
    (slot as real) * 360.0 / (size as real) + turn
  }

  /** Slots one full ring apart share an angle. */
  lemma RingAnglePeriodic(slot: int, size: nat, turn: real)
    requires size > 0
    ensures RingAngle(slot + size, size, turn) == RingAngle(slot, size, turn) + 360.0
  {
    var d := size as real;
    var a := (slot as real) * 360.0;
    var b := d * 360.0;
    assert ((slot + size) as real) * 360.0 == a + b;
    assert (a + b) / d == a / d + b / d;
    assert b / d == 360.0;
  }

  /** Two slots of one ring less than a full ring apart sit that many
      steps of a turn apart, strictly between no turn and a full one. */
  lemma RingAngleGap(s1: int, s2: int, size: nat, turn: real)
    requires size > 0 && s1 < s2 < s1 + size
    ensures RingAngle(s2, size, turn) - RingAngle(s1, size, turn) == ((s2 - s1) as real) * 360.0 / (size as real)
    ensures 0.0 < RingAngle(s2, size, turn) - RingAngle(s1, size, turn) < 360.0
  {
    var d := size as real;
    var a := (s1 as real) * 360.0;
    var b := ((s2 - s1) as real) * 360.0;
    assert (s2 as real) * 360.0 == a + b;
    assert (a + b) / d == a / d + b / d;
    assert b < d * 360.0;
  }
}
