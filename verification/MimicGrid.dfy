/** Zone and plant factors that turn one grid's capacities into another's (powersimdata/design/mimic_grid.py). */
module MimicGrid {
  import opened Reals
  import opened Tables
  import opened GridModel
  import opened TransformGrids

  // ------------------------------------------------------------ median

  ghost predicate Ordered(s: seq<real>) {
    forall i, j :: 0 <= i < j < |s| ==> s[i] <= s[j]
  }

  lemma PrependLeast(s: seq<real>, x: real, tail: seq<real>)
    requires s != [] && Ordered(s) && s[0] < x && Ordered(tail) && multiset(tail) == multiset(s[1..]) + multiset{x}
    ensures Ordered([s[0]] + tail) && multiset([s[0]] + tail) == multiset(s) + multiset{x}
  {
    assert s == [s[0]] + s[1..];
    forall j | 0 <= j < |tail|
      ensures s[0] <= tail[j]
    {
      assert tail[j] in multiset(tail);
      assert tail[j] == x || tail[j] in s[1..];
    }
  }

  function Insert(x: real, s: seq<real>): (r: seq<real>)
    requires Ordered(s)
    ensures Ordered(r) && multiset(r) == multiset(s) + multiset{x}
  {
    if s == [] then [x]
    else if x <= s[0] then [x] + s
    else
      var tail := Insert(x, s[1..]);
      PrependLeast(s, x, tail);
      [s[0]] + tail
  }

  lemma NothingLost(s: seq<real>, r: seq<real>)
    requires s != [] && multiset(r) == multiset(s[1..]) + multiset{s[0]}
    ensures multiset(r) == multiset(s) && |r| == |s|
  {
    assert s == [s[0]] + s[1..];
    assert |r| == |multiset(r)| && |s| == |multiset(s)|;
  }

  function Sorted(s: seq<real>): (r: seq<real>)
    ensures Ordered(r) && multiset(r) == multiset(s) && |r| == |s|
  {
    if s == [] then []
    else
      var r := Insert(s[0], Sorted(s[1..]));
      NothingLost(s, r);
      r
  }

  /** The middle value, or the mean of the two middle values; it lies between two of the given ones. */
  function Median(s: seq<real>): (m: real)
    requires s != []
    ensures exists i, j :: 0 <= i < |s| && 0 <= j < |s| && s[i] <= m <= s[j]
  {
    var t, h := Sorted(s), |s| / 2;
    var low := if |s| % 2 == 1 then t[h] else t[h - 1];
    assert low in multiset(t) && t[h] in multiset(t);
    (low + t[h]) / 2.0
  }

  function AtMost(m: real): real -> real { (x: real) => if x <= m then 1.0 else 0.0 }

  function AtLeast(m: real): real -> real { (x: real) => if x >= m then 1.0 else 0.0 }

  lemma {:induction false} CountAll(s: seq<real>, f: real -> real, k: nat)
    requires k <= |s| && (forall i :: 0 <= i < k ==> f(s[i]) == 1.0) && forall x :: f(x) >= 0.0
    ensures SumBy(s, f) >= k as real
  {
    if s != [] {
      CountAll(s[1..], f, if k == 0 then 0 else k - 1);
    }
  }

  lemma CountTail(s: seq<real>, f: real -> real, k: nat)
    requires k <= |s| && (forall i :: k <= i < |s| ==> f(s[i]) == 1.0) && forall x :: f(x) >= 0.0
    ensures SumBy(s, f) >= (|s| - k) as real
  {
    var tail := s[k..];
    forall i | 0 <= i < |tail|
      ensures f(tail[i]) == 1.0
    {
      assert tail[i] == s[k + i];
    }
    CountAll(tail, f, |tail|);
    CountAll(s[..k], f, 0);
    assert s == s[..k] + tail;
    SumByConcat(s[..k], tail, f);
  }

  lemma SameLast(a: seq<real>, b: seq<real>)
    requires Ordered(a) && Ordered(b) && multiset(a) == multiset(b) && a != []
    ensures |a| == |b| && a[|a| - 1] == b[|b| - 1]
  {
    assert |a| == |multiset(a)| && |b| == |multiset(b)|;
    var x, y := a[|a| - 1], b[|b| - 1];
    assert x in multiset(b) && y in multiset(a);
  }

  lemma WithoutLast(a: seq<real>)
    requires a != [] && Ordered(a)
    ensures var front, last := a[..|a| - 1], a[|a| - 1];
      Ordered(front) && multiset(front) == multiset(a) - multiset{last} && a == front + [last]
  {
    assert a == a[..|a| - 1] + [a[|a| - 1]];
  }

  /** Values have one ascending order. */
  lemma {:induction false} OrderedIsUnique(a: seq<real>, b: seq<real>)
    requires Ordered(a) && Ordered(b) && multiset(a) == multiset(b)
    ensures a == b
  {
    hide Ordered;
    assert |a| == |multiset(a)| && |b| == |multiset(b)|;
    if a != [] {
      SameLast(a, b);
      WithoutLast(a);
      WithoutLast(b);
      OrderedIsUnique(a[..|a| - 1], b[..|b| - 1]);
    }
  }

  /** However the values are put in ascending order, the median is the middle one or the mean of the middle two. */
  lemma MedianOfOrdered(s: seq<real>, t: seq<real>)
    requires s != [] && Ordered(t) && multiset(t) == multiset(s)
    ensures |t| == |s|
    ensures |t| % 2 == 1 ==> Median(s) == t[|t| / 2]
    ensures |t| % 2 == 0 ==> Median(s) == (t[|t| / 2 - 1] + t[|t| / 2]) / 2.0
  {
    OrderedIsUnique(Sorted(s), t);
  }

  lemma MiddleBetween(t: seq<real>, m: real)
    requires t != [] && Ordered(t)
    requires |t| % 2 == 1 ==> m == t[|t| / 2]
    requires |t| % 2 == 0 ==> m == (t[|t| / 2 - 1] + t[|t| / 2]) / 2.0
    ensures t[(|t| - 1) / 2] <= m <= t[|t| / 2]
  {
    var h := |t| / 2;
    if |t| % 2 == 1 {
      assert (|t| - 1) / 2 == h;
    } else {
      assert (|t| - 1) / 2 == h - 1 && t[h - 1] <= t[h];
    }
  }

  lemma MedianBetween(s: seq<real>, t: seq<real>)
    requires s != [] && Ordered(t) && multiset(t) == multiset(s)
    ensures |t| == |s| && t[(|t| - 1) / 2] <= Median(s) <= t[|t| / 2]
  {
    hide Median, Ordered;
    MedianOfOrdered(s, t);
    MiddleBetween(t, Median(s));
  }

  lemma MiddleOfSorted(t: seq<real>, low: nat, high: nat, m: real)
    requires Ordered(t) && low < |t| && high < |t| && t[low] <= m <= t[high]
    ensures SumBy(t, AtMost(m)) >= (low + 1) as real && SumBy(t, AtLeast(m)) >= (|t| - high) as real
  {
    hide SumBy;
    CountAll(t, AtMost(m), low + 1);
    CountTail(t, AtLeast(m), high);
  }

  /** At least half of the values are at most the median and at least half are at least the median. */
  lemma MedianIsMiddle(s: seq<real>)
    requires s != []
    ensures 2.0 * SumBy(s, AtMost(Median(s))) >= |s| as real
    ensures 2.0 * SumBy(s, AtLeast(Median(s))) >= |s| as real
  {
    hide SumBy, Sorted, Ordered, Median;
    var t, m := Sorted(s), Median(s);
    MedianBetween(s, t);
    MiddleOfSorted(t, (|s| - 1) / 2, |s| / 2, m);
    SumByPermutation(s, t, AtMost(m));
    SumByPermutation(s, t, AtLeast(m));
  }

  // ------------------------------------------------------------ what the factors are

  /** Reference capacity over base capacity; 0 for a plant the reference lacks and for 0 over 0. */
  function Scaling(base: Table<Plant>, ref: Table<Plant>, k: int): real
    requires k in base.rows
  {
    if k in ref.rows && base.rows[k].pmax != 0.0 then ref.rows[k].pmax / base.rows[k].pmax else 0.0
  }

  predicate InGroup(base: Table<Plant>, r: string, z: int, k: int) {
    k in base.rows && base.rows[k].resource == r && base.rows[k].zone == z
  }

  /** The positive scalings of the plants of one resource in one zone, in index order. */
  function Positives(base: Table<Plant>, ref: Table<Plant>, ids: seq<int>, r: string, z: int): (s: seq<real>)
    ensures forall x :: x in s ==> x > 0.0
    ensures s == [] <==> forall k :: k in ids && InGroup(base, r, z, k) ==> Scaling(base, ref, k) <= 0.0
  {
    if ids == [] then []
    else
      var rest := Positives(base, ref, ids[1..], r, z);
      assert ids == [ids[0]] + ids[1..];
      if InGroup(base, r, z, ids[0]) && Scaling(base, ref, ids[0]) > 0.0
      then [Scaling(base, ref, ids[0])] + rest
      else rest
  }

  function Total(base: Table<Plant>, ref: Table<Plant>, ids: seq<int>, r: string, z: int): real {
    if ids == [] then 0.0
    else (if InGroup(base, r, z, ids[0]) then Scaling(base, ref, ids[0]) else 0.0) + Total(base, ref, ids[1..], r, z)
  }

  /** The zone factor of a nonempty group: 0 if nothing is left of it, else the median unless that is nearly 1. */
  function ZoneEntry(base: Table<Plant>, ref: Table<Plant>, eps: real, r: string, z: int): Option<real> {
    var s := Positives(base, ref, base.ids, r, z);
    if s == [] then Some(0.0) else if Abs(Median(s) - 1.0) <= eps then None else Some(Median(s))
  }

  /** A positive scaling divided by its zone factor. */
  function Divided(s: real, zone: Option<real>): real {
    if s > 0.0 && zone.Some? && zone.value != 0.0 then s / zone.value else s
  }

  /** The plant factor on top of the zone factor, unless it is nearly 1 or the whole group has gone. */
  function PlantEntry(base: Table<Plant>, ref: Table<Plant>, eps: real, k: int): Option<real>
    requires k in base.rows
  {
    var r, z := base.rows[k].resource, base.rows[k].zone;
    if Positives(base, ref, base.ids, r, z) == [] then None
    else
      var x := Divided(Scaling(base, ref, k), ZoneEntry(base, ref, eps, r, z));
      if Abs(x - 1.0) <= eps then None else Some(x)
  }

  function ZoneIn(m: map<string, Factors>, r: string, z: int): Option<real> {
    if r in m && z in m[r].zone then Some(m[r].zone[z]) else None
  }

  function IdIn(m: map<string, Factors>, r: string, k: int): Option<real> {
    if r in m && k in m[r].id then Some(m[r].id[k]) else None
  }

  predicate GroupExists(base: Table<Plant>, r: string, z: int) {
    exists k :: k in base.rows && InGroup(base, r, z, k)
  }

  /** `m` holds exactly the zone and plant factors described above. */
  ghost predicate Mimics(base: Table<Plant>, ref: Table<Plant>, eps: real, m: map<string, Factors>) {
    && (forall r, z :: ZoneIn(m, r, z) == if GroupExists(base, r, z) then ZoneEntry(base, ref, eps, r, z) else None)
    && (forall r, k :: IdIn(m, r, k) ==
          if k in base.rows && base.rows[k].resource == r then PlantEntry(base, ref, eps, k) else None)
  }

  // ------------------------------------------------------------ the computation

  function Keyed(m: map<string, Factors>, r: string): map<string, Factors> {
    if r in m then m else m[r := Factors(map[], map[])]
  }

  function WithZone(m: map<string, Factors>, r: string, z: int, v: real): map<string, Factors> {
    var n := Keyed(m, r);
    n[r := n[r].(zone := n[r].zone[z := v])]
  }

  function WithId(m: map<string, Factors>, r: string, k: int, v: real): map<string, Factors> {
    var n := Keyed(m, r);
    n[r := n[r].(id := n[r].id[k := v])]
  }

  lemma Lookups(m: map<string, Factors>, r: string, i: int, v: real)
    ensures forall s, z :: ZoneIn(WithZone(m, r, i, v), s, z) == if s == r && z == i then Some(v) else ZoneIn(m, s, z)
    ensures forall s, k :: IdIn(WithZone(m, r, i, v), s, k) == IdIn(m, s, k)
    ensures forall s, z :: ZoneIn(WithId(m, r, i, v), s, z) == ZoneIn(m, s, z)
    ensures forall s, k :: IdIn(WithId(m, r, i, v), s, k) == if s == r && k == i then Some(v) else IdIn(m, s, k)
    ensures forall s, z :: ZoneIn(Keyed(m, r), s, z) == ZoneIn(m, s, z)
    ensures forall s, k :: IdIn(Keyed(m, r), s, k) == IdIn(m, s, k)
  {
  }

  ghost predicate NonNegativeCapacity(t: Table<Plant>) {
    forall k :: k in t.rows ==> t.rows[k].pmax >= 0.0
  }

  lemma ScalingSign(base: Table<Plant>, ref: Table<Plant>, k: int)
    requires k in base.rows && NonNegativeCapacity(base) && NonNegativeCapacity(ref)
    ensures Scaling(base, ref, k) >= 0.0
  {
  }

  /** A group's scalings add up to nothing exactly when none is positive. */
  lemma {:induction false} TotalIsZero(base: Table<Plant>, ref: Table<Plant>, ids: seq<int>, r: string, z: int)
    requires NonNegativeCapacity(base) && NonNegativeCapacity(ref)
    ensures Total(base, ref, ids, r, z) >= 0.0
    ensures Total(base, ref, ids, r, z) == 0.0 <==> Positives(base, ref, ids, r, z) == []
  {
    hide Scaling;
    if ids != [] {
      TotalIsZero(base, ref, ids[1..], r, z);
      if InGroup(base, r, z, ids[0]) {
        ScalingSign(base, ref, ids[0]);
      }
    }
  }

  predicate Gone(base: Table<Plant>, ref: Table<Plant>, r: string, z: int) {
    Positives(base, ref, base.ids, r, z) == []
  }

  /** What is left to do for a plant once the groups in `done` have been divided by their medians. */
  function Remaining(base: Table<Plant>, ref: Table<Plant>, eps: real, done: set<(string, int)>, k: int): real
    requires k in base.rows
  {
    var r, z := base.rows[k].resource, base.rows[k].zone;
    if (r, z) in done then Divided(Scaling(base, ref, k), ZoneEntry(base, ref, eps, r, z)) else Scaling(base, ref, k)
  }

  lemma PlantEntryIs(base: Table<Plant>, ref: Table<Plant>, eps: real, groups: set<(string, int)>,
                     scaling: map<int, real>, k: int)
    requires k in base.rows && (base.rows[k].resource, base.rows[k].zone) in groups
    requires k in scaling <==> !Gone(base, ref, base.rows[k].resource, base.rows[k].zone)
    requires k in scaling ==> scaling[k] == Remaining(base, ref, eps, groups, k)
    ensures PlantEntry(base, ref, eps, k) ==
      if k in scaling && !(Abs(scaling[k] - 1.0) <= eps) then Some(scaling[k]) else None
  {
  }

  lemma ValidKeys(t: Table<Plant>)
    requires t.Valid()
    ensures forall k :: k in t.ids <==> k in t.rows
  {
  }

  lemma GroupsExist(base: Table<Plant>, groups: set<(string, int)>)
    requires groups == set k | k in base.rows :: (base.rows[k].resource, base.rows[k].zone)
    ensures forall r, z :: (r, z) in groups <==> GroupExists(base, r, z)
  {
  }

  lemma GoneIsZero(base: Table<Plant>, ref: Table<Plant>, r: string, z: int)
    requires NonNegativeCapacity(base) && NonNegativeCapacity(ref)
    ensures Total(base, ref, base.ids, r, z) == 0.0 <==> Gone(base, ref, r, z)
  {
    TotalIsZero(base, ref, base.ids, r, z);
  }

  /** Groups without any capacity left get zone factor 0 and need no plant factors. */
  method ZeroGroups(base: Table<Plant>, ref: Table<Plant>, groups: set<(string, int)>)
    returns (m: map<string, Factors>, scaling: map<int, real>)
    requires NonNegativeCapacity(base) && NonNegativeCapacity(ref)
    requires forall k :: k in base.rows ==> (base.rows[k].resource, base.rows[k].zone) in groups
    ensures forall r, z :: ZoneIn(m, r, z) == if (r, z) in groups && Gone(base, ref, r, z) then Some(0.0) else None
    ensures forall r, k :: IdIn(m, r, k) == None
    ensures forall k :: k in scaling <==> k in base.rows && !Gone(base, ref, base.rows[k].resource, base.rows[k].zone)
    ensures forall k :: k in scaling ==> scaling[k] == Scaling(base, ref, k)
  {
    hide Scaling, WithZone, Gone;
    m, scaling := map[], map k | k in base.rows :: Scaling(base, ref, k);
    var order := Enumerate(groups);
    for i := 0 to |order|
      invariant forall r, z ::
        ZoneIn(m, r, z) == if (r, z) in order[..i] && Gone(base, ref, r, z) then Some(0.0) else None
      invariant forall r, k :: IdIn(m, r, k) == None
      invariant forall k :: k in scaling <==>
        && k in base.rows
        && !((base.rows[k].resource, base.rows[k].zone) in order[..i]
             && Gone(base, ref, base.rows[k].resource, base.rows[k].zone))
      invariant forall k :: k in scaling ==> scaling[k] == Scaling(base, ref, k)
    {
      var (r, z) := order[i];
      assert order[..i + 1] == order[..i] + [(r, z)];
      GoneIsZero(base, ref, r, z);
      if Total(base, ref, base.ids, r, z) == 0.0 {
        Lookups(m, r, z, 0.0);
        m := WithZone(m, r, z, 0.0);
        scaling := map k | k in scaling && !InGroup(base, r, z, k) :: scaling[k];
      }
    }
    assert order[..|order|] == order;
    forall k | k in base.rows
      ensures (base.rows[k].resource, base.rows[k].zone) in order
    {
    }
  }

  /** The zone factor of a group, by cases. */
  lemma GroupEntry(base: Table<Plant>, ref: Table<Plant>, eps: real, r: string, z: int)
    ensures var s, e := Positives(base, ref, base.ids, r, z), ZoneEntry(base, ref, eps, r, z);
      && (s == [] <==> Gone(base, ref, r, z))
      && (s == [] ==> e == Some(0.0))
      && (s != [] ==> Median(s) > 0.0 && e == if Abs(Median(s) - 1.0) <= eps then None else Some(Median(s)))
  {
    var s := Positives(base, ref, base.ids, r, z);
    if s != [] {
      var i, j :| 0 <= i < |s| && 0 <= j < |s| && s[i] <= Median(s) <= s[j];
      assert s[i] in s;
    }
  }

  /** The scalings after dividing the positive ones of a group. */
  function DividedGroup(base: Table<Plant>, ref: Table<Plant>, scaling: map<int, real>, r: string, z: int, v: real)
    : map<int, real>
    requires v != 0.0
  {
    map k | k in scaling ::
      if InGroup(base, r, z, k) && Scaling(base, ref, k) > 0.0 then scaling[k] / v else scaling[k]
  }

  lemma RemainingStart(base: Table<Plant>, ref: Table<Plant>, eps: real, scaling: map<int, real>)
    requires forall k :: k in scaling ==> k in base.rows && scaling[k] == Scaling(base, ref, k)
    ensures forall k :: k in scaling ==> scaling[k] == Remaining(base, ref, eps, {}, k)
  {
  }

  lemma RemainingStep(base: Table<Plant>, ref: Table<Plant>, eps: real, done: set<(string, int)>,
                      scaling: map<int, real>, r: string, z: int)
    requires (r, z) !in done
    requires forall k :: k in scaling ==> k in base.rows && scaling[k] == Remaining(base, ref, eps, done, k)
    ensures var s := Positives(base, ref, base.ids, r, z);
      && (s != [] ==> Median(s) > 0.0)
      && var next := if s != [] && !(Abs(Median(s) - 1.0) <= eps)
                     then DividedGroup(base, ref, scaling, r, z, Median(s)) else scaling;
      next.Keys == scaling.Keys && forall k :: k in next ==> next[k] == Remaining(base, ref, eps, done + {(r, z)}, k)
  {
    hide Scaling, ZoneEntry, Median;
    GroupEntry(base, ref, eps, r, z);
  }

  method MedianGroups(base: Table<Plant>, ref: Table<Plant>, eps: real, groups: set<(string, int)>,
                      m0: map<string, Factors>, scaling0: map<int, real>)
    returns (m: map<string, Factors>, scaling: map<int, real>)
    requires forall r, z :: ZoneIn(m0, r, z) == if (r, z) in groups && Gone(base, ref, r, z) then Some(0.0) else None
    requires forall r, k :: IdIn(m0, r, k) == None
    requires forall k :: k in scaling0 <==> k in base.rows && !Gone(base, ref, base.rows[k].resource, base.rows[k].zone)
    requires forall k :: k in scaling0 ==> scaling0[k] == Scaling(base, ref, k)
    ensures forall r, z :: ZoneIn(m, r, z) == if (r, z) in groups then ZoneEntry(base, ref, eps, r, z) else None
    ensures forall r, k :: IdIn(m, r, k) == None
    ensures scaling.Keys == scaling0.Keys
    ensures forall k :: k in scaling ==> scaling[k] == Remaining(base, ref, eps, groups, k)
  {
    hide Scaling, WithZone, Keyed, Gone, ZoneEntry, ZoneIn, IdIn, Remaining, Median;
    RemainingStart(base, ref, eps, scaling0);
    m, scaling := m0, scaling0;
    var order := Enumerate(groups);
    ghost var done: set<(string, int)> := {};
    for i := 0 to |order|
      invariant forall p :: p in done <==> p in order[..i]
      invariant done <= groups
      invariant forall r, z ::
        ZoneIn(m, r, z) == if (r, z) in done then ZoneEntry(base, ref, eps, r, z) else ZoneIn(m0, r, z)
      invariant forall r, k :: IdIn(m, r, k) == None
      invariant scaling.Keys == scaling0.Keys
      invariant forall k :: k in scaling ==> scaling[k] == Remaining(base, ref, eps, done, k)
    {
      var (r, z) := order[i];
      assert (r, z) in order && order[..i + 1] == order[..i] + [(r, z)];
      assert (r, z) !in done;
      var s := Positives(base, ref, base.ids, r, z);
      GroupEntry(base, ref, eps, r, z);
      if s != [] {
        var v := Median(s);
        Lookups(m, r, z, v);
        m := Keyed(m, r);
        if !(Abs(v - 1.0) <= eps) {
          Lookups(m, r, z, v);
          m := WithZone(m, r, z, v);
        }
      }
      RemainingStep(base, ref, eps, done, scaling, r, z);
      if s != [] && !(Abs(Median(s) - 1.0) <= eps) {
        scaling := DividedGroup(base, ref, scaling, r, z, Median(s));
      }
      done := done + {(r, z)};
    }
    assert order[..|order|] == order;
    assert done == groups;
  }

  predicate Recorded(base: Table<Plant>, scaling: map<int, real>, eps: real, r: string, k: int)
    requires k in scaling
  {
    k in base.rows && base.rows[k].resource == r && !(Abs(scaling[k] - 1.0) <= eps)
  }

  /** Records what is left for each plant, unless it is nearly 1. */
  method PlantFactors(base: Table<Plant>, ref: Table<Plant>, eps: real, m0: map<string, Factors>,
                      scaling: map<int, real>)
    returns (m: map<string, Factors>)
    requires forall k :: k in scaling ==> k in base.rows
    requires forall r, k :: IdIn(m0, r, k) == None
    ensures forall r, z :: ZoneIn(m, r, z) == ZoneIn(m0, r, z)
    ensures forall r, k ::
      IdIn(m, r, k) == if k in scaling && Recorded(base, scaling, eps, r, k) then Some(scaling[k]) else None
  {
    hide WithId, ZoneIn, IdIn;
    m := m0;
    var order := Enumerate(scaling.Keys);
    for i := 0 to |order|
      invariant forall r, z :: ZoneIn(m, r, z) == ZoneIn(m0, r, z)
      invariant forall r, k ::
        IdIn(m, r, k) ==
          if k in order[..i] && k in scaling && Recorded(base, scaling, eps, r, k) then Some(scaling[k]) else None
    {
      var k := order[i];
      assert k in order && order[..i + 1] == order[..i] + [k];
      if !(Abs(scaling[k] - 1.0) <= eps) {
        Lookups(m, base.rows[k].resource, k, scaling[k]);
        m := WithId(m, base.rows[k].resource, k, scaling[k]);
      }
    }
    assert order[..|order|] == order;
  }

  /** The two phases over groups and the final one over plants, for any order of the groups. */
  method CommonZoneFactors(base: Table<Plant>, ref: Table<Plant>, eps: real) returns (m: map<string, Factors>)
    requires NonNegativeCapacity(base) && NonNegativeCapacity(ref) && base.Valid()
    ensures Mimics(base, ref, eps, m)
  {
    hide Scaling, ZoneEntry, PlantEntry, Table.Valid, ZoneIn, IdIn, Remaining, Gone, GroupExists;
    assert forall k :: k in base.ids <==> k in base.rows by {
      ValidKeys(base);
    }
    var groups := set k | k in base.rows :: (base.rows[k].resource, base.rows[k].zone);
    GroupsExist(base, groups);
    var scaling: map<int, real>;
    m, scaling := ZeroGroups(base, ref, groups);
    m, scaling := MedianGroups(base, ref, eps, groups, m, scaling);
    m := PlantFactors(base, ref, eps, m, scaling);
    forall r, k
      ensures IdIn(m, r, k) ==
        if k in base.rows && base.rows[k].resource == r then PlantEntry(base, ref, eps, k) else None
    {
      if k in base.rows {
        PlantEntryIs(base, ref, eps, groups, scaling, k);
      }
    }
  }

  predicate Reachable(base: Table<Plant>, ref: Table<Plant>, k: int)
    requires k in ref.rows
  {
    k in base.rows && (base.rows[k].pmax == 0.0 ==> ref.rows[k].pmax == 0.0)
  }

  /** A factor table for `ref`; None where a plant of `ref` is unknown or its factor would be infinite. */
  method MimicGenerationCapacity(base: Table<Plant>, ref: Table<Plant>, eps: real)
    returns (r: Option<map<string, Factors>>)
    requires NonNegativeCapacity(base) && NonNegativeCapacity(ref) && base.Valid() && 0.0 <= eps < 1.0
    ensures r.Some? <==> forall k :: k in ref.rows ==> Reachable(base, ref, k)
    ensures r.Some? ==> Mimics(base, ref, eps, r.value)
  {
    if exists k :: k in ref.rows && !Reachable(base, ref, k) {
      return None;
    }
    var m := CommonZoneFactors(base, ref, eps);
    return Some(m);
  }
}
