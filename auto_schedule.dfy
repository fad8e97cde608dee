/**
 * The greedy day scheduler: the selected places are dealt into one bucket per
 * trip day, each day being seeded with the lowest-index unused place and then
 * grown by repeatedly taking the unused place nearest to the day's last place.
 *
 * The great-circle distance is not modelled: the scheduler takes any total
 * distance function into `nat`, since the greedy choice only compares distances.
 */
module AutoSchedule {
  import opened Common
  import opened Lists

  /** A candidate place with its coordinates. */
  datatype Place = Place(name: string, lat: real, lng: real)

  /** One day of the itinerary: its 1-based number and the names visited, in visiting order. */
  datatype RouteDay = RouteDay(day: int, places: seq<string>)

  /** Milliseconds in a day, the unit of `Date.getTime()` differences. */
  const MS_PER_DAY: int := 1000 * 60 * 60 * 24

  // ---------------------------------------------------------------------------
  // Day count and per-day capacity
  // ---------------------------------------------------------------------------

  /** `Math.ceil(diffMs / MS_PER_DAY)`, for a difference of either sign. */
  function CeilDays(diffMs: int): (q: int)
    ensures (q - 1) * MS_PER_DAY < diffMs <= q * MS_PER_DAY
  {
    var a := -diffMs;
    assert a == (a / MS_PER_DAY) * MS_PER_DAY + a % MS_PER_DAY;
    -(a / MS_PER_DAY)
  }

  /**
   * `Math.max(1, Math.ceil((end - start) / MS_PER_DAY) + 1)`: one day for a
   * same-day or inverted range, otherwise one more than the number of started days.
   */
  function DayCount(startMs: int, endMs: int): (days: nat)
    ensures days >= 1
    ensures days == 1 <==> endMs - startMs <= 0
    ensures days > 1 ==> (days - 2) * MS_PER_DAY < endMs - startMs <= (days - 1) * MS_PER_DAY
  {
    var q := CeilDays(endMs - startMs) + 1;
    if q < 1 then 1 else q
  }

  /** `Math.ceil(n / days)`: the fewest places per day that fit n places into days days. */
  function Capacity(n: nat, days: nat): (cap: nat)
    requires days >= 1
    ensures n <= cap * days
    ensures cap * days < n + days
    ensures n > 0 ==> cap >= 1
  {
    var a := n + days - 1;
    assert a == (a / days) * days + a % days;
    a / days
  }

  // ---------------------------------------------------------------------------
  // Filtering and names
  // ---------------------------------------------------------------------------

  /** `placeCoordinates.filter(p => landmarks.includes(p.name))`. */
  function SelectedPlaces(landmarks: seq<string>, placeCoordinates: seq<Place>): (places: seq<Place>)
    ensures forall i :: 0 <= i < |places| ==> places[i].name in landmarks
    ensures forall p :: multiset(places)[p] == if p.name in landmarks then multiset(placeCoordinates)[p] else 0
  {
    Filter(placeCoordinates, (p: Place) => p.name in landmarks)
  }

  /**
   * The kept places stay in `placeCoordinates` order: selecting from a concatenation
   * selects from each part, and a single place is kept iff its name is selected.
   * Together these fix the result, and with it the indices the seed and the
   * tie-break compare.
   */
  lemma SelectedPlacesInOrder(landmarks: seq<string>, a: seq<Place>, b: seq<Place>, p: Place)
    ensures SelectedPlaces(landmarks, a + b) == SelectedPlaces(landmarks, a) + SelectedPlaces(landmarks, b)
    ensures SelectedPlaces(landmarks, [p]) == if p.name in landmarks then [p] else []
  {
    FilterConcat(a, b, (q: Place) => q.name in landmarks);
    assert [p][1..] == [];
  }

  /** Every entry of `idx` is an index into a list of length `n`. */
  predicate AllBelow(idx: seq<nat>, n: nat)
  {
    forall k :: 0 <= k < |idx| ==> idx[k] < n
  }

  /** The names of the places at the given indices, in index order. */
  function NamesAt(places: seq<Place>, idx: seq<nat>): (names: seq<string>)
    requires AllBelow(idx, |places|)
    ensures |names| == |idx|
    ensures forall k :: 0 <= k < |idx| ==> names[k] == places[idx[k]].name
  {
    if idx == [] then [] else [places[idx[0]].name] + NamesAt(places, idx[1..])
  }

  lemma {:induction false} NamesAtConcat(places: seq<Place>, a: seq<nat>, b: seq<nat>)
    requires AllBelow(a, |places|) && AllBelow(b, |places|)
    ensures AllBelow(a + b, |places|)
    ensures NamesAt(places, a + b) == NamesAt(places, a) + NamesAt(places, b)
  {
    if a != [] {
      assert (a + b)[1..] == a[1..] + b;
      NamesAtConcat(places, a[1..], b);
    } else {
      assert a + b == b;
    }
  }

  /** The names of all places, in list order. */
  function Names(places: seq<Place>): (names: seq<string>)
    ensures |names| == |places|
    ensures forall k :: 0 <= k < |places| ==> names[k] == places[k].name
  {
    seq(|places|, k requires 0 <= k < |places| => places[k].name)
  }

  /** All place names of an itinerary, day after day. */
  function AllNames(routes: seq<RouteDay>): seq<string>
  {
    if routes == [] then [] else AllNames(routes[..|routes| - 1]) + routes[|routes| - 1].places
  }

  // ---------------------------------------------------------------------------
  // Buckets of indices
  // ---------------------------------------------------------------------------

  /** The indices of all buckets, bucket after bucket. */
  function Flatten(groups: seq<seq<nat>>): seq<nat>
  {
    if groups == [] then [] else Flatten(groups[..|groups| - 1]) + groups[|groups| - 1]
  }

  /** The index list 0, 1, .., n-1. */
  function Iota(n: nat): (r: seq<nat>)
    ensures |r| == n
    ensures forall k :: 0 <= k < n ==> r[k] == k
  {
    seq(n, k requires 0 <= k < n => k)
  }

  /**
   * x is what the greedy walk picks next, given the indices `before` already
   * placed: a day's first place (prev == None) is the lowest unused index; a
   * later place is an unused index at least as near to `prev` as every other
   * unused index and strictly nearer than every lower unused index.
   */
  ghost predicate GreedyPick(places: seq<Place>, dist: (Place, Place) -> nat, before: seq<nat>, prev: Option<nat>, x: nat)
  {
    && x < |places|
    && x !in before
    && match prev
       case None => forall j :: 0 <= j < x ==> j in before
       case Some(p) =>
         && p < |places|
         && forall j :: 0 <= j < |places| && j !in before ==>
              && dist(places[p], places[x]) <= dist(places[p], places[j])
              && (j < x ==> dist(places[p], places[x]) < dist(places[p], places[j]))
  }

  /** Entry k of bucket g is the greedy pick made when it was placed, after the earlier buckets and entries. */
  ghost predicate PickAt(places: seq<Place>, dist: (Place, Place) -> nat, groups: seq<seq<nat>>, g: nat, k: nat)
    requires g < |groups| && k < |groups[g]|
  {
    GreedyPick(places, dist, Flatten(groups[..g]) + groups[g][..k],
               if k == 0 then None else Some(groups[g][k - 1]), groups[g][k])
  }

  /** Every bucket entry is a greedy pick. */
  ghost predicate Greedy(places: seq<Place>, dist: (Place, Place) -> nat, groups: seq<seq<nat>>)
  {
    forall g, k {:trigger PickAt(places, dist, groups, g, k)} ::
      0 <= g < |groups| && 0 <= k < |groups[g]| ==> PickAt(places, dist, groups, g, k)
  }

  /** Buckets are filled in order: only a bucket after `cur` is still untouched. */
  ghost predicate TailEmpty(groups: seq<seq<nat>>, cur: nat)
  {
    forall g :: cur < g < |groups| ==> groups[g] == []
  }

  lemma {:induction false} FlattenTailEmpty(groups: seq<seq<nat>>, k: nat)
    requires k <= |groups|
    requires forall g :: k <= g < |groups| ==> groups[g] == []
    ensures Flatten(groups) == Flatten(groups[..k])
    decreases |groups|
  {
    if |groups| > k {
      var init := groups[..|groups| - 1];
      FlattenTailEmpty(init, k);
      assert init[..k] == groups[..k];
    } else {
      assert groups[..k] == groups;
    }
  }

  lemma {:induction false} FlattenFullPrefix(groups: seq<seq<nat>>, k: nat, cap: nat)
    requires k <= |groups|
    requires forall g :: 0 <= g < k ==> |groups[g]| == cap
    ensures |Flatten(groups[..k])| == k * cap
  {
    if k > 0 {
      FlattenFullPrefix(groups, k - 1, cap);
      assert groups[..k][..k - 1] == groups[..k - 1];
      assert |Flatten(groups[..k])| == (k - 1) * cap + cap;
    }
  }

  lemma {:induction false} BucketInFlatten(groups: seq<seq<nat>>, g: nat)
    requires g < |groups|
    ensures forall x :: x in groups[g] ==> x in Flatten(groups)
  {
    var n := |groups| - 1;
    if g < n {
      BucketInFlatten(groups[..n], g);
    }
  }

  /** Appending x to the current bucket appends x to the flattened buckets and keeps them greedy. */
  lemma GreedyExtend(places: seq<Place>, dist: (Place, Place) -> nat, groups: seq<seq<nat>>, cur: nat, x: nat)
    requires cur < |groups|
    requires TailEmpty(groups, cur)
    requires Greedy(places, dist, groups)
    requires GreedyPick(places, dist, Flatten(groups),
                        if groups[cur] == [] then None else Some(groups[cur][|groups[cur]| - 1]), x)
    ensures Flatten(groups[cur := groups[cur] + [x]]) == Flatten(groups) + [x]
    ensures Greedy(places, dist, groups[cur := groups[cur] + [x]])
  {
    var next := groups[cur := groups[cur] + [x]];
    FlattenTailEmpty(groups, cur + 1);
    FlattenTailEmpty(next, cur + 1);
    assert groups[..cur + 1][..cur] == groups[..cur];
    assert next[..cur + 1][..cur] == groups[..cur];
    assert Flatten(groups) == Flatten(groups[..cur]) + groups[cur];
    assert Flatten(next) == Flatten(groups[..cur]) + (groups[cur] + [x]);
    forall g, k | 0 <= g < |next| && 0 <= k < |next[g]|
      ensures PickAt(places, dist, next, g, k)
    {
      if g < cur {
        assert PickAt(places, dist, groups, g, k);
        assert next[..g] == groups[..g];
        assert next[g] == groups[g];
      } else {
        assert g == cur;
        assert next[..g] == groups[..g];
        if k < |groups[cur]| {
          assert PickAt(places, dist, groups, g, k);
          assert next[g][..k] == groups[g][..k];
          assert next[g][k] == groups[g][k];
          assert k > 0 ==> next[g][k - 1] == groups[g][k - 1];
        } else {
          assert next[g][..k] == groups[cur];
          assert next[g][k] == x;
          assert k > 0 ==> next[g][k - 1] == groups[cur][|groups[cur]| - 1];
        }
      }
    }
  }

  // ---------------------------------------------------------------------------
  // Counting lemmas for the `used` set
  // ---------------------------------------------------------------------------

  /** Fewer than n used indices leave some index below n unused. */
  lemma {:induction false} UnusedExists(used: set<nat>, n: nat)
    requires |used| < n
    ensures exists i :: 0 <= i < n && i !in used
  {
    if n - 1 in used {
      var rest := used - {n - 1};
      UnusedExists(rest, n - 1);
      var i :| 0 <= i < n - 1 && i !in rest;
      assert i !in used;
    }
  }

  /** n distinct indices below n are exactly the indices 0 .. n-1. */
  lemma {:induction false} UsedAll(used: set<nat>, n: nat)
    requires forall i :: i in used ==> i < n
    ensures |used| <= n
    ensures |used| == n ==> multiset(used) == multiset(Iota(n))
  {
    if n > 0 {
      var rest := used - {n - 1};
      UsedAll(rest, n - 1);
      if |used| == n {
        assert n - 1 in used;
        assert used == rest + {n - 1};
        assert multiset(used) == multiset(rest) + multiset{n - 1};
        assert Iota(n) == Iota(n - 1) + [n - 1];
      }
    } else {
      assert used == {};
    }
  }

  /** Taking one index out of the middle of a list takes its name out of the names. */
  lemma NamesAtMiddle(places: seq<Place>, b1: seq<nat>, x: nat, b2: seq<nat>)
    requires AllBelow(b1, |places|) && x < |places| && AllBelow(b2, |places|)
    ensures AllBelow(b1 + [x] + b2, |places|) && AllBelow(b1 + b2, |places|)
    ensures multiset(NamesAt(places, b1 + [x] + b2))
         == multiset{places[x].name} + multiset(NamesAt(places, b1 + b2))
  {
    var n1, n2, m := NamesAt(places, b1), NamesAt(places, b2), places[x].name;
    assert AllBelow([x], |places|) && NamesAt(places, [x]) == [m];
    NamesAtConcat(places, b1, [x]);
    NamesAtConcat(places, b1 + [x], b2);
    NamesAtConcat(places, b1, b2);
    MultisetMiddle(n1, m, n2);
  }

  lemma MultisetMiddle<T>(s1: seq<T>, m: T, s2: seq<T>)
    ensures multiset(s1 + [m] + s2) == multiset{m} + multiset(s1 + s2)
  {
  }

  /** A permutation of an in-range index list is in range. */
  lemma AllBelowPermutation(a: seq<nat>, b: seq<nat>, n: nat)
    requires AllBelow(a, n) && multiset(a) == multiset(b)
    ensures AllBelow(b, n)
  {
    forall k | 0 <= k < |b| ensures b[k] < n {
      assert b[k] in multiset(a);
    }
  }

  /** A list holding `x` splits around one occurrence of it. */
  lemma SplitAround(b: seq<nat>, x: nat) returns (b1: seq<nat>, b2: seq<nat>)
    requires x in multiset(b)
    ensures b == b1 + [x] + b2
    ensures multiset(b1 + b2) == multiset(b) - multiset{x}
  {
    var i :| 0 <= i < |b| && b[i] == x;
    b1, b2 := b[..i], b[i + 1..];
    assert b == b1 + [x] + b2;
  }

  /** Splits a permutation of `a` around the first index of `a`, leaving a permutation of the rest. */
  lemma PermutationSplit(n: nat, a: seq<nat>, b: seq<nat>) returns (b1: seq<nat>, b2: seq<nat>)
    requires a != [] && AllBelow(a, n) && multiset(a) == multiset(b)
    ensures b == b1 + [a[0]] + b2
    ensures AllBelow(a[1..], n) && multiset(a[1..]) == multiset(b1 + b2)
    ensures AllBelow(b1, n) && AllBelow(b2, n)
  {
    AllBelowPermutation(a, b, n);
    assert a == [a[0]] + a[1..];
    b1, b2 := SplitAround(b, a[0]);
    assert forall k :: 0 <= k < |b1| ==> b1[k] == b[k];
    assert forall k :: 0 <= k < |b2| ==> b2[k] == b[|b1| + 1 + k];
  }

  /** The inductive step of `NamesAtPermutation`: the first index of one list moved into the middle of the other. */
  lemma NamesAtMoveFirst(places: seq<Place>, a: seq<nat>, b1: seq<nat>, b2: seq<nat>)
    requires a != [] && AllBelow(a, |places|) && AllBelow(a[1..], |places|)
    requires AllBelow(b1, |places|) && AllBelow(b2, |places|)
    requires multiset(NamesAt(places, a[1..])) == multiset(NamesAt(places, b1 + b2))
    ensures AllBelow(b1 + [a[0]] + b2, |places|)
    ensures multiset(NamesAt(places, a)) == multiset(NamesAt(places, b1 + [a[0]] + b2))
  {
    var x := a[0];
    NamesAtMiddle(places, b1, x, b2);
    calc {
      multiset(NamesAt(places, a));
      multiset([places[x].name] + NamesAt(places, a[1..]));
      multiset{places[x].name} + multiset(NamesAt(places, a[1..]));
      multiset{places[x].name} + multiset(NamesAt(places, b1 + b2));
    }
  }

  /** Index lists that are permutations of each other name the same places. */
  lemma {:induction false} NamesAtPermutation(places: seq<Place>, a: seq<nat>, b: seq<nat>)
    requires AllBelow(a, |places|)
    requires multiset(a) == multiset(b)
    ensures AllBelow(b, |places|)
    ensures multiset(NamesAt(places, a)) == multiset(NamesAt(places, b))
  {
    if a == [] {
      assert |b| == |multiset(b)| == 0;
    } else {
      var b1, b2 := PermutationSplit(|places|, a, b);
      NamesAtPermutation(places, a[1..], b1 + b2);
      NamesAtMoveFirst(places, a, b1, b2);
    }
  }

  /** The names of the routes built from the buckets are the names of the flattened buckets. */
  lemma {:induction false} AllNamesOfBuckets(places: seq<Place>, groups: seq<seq<nat>>, routes: seq<RouteDay>)
    requires |routes| == |groups|
    requires forall g :: 0 <= g < |groups| ==>
               AllBelow(groups[g], |places|) && routes[g].places == NamesAt(places, groups[g])
    ensures AllBelow(Flatten(groups), |places|)
    ensures AllNames(routes) == NamesAt(places, Flatten(groups))
  {
    if groups != [] {
      var n := |groups| - 1;
      AllNamesOfBuckets(places, groups[..n], routes[..n]);
      NamesAtConcat(places, Flatten(groups[..n]), groups[n]);
      assert routes == routes[..n] + [routes[n]];
    }
  }

  /** Buckets that hold each index of `places` exactly once hold only indices into `places`. */
  lemma BucketsInRange(places: seq<Place>, groups: seq<seq<nat>>)
    requires multiset(Flatten(groups)) == multiset(Iota(|places|))
    ensures forall g :: 0 <= g < |groups| ==> AllBelow(groups[g], |places|)
  {
    var flat := Flatten(groups);
    AllBelowPermutation(Iota(|places|), flat, |places|);
    forall g, k | 0 <= g < |groups| && 0 <= k < |groups[g]| ensures groups[g][k] < |places| {
      BucketInFlatten(groups, g);
      var x := groups[g][k];
      assert x in flat;
      var j :| 0 <= j < |flat| && flat[j] == x;
    }
  }

  /** Routes named after a permutation of all indices name every place once. */
  lemma RoutesNameAll(places: seq<Place>, groups: seq<seq<nat>>, routes: seq<RouteDay>)
    requires multiset(Flatten(groups)) == multiset(Iota(|places|))
    requires |routes| == |groups|
    requires forall g :: 0 <= g < |groups| ==>
               AllBelow(groups[g], |places|) && routes[g].places == NamesAt(places, groups[g])
    ensures multiset(AllNames(routes)) == multiset(Names(places))
  {
    AllNamesOfBuckets(places, groups, routes);
    NamesAtPermutation(places, Flatten(groups), Iota(|places|));
    NamesAtIota(places);
  }

  /** Naming the indices 0, 1, ... in order gives the names in list order. */
  lemma NamesAtIota(places: seq<Place>)
    ensures AllBelow(Iota(|places|), |places|)
    ensures NamesAt(places, Iota(|places|)) == Names(places)
  {
    var idx := Iota(|places|);
    assert AllBelow(idx, |places|);
    var l, r := NamesAt(places, idx), Names(places);
    assert |l| == |r|;
    forall k | 0 <= k < |l| ensures l[k] == r[k] {
      assert idx[k] == k;
    }
  }

  // ---------------------------------------------------------------------------
  // The greedy fill
  // ---------------------------------------------------------------------------

  /** `places.findIndex((_, i) => !used.has(i))`: the lowest index below n that is not used. */
  method FirstUnused(n: nat, used: set<nat>) returns (idx: nat)
    requires exists i :: 0 <= i < n && i !in used
    ensures idx < n && idx !in used
    ensures forall j :: 0 <= j < idx ==> j in used
  {
    ghost var w :| 0 <= w < n && w !in used;
    idx := 0;
    while idx in used
      invariant idx <= w
      invariant forall j :: 0 <= j < idx ==> j in used
      decreases w - idx
    {
      idx := idx + 1;
    }
  }

  /**
   * The scan for the unused place nearest to `places[last]`; `-1` only when every
   * index is used. The `Infinity` start value is replaced by "no candidate yet".
   */
  method NearestUnused(places: seq<Place>, dist: (Place, Place) -> nat, used: set<nat>, last: nat) returns (minIdx: int)
    requires last < |places|
    ensures minIdx == -1 <==> forall j :: 0 <= j < |places| ==> j in used
    ensures minIdx != -1 ==>
      && 0 <= minIdx < |places|
      && minIdx !in used
      && forall j :: 0 <= j < |places| && j !in used ==>
           && dist(places[last], places[minIdx]) <= dist(places[last], places[j])
           && (j < minIdx ==> dist(places[last], places[minIdx]) < dist(places[last], places[j]))
  {
    var minDist: nat := 0;
    minIdx := -1;
    for i := 0 to |places|
      invariant minIdx == -1 <==> forall j :: 0 <= j < i ==> j in used
      invariant minIdx != -1 ==>
        && 0 <= minIdx < i
        && minIdx !in used
        && minDist == dist(places[last], places[minIdx])
        && forall j :: 0 <= j < i && j !in used ==>
             && minDist <= dist(places[last], places[j])
             && (j < minIdx ==> minDist < dist(places[last], places[j]))
    {
      if i in used {
        continue;
      }
      var d := dist(places[last], places[i]);
      if minIdx == -1 || d < minDist {
        minDist := d;
        minIdx := i;
      }
    }
  }

  /** Buckets before `cur` hold `cap` places, bucket `cur` at most `cap`, later buckets none. */
  ghost predicate Shape(groups: seq<seq<nat>>, cur: int, cap: nat)
  {
    && 0 <= cur < |groups|
    && (forall g :: 0 <= g < cur ==> |groups[g]| == cap)
    && |groups[cur]| <= cap
    && TailEmpty(groups, cur)
  }

  /** `used` is exactly the set of indices in the buckets, each of them placed once. */
  ghost predicate Tracks(places: seq<Place>, groups: seq<seq<nat>>, used: set<nat>)
  {
    && (forall j :: j in used ==> j < |places|)
    && (forall j :: j in used <==> j in Flatten(groups))
    && |Flatten(groups)| == |used|
    && multiset(Flatten(groups)) == multiset(used)
  }

  /** The state of the fill loop: shape, placed indices, and greedy placement. */
  ghost predicate FillState(places: seq<Place>, dist: (Place, Place) -> nat, cap: nat,
                            groups: seq<seq<nat>>, cur: int, used: set<nat>)
  {
    Shape(groups, cur, cap) && Tracks(places, groups, used) && Greedy(places, dist, groups)
  }

  /** Fewer than n places in cur+1 full buckets: cur is not the last of the days buckets. */
  lemma NotLastDay(n: nat, days: nat, cap: nat, cur: nat, filled: nat)
    requires days >= 1 && cap == Capacity(n, days)
    requires cur < days && filled == (cur + 1) * cap && filled < n
    ensures cur + 1 < days
  {
    assert cur + 1 >= days ==> filled == days * cap;
  }

  /** A full current bucket is never the last one while places remain, so the next bucket is empty. */
  lemma AdvanceDay(places: seq<Place>, dist: (Place, Place) -> nat, cap: nat,
                   groups: seq<seq<nat>>, cur: int, used: set<nat>)
    requires |groups| >= 1 && cap == Capacity(|places|, |groups|)
    requires FillState(places, dist, cap, groups, cur, used)
    requires |used| < |places|
    requires |groups[cur]| >= cap
    ensures cur + 1 < |groups|
    ensures groups[cur + 1] == [] && cap >= 1
    ensures FillState(places, dist, cap, groups, cur + 1, used)
  {
    FlattenFullPrefix(groups, cur + 1, cap);
    FlattenTailEmpty(groups, cur + 1);
    NotLastDay(|places|, |groups|, cap, cur, |used|);
  }

  /** The last place of a bucket has been used. */
  lemma BucketEntryUsed(places: seq<Place>, dist: (Place, Place) -> nat, cap: nat,
                        groups: seq<seq<nat>>, cur: int, used: set<nat>, k: nat)
    requires FillState(places, dist, cap, groups, cur, used)
    requires k < |groups[cur]|
    ensures groups[cur][k] in used && groups[cur][k] < |places|
  {
    BucketInFlatten(groups, cur);
    assert groups[cur][k] in groups[cur];
  }

  /** The greedy pick stated over the `used` set is the greedy pick over the placed indices. */
  lemma PickFromUsed(places: seq<Place>, dist: (Place, Place) -> nat, before: seq<nat>, used: set<nat>,
                     prev: Option<nat>, x: nat)
    requires forall j :: j in used <==> j in before
    requires x < |places| && x !in used
    requires prev.None? ==> forall j :: 0 <= j < x ==> j in used
    requires prev.Some? ==>
      prev.value < |places| &&
      forall j :: 0 <= j < |places| && j !in used ==>
        && dist(places[prev.value], places[x]) <= dist(places[prev.value], places[j])
        && (j < x ==> dist(places[prev.value], places[x]) < dist(places[prev.value], places[j]))
    ensures GreedyPick(places, dist, before, prev, x)
  {
  }

  lemma ShapeStep(groups: seq<seq<nat>>, cur: int, cap: nat, x: nat)
    requires Shape(groups, cur, cap) && |groups[cur]| < cap
    ensures Shape(groups[cur := groups[cur] + [x]], cur, cap)
  {
  }

  lemma TracksStep(places: seq<Place>, groups: seq<seq<nat>>, used: set<nat>, next: seq<seq<nat>>, x: nat)
    requires Tracks(places, groups, used)
    requires x < |places| && x !in used
    requires Flatten(next) == Flatten(groups) + [x]
    ensures Tracks(places, next, used + {x})
  {
    assert multiset(used + {x}) == multiset(used) + multiset{x};
  }

  /** Placing a greedy pick x into the current bucket keeps the loop state. */
  lemma PlaceNext(places: seq<Place>, dist: (Place, Place) -> nat, cap: nat,
                  groups: seq<seq<nat>>, cur: int, used: set<nat>, prev: Option<nat>, x: nat)
    requires FillState(places, dist, cap, groups, cur, used)
    requires |groups[cur]| < cap
    requires prev == if groups[cur] == [] then None else Some(groups[cur][|groups[cur]| - 1])
    requires x < |places| && x !in used
    requires prev.None? ==> forall j :: 0 <= j < x ==> j in used
    requires prev.Some? ==>
      prev.value < |places| &&
      forall j :: 0 <= j < |places| && j !in used ==>
        && dist(places[prev.value], places[x]) <= dist(places[prev.value], places[j])
        && (j < x ==> dist(places[prev.value], places[x]) < dist(places[prev.value], places[j]))
    ensures Flatten(groups[cur := groups[cur] + [x]]) == Flatten(groups) + [x]
    ensures FillState(places, dist, cap, groups[cur := groups[cur] + [x]], cur, used + {x})
  {
    PickFromUsed(places, dist, Flatten(groups), used, prev, x);
    GreedyExtend(places, dist, groups, cur, x);
    ShapeStep(groups, cur, cap, x);
    TracksStep(places, groups, used, groups[cur := groups[cur] + [x]], x);
  }

  /** When every index is used, the loop state gives the properties of the finished buckets. */
  lemma FillDone(places: seq<Place>, dist: (Place, Place) -> nat, cap: nat,
                 groups: seq<seq<nat>>, cur: int, used: set<nat>)
    requires FillState(places, dist, cap, groups, cur, used)
    requires |used| >= |places|
    ensures multiset(Flatten(groups)) == multiset(Iota(|places|))
    ensures forall g :: 0 <= g < |groups| ==> |groups[g]| <= cap
    ensures forall g, h :: 0 <= h < g < |groups| && groups[g] != [] ==> |groups[h]| == cap
    ensures Greedy(places, dist, groups)
  {
    UsedAll(used, |places|);
  }

  /**
   * One pass of the fill loop's body: move on to the next bucket when the current
   * one is full (staying on the last bucket), then put into the current bucket the
   * first unused index if it is empty, or else the unused index nearest to its last entry.
   */
  method FillStep(places: seq<Place>, dist: (Place, Place) -> nat, cap: nat,
                  buckets: seq<seq<nat>>, cur: int, used: set<nat>)
    returns (next: seq<seq<nat>>, nextCur: int, nextUsed: set<nat>)
    requires |buckets| >= 1 && cap == Capacity(|places|, |buckets|)
    requires FillState(places, dist, cap, buckets, cur, used)
    requires |used| < |places|
    ensures |next| == |buckets|
    ensures FillState(places, dist, cap, next, nextCur, nextUsed)
    ensures |nextUsed| == |used| + 1
    ensures exists x :: Flatten(next) == Flatten(buckets) + [x]
  {
    var n := |places|;
    var days := |buckets|;
    nextCur := cur;
    if |buckets[nextCur]| >= cap {
      AdvanceDay(places, dist, cap, buckets, nextCur, used);
      nextCur := nextCur + 1;
      if nextCur >= days {
        nextCur := days - 1;
      }
    }
    UnusedExists(used, n);
    if |buckets[nextCur]| == 0 {
      var idx := FirstUnused(n, used);
      PlaceNext(places, dist, cap, buckets, nextCur, used, None, idx);
      next := buckets[nextCur := buckets[nextCur] + [idx]];
      nextUsed := used + {idx};
    } else {
      var last := buckets[nextCur][|buckets[nextCur]| - 1];
      BucketEntryUsed(places, dist, cap, buckets, nextCur, used, |buckets[nextCur]| - 1);
      var minIdx := NearestUnused(places, dist, used, last);
      next, nextUsed := buckets, used;
      if minIdx != -1 {
        PlaceNext(places, dist, cap, buckets, nextCur, used, Some(last), minIdx);
        next := buckets[nextCur := buckets[nextCur] + [minIdx]];
        nextUsed := used + {minIdx};
      }
    }
  }

  /**
   * The `while (used.size < places.length)` loop: deals the indices of `places`
   * into `days` buckets of at most `Capacity(|places|, days)` entries.
   */
  method FillGroups(places: seq<Place>, days: nat, dist: (Place, Place) -> nat) returns (groups: seq<seq<nat>>)
    requires days >= 1
    ensures |groups| == days
    ensures multiset(Flatten(groups)) == multiset(Iota(|places|))
    ensures forall g :: 0 <= g < days ==> |groups[g]| <= Capacity(|places|, days)
    ensures forall g, h :: 0 <= h < g < days && groups[g] != [] ==> |groups[h]| == Capacity(|places|, days)
    ensures Greedy(places, dist, groups)
  {
    var cap := Capacity(|places|, days);
    var buckets: seq<seq<nat>> := seq(days, _ => []);
    var used: set<nat> := {};
    var cur: int := 0;
    FlattenTailEmpty(buckets, 0);
    while |used| < |places|
      invariant |buckets| == days
      invariant FillState(places, dist, cap, buckets, cur, used)
      decreases |places| - |used|
    {
      buckets, cur, used := FillStep(places, dist, cap, buckets, cur, used);
    }
    groups := buckets;
    FillDone(places, dist, cap, groups, cur, used);
  }

  // ---------------------------------------------------------------------------
  // The scheduler
  // ---------------------------------------------------------------------------

  /** The `groups.map((group, i) => ...)` step: day `i + 1` lists the names of bucket `i`. */
  function DayRoutes(places: seq<Place>, groups: seq<seq<nat>>): (routes: seq<RouteDay>)
    requires forall g :: 0 <= g < |groups| ==> AllBelow(groups[g], |places|)
    ensures |routes| == |groups|
    ensures forall i :: 0 <= i < |groups| ==>
      routes[i].day == i + 1 && |routes[i].places| == |groups[i]|
    ensures forall i, k :: 0 <= i < |groups| && 0 <= k < |groups[i]| ==>
      AllBelow(groups[i], |places|) && groups[i][k] < |places| &&
      routes[i].places[k] == places[groups[i][k]].name
  {
    seq(|groups|, i requires 0 <= i < |groups| => RouteDay(i + 1, NamesAt(places, groups[i])))
  }

  /** Buckets that deal out every index once, in full buckets, give routes naming every place once, in full days. */
  lemma DayRoutesOfBuckets(places: seq<Place>, groups: seq<seq<nat>>, cap: nat)
    requires multiset(Flatten(groups)) == multiset(Iota(|places|))
    requires forall g :: 0 <= g < |groups| ==> |groups[g]| <= cap
    requires forall g, h :: 0 <= h < g < |groups| && groups[g] != [] ==> |groups[h]| == cap
    ensures forall g :: 0 <= g < |groups| ==> AllBelow(groups[g], |places|)
    ensures multiset(AllNames(DayRoutes(places, groups))) == multiset(Names(places))
    ensures forall i :: 0 <= i < |groups| ==> |DayRoutes(places, groups)[i].places| <= cap
    ensures forall i, j :: 0 <= j < i < |groups| && DayRoutes(places, groups)[i].places != [] ==>
      |DayRoutes(places, groups)[j].places| == cap
  {
    BucketsInRange(places, groups);
    var routes := DayRoutes(places, groups);
    RoutesNameAll(places, groups, routes);
    forall i, j | 0 <= j < i < |groups| && routes[i].places != []
      ensures |routes[j].places| == cap
    {
      assert groups[i] != [];
    }
  }

  /**
   * `autoSchedule(landmarks, startDate, endDate, placeCoordinates)` with dates as
   * millisecond timestamps. `picks` records, per day, the indices into
   * `SelectedPlaces(landmarks, placeCoordinates)` that the day's names come from.
   */
  method Schedule(landmarks: seq<string>, startMs: int, endMs: int, placeCoordinates: seq<Place>,
                  dist: (Place, Place) -> nat)
    returns (routes: seq<RouteDay>, ghost picks: seq<seq<nat>>)
    ensures placeCoordinates == [] ==> routes == []
    ensures placeCoordinates != [] ==> |routes| == DayCount(startMs, endMs)
    ensures forall i :: 0 <= i < |routes| ==> routes[i].day == i + 1
    ensures placeCoordinates != [] ==>
      multiset(AllNames(routes)) == multiset(Names(SelectedPlaces(landmarks, placeCoordinates)))
    ensures forall i :: 0 <= i < |routes| ==>
      |routes[i].places| <= Capacity(|SelectedPlaces(landmarks, placeCoordinates)|, |routes|)
    ensures forall i, j :: 0 <= j < i < |routes| && routes[i].places != [] ==>
      |routes[j].places| == Capacity(|SelectedPlaces(landmarks, placeCoordinates)|, |routes|)
    ensures |picks| == |routes|
    ensures Greedy(SelectedPlaces(landmarks, placeCoordinates), dist, picks)
    ensures forall i :: 0 <= i < |routes| ==> AllBelow(picks[i], |SelectedPlaces(landmarks, placeCoordinates)|)
    ensures routes == DayRoutes(SelectedPlaces(landmarks, placeCoordinates), picks)
  {
    var days := DayCount(startMs, endMs);
    if placeCoordinates == [] {
      return [], [];
    }
    var places := SelectedPlaces(landmarks, placeCoordinates);
    var groups := FillGroups(places, days, dist);
    DayRoutesOfBuckets(places, groups, Capacity(|places|, days));
    routes := DayRoutes(places, groups);
    picks := groups;
  }
}
