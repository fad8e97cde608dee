/**
 * The JavaScript array idioms the trip planner uses to treat a list as a set:
 * `filter`, and "append unless `includes`".
 */
module Lists {

  /** No value occurs twice in s. */
  ghost predicate NoDuplicates<T(!new)>(s: seq<T>) {
    forall x :: multiset(s)[x] <= 1
  }

  /** `s.filter(keep)`: the elements of s that satisfy keep, in their original order. */
  function Filter<T(!new)>(s: seq<T>, keep: T -> bool): (r: seq<T>)
    ensures |r| <= |s|
    ensures forall x :: multiset(r)[x] == if keep(x) then multiset(s)[x] else 0
    ensures forall i :: 0 <= i < |r| ==> keep(r[i])
    ensures (forall i :: 0 <= i < |s| ==> keep(s[i])) ==> r == s
  {
    if s == [] then []
    else
      assert s == [s[0]] + s[1..];
      if keep(s[0]) then [s[0]] + Filter(s[1..], keep) else Filter(s[1..], keep)
  }

  /** Filtering distributes over concatenation, so the kept elements stay in their relative order. */
  lemma {:induction false} FilterConcat<T(!new)>(a: seq<T>, b: seq<T>, keep: T -> bool)
    ensures Filter(a + b, keep) == Filter(a, keep) + Filter(b, keep)
  {
    if a == [] {
      assert a + b == b;
    } else {
      assert (a + b)[0] == a[0];
      assert (a + b)[1..] == a[1..] + b;
      FilterConcat(a[1..], b, keep);
    }
  }

  /** `s.filter(y => y !== x)`: every occurrence of x removed, the rest kept in order. */
  function RemoveAll<T(==,!new)>(s: seq<T>, x: T): (r: seq<T>)
    ensures x !in r
    ensures forall y :: y != x ==> multiset(r)[y] == multiset(s)[y]
    ensures x !in s ==> r == s
    ensures NoDuplicates(s) ==> NoDuplicates(r)
  {
    Filter(s, y => y != x)
  }

  /**
   * The survivors of a removal stay in order: removing from a concatenation removes
   * from each part, and a single value survives iff it differs from x.
   */
  lemma RemoveAllInOrder<T(!new)>(a: seq<T>, b: seq<T>, x: T, y: T)
    ensures RemoveAll(a + b, x) == RemoveAll(a, x) + RemoveAll(b, x)
    ensures RemoveAll([y], x) == if y == x then [] else [y]
  {
    FilterConcat(a, b, z => z != x);
    assert [y][1..] == [];
  }

  /** `s.includes(x) ? s : [...s, x]`: x is appended unless it is already present. */
  function AddIfAbsent<T(==,!new)>(s: seq<T>, x: T): (r: seq<T>)
    ensures x in r
    ensures |r| == if x in s then |s| else |s| + 1
    ensures r[..|s|] == s
    ensures NoDuplicates(s) ==> NoDuplicates(r)
  {
    if x in s then s else s + [x]
  }

  /** Removing a value just appended to a list that lacked it gives back the list. */
  lemma RemoveAllAfterAppend<T(!new)>(s: seq<T>, x: T)
    requires x !in s
    ensures RemoveAll(s + [x], x) == s
  {
    FilterConcat(s, [x], y => y != x);
  }

  /** Adding a value twice is the same as adding it once. */
  lemma AddIfAbsentIdempotent<T(!new)>(s: seq<T>, x: T)
    ensures AddIfAbsent(AddIfAbsent(s, x), x) == AddIfAbsent(s, x)
  {
  }

  /** Removing a value twice is the same as removing it once. */
  lemma RemoveAllIdempotent<T(!new)>(s: seq<T>, x: T)
    ensures RemoveAll(RemoveAll(s, x), x) == RemoveAll(s, x)
  {
  }
}
