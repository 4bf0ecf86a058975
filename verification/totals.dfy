/**
  The world aggregator: a list of buckets, one per kind of stack seen so far,
  kept in first-inserted order and merged into by linear search.
 */
module WorldTotals {
  import opened Wrappers
  import opened Records

  /** The world totals: buckets whose slot is `Unaddressed`. */
  type Totals = seq<Item>

  /** The bucket a stack founds when no existing bucket has its kind. */
  function Bucket(x: Item): (b: Item)
    ensures SameKind(b, x) && b.count == x.count && b.slot == Unaddressed
  {
    Item(x.fullName, Unaddressed, x.count, x.damage, x.lore)
  }

  /** `i` is the first bucket of `t` that has the kind of `x`. */
  predicate FirstMatch(t: Totals, x: Item, i: int) {
    0 <= i < |t| && SameKind(x, t[i]) && forall j :: 0 <= j < i ==> !SameKind(x, t[j])
  }

  /** No bucket of `t` has the kind of `x`. */
  predicate NoMatch(t: Totals, x: Item) {
    forall j :: 0 <= j < |t| ==> !SameKind(x, t[j])
  }

  /** No two buckets have the same kind. */
  predicate Distinct(t: Totals) {
    forall i, j :: 0 <= i < j < |t| ==> !SameKind(t[i], t[j])
  }

  /** The linear search for the first bucket of the kind of `x`. */
  function FindBucket(t: Totals, x: Item): (r: Option<nat>)
    ensures r.Some? ==> FirstMatch(t, x, r.value)
    ensures r.None? ==> NoMatch(t, x)
  {
    if t == [] then None
    else if SameKind(x, t[0]) then Some(0)
    else
      match FindBucket(t[1..], x)
      case None => None
      case Some(i) => Some(i + 1)
  }

  /**
    `update_world_totals`: add the count of `x` to the first bucket of its
    kind, or append a new bucket for it when there is none.
   */
  function UpdateWorldTotals(t: Totals, x: Item): (r: Totals)
    ensures NoMatch(t, x) ==> r == t + [Bucket(x)]
    ensures forall i :: FirstMatch(t, x, i) ==>
      && |r| == |t|
      && r[i] == t[i].(count := t[i].count + x.count)
      && (forall j :: 0 <= j < |t| && j != i ==> r[j] == t[j])
  {
    match FindBucket(t, x)
    case None => t + [Bucket(x)]
    case Some(i) => t[i := t[i].(count := t[i].count + x.count)]
  }

  // ----- sums over the totals -----

  /** The sum of the counts of all buckets. */
  function Total(t: Totals): int {
    if t == [] then 0 else Total(t[..|t| - 1]) + t[|t| - 1].count
  }

  /** The sum of the counts of the buckets of kind `k`. */
  function KindCount(t: Totals, k: Kind): int {
    if t == [] then 0
    else KindCount(t[..|t| - 1], k) + (if KindOf(t[|t| - 1]) == k then t[|t| - 1].count else 0)
  }

  /** The sum of the counts of a sequence of stacks. */
  function CountSum(xs: seq<Item>): int {
    if xs == [] then 0 else xs[0].count + CountSum(xs[1..])
  }

  /** The sum of the counts of the stacks of kind `k` in a sequence of stacks. */
  function KindSum(xs: seq<Item>, k: Kind): int {
    if xs == [] then 0 else (if KindOf(xs[0]) == k then xs[0].count else 0) + KindSum(xs[1..], k)
  }

  lemma TotalAppend(t: Totals, b: Item)
    ensures Total(t + [b]) == Total(t) + b.count
    ensures KindCount(t + [b], KindOf(b)) == KindCount(t, KindOf(b)) + b.count
    ensures forall k :: k != KindOf(b) ==> KindCount(t + [b], k) == KindCount(t, k)
  {
  }

  /** Replacing one bucket by one of the same kind moves both sums by the change in count. */
  lemma {:induction false} TotalReplace(t: Totals, i: nat, b: Item)
    requires i < |t| && KindOf(b) == KindOf(t[i])
    ensures Total(t[i := b]) == Total(t) - t[i].count + b.count
    ensures forall k :: KindCount(t[i := b], k) == KindCount(t, k) + (if KindOf(b) == k then b.count - t[i].count else 0)
  {
    var u := t[i := b];
    var n := |t| - 1;
    if i == n {
      assert u[..n] == t[..n];
    } else {
      assert u[..n] == t[..n][i := b];
      TotalReplace(t[..n], i, b);
    }
  }

  // ----- properties of one merge -----

  /** Conservation: one merge grows the sum of all counts by exactly the count merged. */
  lemma UpdateConserves(t: Totals, x: Item)
    ensures Total(UpdateWorldTotals(t, x)) == Total(t) + x.count
  {
    match FindBucket(t, x)
    case None => TotalAppend(t, Bucket(x));
    case Some(i) => TotalReplace(t, i, t[i].(count := t[i].count + x.count));
  }

  /** Per kind: one merge grows the kind of `x` by its count and leaves every other kind alone. */
  lemma UpdateTallies(t: Totals, x: Item, k: Kind)
    ensures KindCount(UpdateWorldTotals(t, x), k) ==
      KindCount(t, k) + (if KindOf(x) == k then x.count else 0)
  {
    match FindBucket(t, x)
    case None => TotalAppend(t, Bucket(x));
    case Some(i) => TotalReplace(t, i, t[i].(count := t[i].count + x.count));
  }

  /**
    A merge keeps the buckets pairwise distinct, leaves exactly one bucket of
    the kind of `x`, and keeps every existing bucket's kind at its position.
   */
  lemma UpdateKeepsDistinct(t: Totals, x: Item)
    requires Distinct(t)
    ensures Distinct(UpdateWorldTotals(t, x))
    ensures |UpdateWorldTotals(t, x)| >= |t|
    ensures forall i :: 0 <= i < |t| ==> KindOf(UpdateWorldTotals(t, x)[i]) == KindOf(t[i])
    ensures exists i :: 0 <= i < |UpdateWorldTotals(t, x)| && SameKind(x, UpdateWorldTotals(t, x)[i])
  {
    var r := UpdateWorldTotals(t, x);
    match FindBucket(t, x)
    case None =>
      assert SameKind(x, r[|t|]);
      forall i, j | 0 <= i < j < |r|
        ensures !SameKind(r[i], r[j])
      {
        if j == |t| {
          assert !SameKind(x, t[i]);
        }
      }
    case Some(i) =>
      assert SameKind(x, r[i]);
  }

  // ----- merging a sequence of stacks -----

  /** Merge the stacks of `xs` into `t`, one after the other. */
  function MergeAll(t: Totals, xs: seq<Item>): Totals
    decreases |xs|
  {
    if xs == [] then t else MergeAll(UpdateWorldTotals(t, xs[0]), xs[1..])
  }

  lemma MergeAllAppendOne(t: Totals, x: Item, xs: seq<Item>)
    ensures MergeAll(t, [x] + xs) == MergeAll(UpdateWorldTotals(t, x), xs)
  {
  }

  /** Merging two batches one after the other is merging their concatenation. */
  lemma {:induction false} MergeAllConcat(t: Totals, a: seq<Item>, b: seq<Item>)
    ensures MergeAll(t, a + b) == MergeAll(MergeAll(t, a), b)
    decreases |a|
  {
    if a == [] {
      assert a + b == b;
    } else {
      assert (a + b)[0] == a[0] && (a + b)[1..] == a[1..] + b;
      MergeAllConcat(UpdateWorldTotals(t, a[0]), a[1..], b);
    }
  }

  /** Conservation over a sequence: the sum of all counts grows by the counts merged. */
  lemma {:induction false} MergeAllConserves(t: Totals, xs: seq<Item>)
    ensures Total(MergeAll(t, xs)) == Total(t) + CountSum(xs)
    decreases |xs|
  {
    if xs != [] {
      UpdateConserves(t, xs[0]);
      MergeAllConserves(UpdateWorldTotals(t, xs[0]), xs[1..]);
    }
  }

  /**
    Per kind over a sequence: each kind's count grows by exactly the counts of
    the merged stacks of that kind (the aggregator's counting invariant).
   */
  lemma {:induction false} MergeAllTallies(t: Totals, xs: seq<Item>, k: Kind)
    ensures KindCount(MergeAll(t, xs), k) == KindCount(t, k) + KindSum(xs, k)
    decreases |xs|
  {
    if xs != [] {
      UpdateTallies(t, xs[0], k);
      MergeAllTallies(UpdateWorldTotals(t, xs[0]), xs[1..], k);
    }
  }

  /** Merging any sequence keeps the buckets distinct and never removes a bucket. */
  lemma {:induction false} MergeAllKeepsDistinct(t: Totals, xs: seq<Item>)
    requires Distinct(t)
    ensures Distinct(MergeAll(t, xs))
    ensures |MergeAll(t, xs)| >= |t|
    ensures forall i :: 0 <= i < |t| ==> KindOf(MergeAll(t, xs)[i]) == KindOf(t[i])
    decreases |xs|
  {
    if xs != [] {
      var u := UpdateWorldTotals(t, xs[0]);
      UpdateKeepsDistinct(t, xs[0]);
      MergeAllKeepsDistinct(u, xs[1..]);
    }
  }

  /**
    Merging into a single bucket stacks that all share its kind yields that one
    bucket, grown by the sum of their counts.
   */
  lemma {:induction false} MergeIntoOneBucket(b: Item, xs: seq<Item>)
    requires forall i :: 0 <= i < |xs| ==> SameKind(xs[i], b)
    ensures MergeAll([b], xs) == [b.(count := b.count + CountSum(xs))]
    decreases |xs|
  {
    if xs != [] {
      assert FirstMatch([b], xs[0], 0);
      var b' := b.(count := b.count + xs[0].count);
      assert UpdateWorldTotals([b], xs[0]) == [b'];
      MergeIntoOneBucket(b', xs[1..]);
    }
  }

  /**
    From empty totals, N stacks of one kind give exactly one bucket, whose
    count is the sum of the N counts.
   */
  lemma {:induction false} MergeSameKindFromEmpty(xs: seq<Item>)
    requires |xs| > 0
    requires forall i :: 0 <= i < |xs| ==> SameKind(xs[i], xs[0])
    ensures MergeAll([], xs) == [Bucket(xs[0]).(count := CountSum(xs))]
  {
    var b := Bucket(xs[0]);
    var rest := xs[1..];
    assert NoMatch([], xs[0]);
    assert UpdateWorldTotals([], xs[0]) == [b];
    assert MergeAll([], xs) == MergeAll([b], rest);
    forall i | 0 <= i < |rest|
      ensures SameKind(rest[i], b)
    {
      assert rest[i] == xs[i + 1];
    }
    MergeIntoOneBucket(b, rest);
    assert CountSum(xs) == b.count + CountSum(rest);
  }
}
