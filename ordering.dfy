/**
 * `items.sort(key=lambda x: x.get("created_at", ""), reverse=True)`: a stable
 * sort, newest first, comparing the raw `created_at` strings with Python's
 * string order (not the parsed timestamps).
 */
module Ordering {
  import opened Text
  import opened Catalog

  /** No entry's `created_at` string is below that of an entry after it. */
  predicate SortedNewestFirst(items: seq<Item>) {
    forall i, j :: 0 <= i < j < |items| ==> !Less(items[i].createdAt, items[j].createdAt)
  }

  lemma InsertFrontSorted(sorted: seq<Item>, x: Item)
    requires SortedNewestFirst(sorted) && sorted != []
    requires Less(sorted[0].createdAt, x.createdAt)
    ensures SortedNewestFirst([x] + sorted)
  {
    forall j | 0 <= j < |sorted|
      ensures !Less(x.createdAt, sorted[j].createdAt)
    {
      if Less(x.createdAt, sorted[j].createdAt) {
        LessTransitive(sorted[0].createdAt, x.createdAt, sorted[j].createdAt);
        LessIrreflexive(sorted[0].createdAt);
      }
    }
  }

  /** Places `x` after every entry whose key is not below its own, so that equal keys keep their order. */
  function Insert(sorted: seq<Item>, x: Item): (r: seq<Item>)
    ensures multiset(r) == multiset(sorted) + multiset{x}
  {
    if sorted == [] then [x]
    else if Less(sorted[0].createdAt, x.createdAt) then [x] + sorted
    else
      assert sorted == [sorted[0]] + sorted[1..];
      [sorted[0]] + Insert(sorted[1..], x)
  }

  lemma {:induction false} InsertSorted(sorted: seq<Item>, x: Item)
    requires SortedNewestFirst(sorted)
    ensures SortedNewestFirst(Insert(sorted, x))
    decreases |sorted|
  {
    if sorted == [] {
    } else if Less(sorted[0].createdAt, x.createdAt) {
      InsertFrontSorted(sorted, x);
    } else {
      var rest := Insert(sorted[1..], x);
      InsertSorted(sorted[1..], x);
      forall k | 0 <= k < |rest| ensures !Less(sorted[0].createdAt, rest[k].createdAt) {
        assert rest[k] in multiset(rest);
        if rest[k] != x {
          assert rest[k] in sorted[1..];
        }
      }
      assert Insert(sorted, x) == [sorted[0]] + rest;
    }
  }

  /** Sorts newest first; entries with equal `created_at` keep their input order. */
  function SortNewestFirst(items: seq<Item>): (r: seq<Item>)
    ensures SortedNewestFirst(r)
    ensures multiset(r) == multiset(items)
    decreases |items|
  {
    if items == [] then []
    else
      var n := |items| - 1;
      assert items == items[..n] + [items[n]];
      var prefix := SortNewestFirst(items[..n]);
      InsertSorted(prefix, items[n]);
      Insert(prefix, items[n])
  }

  /** Inserting after the head adds nothing that shares the head's handle, when the rest did not. */
  lemma InsertOnlyAdds(sorted: seq<Item>, x: Item)
    requires sorted != []
    requires DistinctHandles(sorted) && x.handle != sorted[0].handle
    ensures forall y :: y in Insert(sorted[1..], x) ==> y.handle != sorted[0].handle
  {
    var rest := Insert(sorted[1..], x);
    forall y | y in rest ensures y.handle != sorted[0].handle {
      assert y in multiset(rest);
      if y != x {
        var m :| 0 <= m < |sorted[1..]| && sorted[1..][m] == y;
        assert sorted[m + 1] == y;
      }
    }
  }

  lemma {:induction false} InsertKeepsDistinct(sorted: seq<Item>, x: Item)
    requires DistinctHandles(sorted)
    requires x.handle !in HandleSet(sorted)
    ensures DistinctHandles(Insert(sorted, x))
    decreases |sorted|
  {
    if sorted != [] && !Less(sorted[0].createdAt, x.createdAt) {
      var rest := Insert(sorted[1..], x);
      assert HandleSet(sorted[1..]) <= HandleSet(sorted);
      InsertKeepsDistinct(sorted[1..], x);
      InsertOnlyAdds(sorted, x);
      assert Insert(sorted, x) == [sorted[0]] + rest;
    }
  }

  /** A handle that does not occur in a list does not occur in its sorted form either. */
  lemma SortKeepsHandles(items: seq<Item>, h: string)
    requires forall k :: 0 <= k < |items| ==> items[k].handle != h
    ensures h !in HandleSet(SortNewestFirst(items))
  {
    var sorted := SortNewestFirst(items);
    forall y | y in sorted ensures y.handle != h {
      assert y in multiset(items);
      var m :| 0 <= m < |items| && items[m] == y;
    }
  }

  /** Sorting never brings two entries with the same handle together that were not there before. */
  lemma {:induction false} SortKeepsDistinct(items: seq<Item>)
    requires DistinctHandles(items)
    ensures DistinctHandles(SortNewestFirst(items))
    decreases |items|
  {
    if items != [] {
      var n := |items| - 1;
      var prefix := SortNewestFirst(items[..n]);
      assert DistinctHandles(items[..n]);
      SortKeepsDistinct(items[..n]);
      SortKeepsHandles(items[..n], items[n].handle);
      InsertKeepsDistinct(prefix, items[n]);
    }
  }

  /** `items[:n]` for a count that is not negative. */
  function Take(items: seq<Item>, n: nat): (r: seq<Item>)
    ensures |r| == if |items| < n then |items| else n
    ensures r == items[..|r|]
  {
    if |items| <= n then items else items[..n]
  }

  /** Two products with different timestamps come out newest first. */
  lemma SortTwo(x: Item, y: Item)
    requires Less(x.createdAt, y.createdAt)
    ensures SortNewestFirst([x, y]) == [y, x]
  {
    assert [x, y][..1] == [x] && [x][..0] == [];
    assert SortNewestFirst([x]) == [x];
    assert Insert([x], y) == [y, x];
  }

  /**
   * Cutting a newest-first list after `n` entries keeps it newest first,
   * keeps only entries it had, and leaves out none newer than one kept.
   */
  lemma TakeNewest(sorted: seq<Item>, n: nat)
    requires SortedNewestFirst(sorted)
    ensures var r := Take(sorted, n);
      && SortedNewestFirst(r)
      && multiset(r) <= multiset(sorted)
      && (forall i, j :: 0 <= i < |r| <= j < |sorted| ==> !Less(r[i].createdAt, sorted[j].createdAt))
  {
    var r := Take(sorted, n);
    assert sorted == r + sorted[|r|..];
    assert multiset(sorted) == multiset(r) + multiset(sorted[|r|..]);
  }

  /** In a newest-first list, entries without a `created_at` (the HTML fallback's) come after all others. */
  lemma UndatedLast(items: seq<Item>)
    requires SortedNewestFirst(items)
    ensures forall i, j :: 0 <= i < j < |items| && items[i].createdAt == "" ==> items[j].createdAt == ""
  {
  }
}
