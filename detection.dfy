/**
 * The diff at the heart of every pass: walk the fetched products in order,
 * keep each one whose handle is not yet in the seen-set, and add its handle
 * to the set at once. The HTML scrapers' de-duplication is the same walk
 * started from an empty set.
 */
module Detection {
  import opened Catalog

  /** The seen-set and the products found new so far, in the order found. */
  datatype Pass = Pass(seen: set<string>, found: seq<Item>)

  /** `if p["handle"] not in seen: new_products.append(p); seen.add(p["handle"])` */
  function Step(pass: Pass, p: Item): Pass {
    if p.handle in pass.seen then pass else Pass(pass.seen + {p.handle}, pass.found + [p])
  }

  /** The state after walking `fetched` from the seen-set `seen`. */
  function Detect(seen: set<string>, fetched: seq<Item>): Pass
    decreases |fetched|
  {
    if fetched == [] then Pass(seen, [])
    else Step(Detect(seen, fetched[..|fetched| - 1]), fetched[|fetched| - 1])
  }

  lemma DetectSnoc(seen: set<string>, fetched: seq<Item>, x: Item)
    ensures Detect(seen, fetched + [x]) == Step(Detect(seen, fetched), x)
  {
    assert (fetched + [x])[..|fetched|] == fetched;
  }

  /** The first `j + 1` products are the first `j` and then product `j`. */
  lemma TakeNext(products: seq<Item>, j: nat)
    requires j < |products|
    ensures products[..j + 1] == products[..j] + [products[j]]
  {
  }

  /** Walking one more product of the current batch extends the walked list by that product. */
  lemma AppendNext(before: seq<Item>, products: seq<Item>, j: nat)
    requires j < |products|
    ensures before + products[..j + 1] == (before + products[..j]) + [products[j]]
  {
    assert products[..j + 1] == products[..j] + [products[j]];
  }

  /** `fetched[i]` is the first product with its handle, and that handle was not seen before the pass. */
  predicate FirstSighting(seen: set<string>, fetched: seq<Item>, i: nat)
    requires i < |fetched|
  {
    fetched[i].handle !in seen && forall j :: 0 <= j < i ==> fetched[j].handle != fetched[i].handle
  }

  /** Reference definition of a pass's result: the first sightings of unseen handles, in fetch order. */
  function FirstSightings(seen: set<string>, fetched: seq<Item>): seq<Item>
    decreases |fetched|
  {
    if fetched == [] then []
    else
      var n := |fetched| - 1;
      FirstSightings(seen, fetched[..n]) + (if FirstSighting(seen, fetched, n) then [fetched[n]] else [])
  }

  lemma HandleSetSnoc(items: seq<Item>, x: Item)
    ensures HandleSet(items + [x]) == HandleSet(items) + {x.handle}
  {
    assert forall y :: y in items + [x] <==> y in items || y == x;
  }

  /** After a pass the seen-set is the old one plus every fetched handle; nothing is removed. */
  lemma {:induction false} DetectSeen(seen: set<string>, fetched: seq<Item>)
    ensures Detect(seen, fetched).seen == seen + HandleSet(fetched)
    decreases |fetched|
  {
    if fetched != [] {
      var n := |fetched| - 1;
      DetectSeen(seen, fetched[..n]);
      assert fetched == fetched[..n] + [fetched[n]];
      HandleSetSnoc(fetched[..n], fetched[n]);
    }
  }

  /** The products a pass finds are exactly the first sightings of handles it had not seen. */
  lemma {:induction false} DetectIsFirstSightings(seen: set<string>, fetched: seq<Item>)
    ensures Detect(seen, fetched).found == FirstSightings(seen, fetched)
    decreases |fetched|
  {
    if fetched != [] {
      var n := |fetched| - 1;
      var prefix := fetched[..n];
      DetectIsFirstSightings(seen, prefix);
      DetectSeen(seen, prefix);
      assert FirstSightings(seen, prefix) == FirstSightings(seen, fetched[..n]);
      if fetched[n].handle in HandleSet(prefix) {
        var y :| y in prefix && y.handle == fetched[n].handle;
        var j :| 0 <= j < n && prefix[j] == y;
        assert !FirstSighting(seen, fetched, n);
      } else {
        assert forall j :: 0 <= j < n ==> fetched[j] == prefix[j] && prefix[j] in prefix;
      }
    }
  }

  /**
   * Every product a pass finds has a handle that was not seen before it,
   * no two of them share a handle, and together they carry exactly the
   * fetched handles that were not seen: none is missed.
   */
  lemma {:induction false} DetectFresh(seen: set<string>, fetched: seq<Item>)
    ensures var found := Detect(seen, fetched).found;
      && (forall x :: x in found ==> x in fetched && x.handle !in seen)
      && DistinctHandles(found)
      && HandleSet(found) == HandleSet(fetched) - seen
    decreases |fetched|
  {
    if fetched != [] {
      var n := |fetched| - 1;
      var prefix := fetched[..n];
      var before := Detect(seen, prefix);
      DetectFresh(seen, prefix);
      DetectSeen(seen, prefix);
      assert fetched == prefix + [fetched[n]];
      HandleSetSnoc(prefix, fetched[n]);
      if fetched[n].handle !in before.seen {
        var found := before.found + [fetched[n]];
        assert Detect(seen, fetched).found == found;
        HandleSetSnoc(before.found, fetched[n]);
        forall i, j | 0 <= i < j < |found| ensures found[i].handle != found[j].handle {
          if j == |found| - 1 {
            assert found[i] in before.found;
          }
        }
      } else {
        assert Detect(seen, fetched).found == before.found;
      }
    }
  }

  /** The seen-set grows by exactly one handle per product found. */
  lemma {:induction false} DetectCount(seen: set<string>, fetched: seq<Item>)
    ensures |Detect(seen, fetched).seen| == |seen| + |Detect(seen, fetched).found|
    decreases |fetched|
  {
    if fetched != [] {
      DetectCount(seen, fetched[..|fetched| - 1]);
    }
  }

  /** A pass over products whose handles are all seen finds nothing and changes nothing. */
  lemma {:induction false} DetectNothingNew(seen: set<string>, fetched: seq<Item>)
    requires HandleSet(fetched) <= seen
    ensures Detect(seen, fetched) == Pass(seen, [])
    decreases |fetched|
  {
    if fetched != [] {
      var n := |fetched| - 1;
      assert fetched == fetched[..n] + [fetched[n]];
      HandleSetSnoc(fetched[..n], fetched[n]);
      DetectNothingNew(seen, fetched[..n]);
    }
  }

  /** Running a pass again over an unchanged catalog finds nothing. */
  lemma DetectIdempotent(seen: set<string>, fetched: seq<Item>)
    ensures var after := Detect(seen, fetched).seen;
      Detect(after, fetched) == Pass(after, [])
  {
    DetectSeen(seen, fetched);
    DetectNothingNew(seen + HandleSet(fetched), fetched);
  }

  /** What a pass finds from a prefix of the fetched list is a prefix of what it finds from the whole. */
  lemma {:induction false} DetectPrefix(seen: set<string>, fetched: seq<Item>, m: nat)
    requires m <= |fetched|
    ensures var short, long := Detect(seen, fetched[..m]).found, Detect(seen, fetched).found;
      |short| <= |long| && long[..|short|] == short
    decreases |fetched|
  {
    if m < |fetched| {
      var n := |fetched| - 1;
      assert fetched[..n][..m] == fetched[..m];
      DetectPrefix(seen, fetched[..n], m);
    } else {
      assert fetched[..m] == fetched;
    }
  }

  /**
   * The products announced one by one over a run of passes, each pass
   * starting from the seen-set the previous one left. A pass that starts
   * from an empty set announces nothing item by item: it sends one summary.
   */
  function Announced(seen: set<string>, passes: seq<seq<Item>>): seq<Item>
    decreases |passes|
  {
    if passes == [] then []
    else
      var pass := Detect(seen, passes[0]);
      (if seen == {} then [] else pass.found) + Announced(pass.seen, passes[1..])
  }

  lemma DistinctConcat(a: seq<Item>, b: seq<Item>)
    requires DistinctHandles(a) && DistinctHandles(b)
    requires forall x, y :: x in a && y in b ==> x.handle != y.handle
    ensures DistinctHandles(a + b)
  {
    forall i, j | 0 <= i < j < |a + b| ensures (a + b)[i].handle != (a + b)[j].handle {
      if i < |a| && j >= |a| {
        assert (a + b)[i] in a && (a + b)[j] in b;
      }
    }
  }

  /** Over any run of passes, no handle is announced twice, and none that was seen at the start. */
  lemma {:induction false} NoDuplicateAnnouncement(seen: set<string>, passes: seq<seq<Item>>)
    ensures DistinctHandles(Announced(seen, passes))
    ensures forall x :: x in Announced(seen, passes) ==> x.handle !in seen
    decreases |passes|
  {
    if passes != [] {
      var pass := Detect(seen, passes[0]);
      var now := if seen == {} then [] else pass.found;
      var later := Announced(pass.seen, passes[1..]);
      NoDuplicateAnnouncement(pass.seen, passes[1..]);
      DetectFresh(seen, passes[0]);
      DetectSeen(seen, passes[0]);
      forall x, y | x in now && y in later ensures x.handle != y.handle {
        assert x.handle in HandleSet(passes[0]);
      }
      DistinctConcat(now, later);
      forall x | x in now + later ensures x.handle !in seen {
        if x in later {
          assert seen <= pass.seen;
        }
      }
    }
  }

  /** What the first pass indexes silently is never announced later. */
  lemma FirstRunNeverAnnounced(passes: seq<seq<Item>>)
    requires passes != []
    ensures forall x :: x in Announced({}, passes) ==> x.handle !in HandleSet(passes[0])
  {
    DetectSeen({}, passes[0]);
    NoDuplicateAnnouncement(Detect({}, passes[0]).seen, passes[1..]);
  }
}
