/**
 * Services/FavoritesStore.swift: the in-memory list of saved places, capped at ten entries,
 * without repeats, with removal by id and drag-to-reorder.
 */
module FavoritesStore {
  import opened Wrappers
  import opened Models

  const MaxFavorites: nat := 10

  /** No element occurs twice. */
  ghost predicate Distinct(s: seq<Location>) {
    forall x :: multiset(s)[x] <= 1
  }

  /** Distinct, read on positions: two different indices hold different elements. */
  lemma DistinctMeansNoRepeats(s: seq<Location>, i: nat, j: nat)
    requires Distinct(s) && i < j < |s|
    ensures s[i] != s[j]
  {
    RepeatCounts(s, i, j);
  }

  lemma RepeatCounts<T>(s: seq<T>, i: nat, j: nat)
    requires i < j < |s|
    ensures s[i] == s[j] ==> multiset(s)[s[i]] >= 2
  {
    assert s == s[..i] + [s[i]] + s[i + 1..j] + [s[j]] + s[j + 1..];
  }

  /** The list after `removeAll { $0.id == id }`. */
  function RemoveById(s: seq<Location>, id: string): (r: seq<Location>)
    ensures |r| <= |s|
    ensures forall k :: 0 <= k < |r| ==> r[k].id != id
    ensures forall x :: x in r <==> x in s && x.id != id
  {
    if s == [] then []
    else (if s[0].id == id then [] else [s[0]]) + RemoveById(s[1..], id)
  }

  /** Removal works piecewise, so the survivors keep their relative order. */
  lemma {:induction false} RemoveByIdAppend(a: seq<Location>, b: seq<Location>, id: string)
    ensures RemoveById(a + b, id) == RemoveById(a, id) + RemoveById(b, id)
  {
    if a == [] {
      assert a + b == b;
    } else {
      assert (a + b)[1..] == a[1..] + b;
      RemoveByIdAppend(a[1..], b, id);
    }
  }

  /** An id nobody has changes nothing. */
  lemma {:induction false} RemoveAbsentId(s: seq<Location>, id: string)
    requires forall k :: 0 <= k < |s| ==> s[k].id != id
    ensures RemoveById(s, id) == s
  {
    if s != [] {
      RemoveAbsentId(s[1..], id);
    }
  }

  /** Removal only drops elements. */
  lemma {:induction false} RemoveByIdSubMultiset(s: seq<Location>, id: string)
    ensures multiset(RemoveById(s, id)) <= multiset(s)
  {
    if s != [] {
      RemoveByIdSubMultiset(s[1..], id);
      assert s == [s[0]] + s[1..];
    }
  }

  /** The elements of `s[lo..hi]` whose index is (`inSource`) or is not (`!inSource`) in `source`. */
  function Pick<T>(s: seq<T>, source: set<nat>, inSource: bool, lo: nat, hi: nat): seq<T>
    requires lo <= hi <= |s|
    decreases hi - lo
  {
    if lo == hi then []
    else Pick(s, source, inSource, lo, hi - 1) + (if (hi - 1 in source) == inSource then [s[hi - 1]] else [])
  }

  /**
   * `move(fromOffsets: source, toOffset: destination)`: the elements at `source`, in their
   * order, end up just before the element that was at `destination`; the others keep their order.
   */
  function Moved<T>(s: seq<T>, source: set<nat>, destination: nat): seq<T>
    requires destination <= |s|
  {
    Pick(s, source, false, 0, destination) + Pick(s, source, true, 0, |s|) + Pick(s, source, false, destination, |s|)
  }

  lemma {:induction false} PickSplit<T>(s: seq<T>, source: set<nat>, inSource: bool, lo: nat, mid: nat, hi: nat)
    requires lo <= mid <= hi <= |s|
    ensures Pick(s, source, inSource, lo, hi) == Pick(s, source, inSource, lo, mid) + Pick(s, source, inSource, mid, hi)
    decreases hi - mid
  {
    if mid < hi {
      PickSplit(s, source, inSource, lo, mid, hi - 1);
    }
  }

  /** Appending `x` to exactly one of two complementary parts appends it to their union. */
  lemma MultisetStep<T>(t: seq<T>, f: seq<T>, x: T, toT: bool, toF: bool, prev: seq<T>, whole: seq<T>)
    requires toT == !toF
    requires multiset(t) + multiset(f) == multiset(prev)
    requires whole == prev + [x]
    ensures multiset(t + (if toT then [x] else [])) + multiset(f + (if toF then [x] else [])) == multiset(whole)
  {
  }

  lemma {:induction false} PickPartition<T>(s: seq<T>, source: set<nat>, lo: nat, hi: nat)
    requires lo <= hi <= |s|
    ensures multiset(Pick(s, source, true, lo, hi)) + multiset(Pick(s, source, false, lo, hi)) == multiset(s[lo..hi])
    decreases hi - lo
  {
    if lo < hi {
      PickPartition(s, source, lo, hi - 1);
      assert s[lo..hi] == s[lo..hi - 1] + [s[hi - 1]];
      MultisetStep(Pick(s, source, true, lo, hi - 1), Pick(s, source, false, lo, hi - 1), s[hi - 1],
                   (hi - 1 in source) == true, (hi - 1 in source) == false, s[lo..hi - 1], s[lo..hi]);
    }
  }

  /** Regrouping two partitions of the halves of a sequence. */
  lemma RegroupHalves<T>(a: seq<T>, b1: seq<T>, b2: seq<T>, c: seq<T>, left: seq<T>, right: seq<T>)
    requires multiset(b1) + multiset(a) == multiset(left)
    requires multiset(b2) + multiset(c) == multiset(right)
    ensures multiset(a + (b1 + b2) + c) == multiset(left + right)
    ensures |a + (b1 + b2) + c| == |left + right|
  {
    assert |multiset(a + (b1 + b2) + c)| == |a + (b1 + b2) + c|;
  }

  /** `move` is a permutation. */
  lemma MovedIsPermutation<T>(s: seq<T>, source: set<nat>, destination: nat)
    requires destination <= |s|
    ensures |Moved(s, source, destination)| == |s|
    ensures multiset(Moved(s, source, destination)) == multiset(s)
  {
    PickSplit(s, source, true, 0, destination, |s|);
    PickPartition(s, source, 0, destination);
    PickPartition(s, source, destination, |s|);
    RegroupHalves(Pick(s, source, false, 0, destination), Pick(s, source, true, 0, destination),
                  Pick(s, source, true, destination, |s|), Pick(s, source, false, destination, |s|),
                  s[0..destination], s[destination..|s|]);
    assert s == s[0..destination] + s[destination..|s|];
  }

  /** Moving nothing changes nothing. */
  lemma {:induction false} PickNothing<T>(s: seq<T>, lo: nat, hi: nat)
    requires lo <= hi <= |s|
    ensures Pick(s, {}, false, lo, hi) == s[lo..hi]
    ensures Pick(s, {}, true, lo, hi) == []
    decreases hi - lo
  {
    if lo < hi {
      PickNothing(s, lo, hi - 1);
      assert s[lo..hi] == s[lo..hi - 1] + [s[hi - 1]];
    }
  }

  lemma MoveNothing<T>(s: seq<T>, destination: nat)
    requires destination <= |s|
    ensures Moved(s, {}, destination) == s
  {
    PickNothing(s, 0, destination);
    PickNothing(s, 0, |s|);
    PickNothing(s, destination, |s|);
    assert s == s[0..destination] + s[destination..|s|];
  }

  /** Dragging the first of three rows below the last. */
  lemma MoveFirstToEnd<T>(x: T, y: T, z: T)
    ensures Moved([x, y, z], {0}, 3) == [y, z, x]
  {
    assert Pick([x, y, z], {0}, false, 0, 1) == [];
  }

  /** The `@Published favorites` array of FavoritesStore. */
  class FavoritesStore {
    var favorites: seq<Location>

    /** At most ten entries, none repeated. */
    ghost predicate Valid()
      reads this
    {
      |favorites| <= MaxFavorites && Distinct(favorites)
    }

    /** `init()`: the list read back from storage, if any, else empty. */
    constructor (stored: Option<seq<Location>>)
      ensures favorites == stored.GetOr([])
      ensures stored.None? ==> Valid()
    {
      favorites := stored.GetOr([]);
    }

    /** `add(_:)`: append unless the place is already saved or the list is full. */
    method Add(loc: Location)
      modifies this
      ensures (favorites ==
        if loc in old(favorites) || |old(favorites)| >= MaxFavorites then old(favorites)
        else old(favorites) + [loc])
      ensures old(Valid()) ==> Valid()
    {
      if loc in favorites {
        return;
      }
      if |favorites| >= MaxFavorites {
        return;
      }
      favorites := favorites + [loc];
    }

    /** `remove(_:)`: drop every entry with the same id. */
    method Remove(loc: Location)
      modifies this
      ensures favorites == RemoveById(old(favorites), loc.id)
      ensures old(Valid()) ==> Valid()
    {
      RemoveByIdSubMultiset(favorites, loc.id);
      favorites := RemoveById(favorites, loc.id);
    }

    /** `canAddMore()`. */
    method CanAddMore() returns (b: bool)
      ensures b <==> |favorites| < MaxFavorites
    {
      b := |favorites| < MaxFavorites;
    }

    /** `move(from:to:)`, with offsets as SwiftUI's `onMove` supplies them. */
    method Move(source: set<nat>, destination: nat)
      requires forall i :: i in source ==> i < |favorites|
      requires destination <= |favorites|
      modifies this
      ensures favorites == Moved(old(favorites), source, destination)
      ensures multiset(favorites) == multiset(old(favorites))
      ensures old(Valid()) ==> Valid()
    {
      MovedIsPermutation(favorites, source, destination);
      favorites := Moved(favorites, source, destination);
    }
  }
}
