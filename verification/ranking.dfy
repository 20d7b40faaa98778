/** The ranking stage: a stable sort by (load, distance), the two strict
    ceilings, and the truncation to the requested count. */
module Ranking {
  import opened Seqs
  import opened Records

  /** The ranking key of `a` is at most that of `b`: the pair (load, distance)
      compared lexicographically, as tuples compare. */
  predicate KeyLe(a: Server, b: Server)
    requires Enriched(a) && Enriched(b)
  {
    Load(a) < Load(b) || (Load(a) == Load(b) && Distance(a) <= Distance(b))
  }

  /** `a` and `b` have the same ranking key. */
  predicate SameKey(a: Server, b: Server) {
    a.load == b.load && a.location.distance == b.location.distance
  }

  /** The records whose key equals that of `k`. */
  function SameKeyAs(k: Server): Server -> bool {
    (s: Server) => SameKey(s, k)
  }

  /** Ascending by ranking key. */
  predicate Sorted(l: seq<Server>)
    requires AllEnriched(l)
  {
    forall i, j | 0 <= i < j < |l| :: KeyLe(l[i], l[j])
  }

  /** `x` placed before the first record whose key is not below its own. */
  function Insert(x: Server, l: seq<Server>): (r: seq<Server>)
    requires Enriched(x) && AllEnriched(l)
    ensures multiset(r) == multiset(l) + multiset{x}
    ensures AllEnriched(r)
  {
    if l == [] then [x]
    else if KeyLe(x, l[0]) then [x] + l
    else
      assert l == [l[0]] + l[1..];
      var r := [l[0]] + Insert(x, l[1..]);
      assert forall y | y in r :: y in multiset(r);
      r
  }

  /** A record whose key is at most every key of a sorted sequence can be put
      in front of it. */
  lemma SortedCons(h: Server, t: seq<Server>)
    requires Enriched(h) && AllEnriched(t) && Sorted(t)
    requires forall y | y in t :: KeyLe(h, y)
    ensures AllEnriched([h] + t) && Sorted([h] + t)
  {
    var r := [h] + t;
    forall i, j | 0 <= i < j < |r| ensures KeyLe(r[i], r[j]) {
      assert r[j] == t[j - 1];
      if i > 0 {
        assert r[i] == t[i - 1];
      }
    }
  }

  /** Inserting into a sorted sequence keeps it sorted. */
  lemma {:induction false} InsertSorted(x: Server, l: seq<Server>)
    requires Enriched(x) && AllEnriched(l) && Sorted(l)
    ensures Sorted(Insert(x, l))
  {
    if l == [] {
    } else if KeyLe(x, l[0]) {
      forall y | y in l ensures KeyLe(x, y) {
        var j :| 0 <= j < |l| && l[j] == y;
        assert j == 0 || KeyLe(l[0], l[j]);
      }
      SortedCons(x, l);
    } else {
      var t := l[1..];
      assert AllEnriched(t) && Sorted(t);
      InsertSorted(x, t);
      var it := Insert(x, t);
      forall y | y in it ensures KeyLe(l[0], y) {
        assert y in multiset(it);
        if y != x {
          assert y in t;
          var j :| 0 <= j < |t| && t[j] == y;
          assert l[j + 1] == y;
        }
      }
      SortedCons(l[0], it);
    }
  }

  /** The stable sort by ranking key: each record is inserted, back to front,
      in front of the already-sorted records with the same key. */
  function SortByRank(l: seq<Server>): (r: seq<Server>)
    requires AllEnriched(l)
    ensures multiset(r) == multiset(l)
    ensures AllEnriched(r)
    ensures Sorted(r)
  {
    if l == [] then []
    else
      assert l == [l[0]] + l[1..];
      var rest := SortByRank(l[1..]);
      InsertSorted(l[0], rest);
      Insert(l[0], rest)
  }

  /** Inserting into a sorted sequence leaves each key's records in their
      order, with `x` first among those sharing its key. */
  lemma {:induction false} InsertStable(x: Server, l: seq<Server>, k: Server)
    requires Enriched(x) && AllEnriched(l) && Sorted(l)
    ensures Filter(Insert(x, l), SameKeyAs(k)) ==
            (if SameKey(x, k) then [x] else []) + Filter(l, SameKeyAs(k))
  {
    if l != [] && !KeyLe(x, l[0]) {
      assert l[1..] == l[1..] && AllEnriched(l[1..]) && Sorted(l[1..]);
      InsertStable(x, l[1..], k);
      var r := Insert(x, l);
      assert r == [l[0]] + Insert(x, l[1..]);
      assert !(SameKey(l[0], k) && SameKey(x, k));
    }
  }

  /** The sort is stable: for every key, the records with that key appear in
      the result in the order they had in the input. */
  lemma {:induction false} SortStable(l: seq<Server>, k: Server)
    requires AllEnriched(l)
    ensures Filter(SortByRank(l), SameKeyAs(k)) == Filter(l, SameKeyAs(k))
  {
    if l != [] {
      SortStable(l[1..], k);
      InsertStable(l[0], SortByRank(l[1..]), k);
    }
  }

  /** The head of a non-empty sequence is among the records of its own key. */
  lemma KeyClassOfHead(t: seq<Server>)
    ensures t != [] ==> t[0] in Filter(t, SameKeyAs(t[0]))
  {
  }

  /** The first record of a sorted sequence is the first of its key. */
  lemma SortedHeadLeast(t: seq<Server>, y: Server)
    requires AllEnriched(t) && Sorted(t) && t != [] && y in t
    ensures KeyLe(t[0], y)
  {
    var i :| 0 <= i < |t| && t[i] == y;
    assert i == 0 || KeyLe(t[0], t[i]);
  }

  /** Two sorted sequences that list the records of every key in the same
      order start with the same record. */
  lemma SortedStableHeads(t1: seq<Server>, t2: seq<Server>)
    requires AllEnriched(t1) && Sorted(t1) && AllEnriched(t2) && Sorted(t2)
    requires forall k :: Filter(t1, SameKeyAs(k)) == Filter(t2, SameKeyAs(k))
    requires t1 != [] && t2 != []
    ensures t1[0] == t2[0]
  {
    var h1, h2 := t1[0], t2[0];
    assert Filter(t1, SameKeyAs(h2)) == Filter(t2, SameKeyAs(h2));
    assert h2 in Filter(t2, SameKeyAs(h2));
    SortedHeadLeast(t1, h2);
    assert Filter(t1, SameKeyAs(h1)) == Filter(t2, SameKeyAs(h1));
    assert h1 in Filter(t1, SameKeyAs(h1));
    SortedHeadLeast(t2, h1);
    assert SameKey(h1, h2);
    FilterHead(t1, SameKeyAs(h1));
    FilterHead(t2, SameKeyAs(h1));
  }

  /** Two sorted sequences that list the records of every key in the same
      order are the same sequence. */
  lemma {:induction false} SortedStableUnique(t1: seq<Server>, t2: seq<Server>)
    requires AllEnriched(t1) && Sorted(t1) && AllEnriched(t2) && Sorted(t2)
    requires forall k :: Filter(t1, SameKeyAs(k)) == Filter(t2, SameKeyAs(k))
    ensures t1 == t2
    decreases |t1| + |t2|
  {
    if t1 != [] && t2 != [] {
      SortedStableHeads(t1, t2);
      var u1, u2 := t1[1..], t2[1..];
      assert AllEnriched(u1) && Sorted(u1) && AllEnriched(u2) && Sorted(u2);
      forall k ensures Filter(u1, SameKeyAs(k)) == Filter(u2, SameKeyAs(k)) {
        assert Filter(t1, SameKeyAs(k)) == Filter(t2, SameKeyAs(k));
        FilterHead(t1, SameKeyAs(k));
        FilterHead(t2, SameKeyAs(k));
        var front := if SameKey(t1[0], k) then [t1[0]] else [];
        assert Filter(u1, SameKeyAs(k)) == (front + Filter(u1, SameKeyAs(k)))[|front|..];
      }
      SortedStableUnique(u1, u2);
      assert t1 == [t1[0]] + u1 && t2 == [t2[0]] + u2;
    } else {
      KeyClassOfHead(t1);
      KeyClassOfHead(t2);
    }
  }

  /** `SortByRank` is THE stable sort: any sorted sequence that lists the
      records of every key in their input order equals it. */
  lemma StableSortIsUnique(l: seq<Server>, r: seq<Server>)
    requires AllEnriched(l) && AllEnriched(r) && Sorted(r)
    requires forall k :: Filter(r, SameKeyAs(k)) == Filter(l, SameKeyAs(k))
    ensures r == SortByRank(l)
  {
    forall k ensures Filter(r, SameKeyAs(k)) == Filter(SortByRank(l), SameKeyAs(k)) {
      SortStable(l, k);
    }
    SortedStableUnique(r, SortByRank(l));
  }

  /** Filtering a sorted sequence leaves it sorted. */
  lemma {:induction false} FilterSorted(l: seq<Server>, p: Server -> bool)
    requires AllEnriched(l) && Sorted(l)
    ensures AllEnriched(Filter(l, p)) && Sorted(Filter(l, p))
  {
    if l != [] {
      var t := l[1..];
      assert AllEnriched(t) && Sorted(t);
      FilterSorted(t, p);
      FilterHead(l, p);
      if p(l[0]) {
        var f := Filter(t, p);
        forall y | y in f ensures KeyLe(l[0], y) {
          assert y in t;
          assert y in l;
          SortedHeadLeast(l, y);
        }
        SortedCons(l[0], f);
      }
    }
  }

  /** The distance ceiling: a distance strictly below `maxDistance` miles. */
  function CloserThan(maxDistance: int): Server -> bool {
    (s: Server) => s.location.distance.Some? && s.location.distance.value < maxDistance as real
  }

  /** The load ceiling: a load strictly below `maxLoad` percent. */
  function LighterThan(maxLoad: int): Server -> bool {
    (s: Server) => s.load.Some? && s.load.value < maxLoad
  }

  /** The first `count` records, or all of them when there are fewer. */
  function Truncate(l: seq<Server>, count: nat): (r: seq<Server>)
    ensures |r| <= count
    ensures r <= l
    ensures |l| <= count ==> r == l
    ensures |r| == count || r == l
  {
    if |l| <= count then l else l[..count]
  }
}
