/** The document-store queries the handlers issue, over a collection held as a map from id to
    record: enumeration in insertion (ascending id) order, selection by a query predicate
    (`find(query)`) and ordering by one field (`.sort({field: 1})` / `.sort({field: -1})`). */
module Collections {
  import opened Common

  /** `m` is the least element of `s`. */
  predicate IsMinOf(m: nat, s: set<nat>) {
    m in s && forall k :: k in s ==> m <= k
  }

  lemma HasMin(s: set<nat>)
    requires s != {}
    ensures exists m :: IsMinOf(m, s)
  {
    var x :| x in s;
    var rest := s - {x};
    if rest == {} {
      assert s == {x};
      assert IsMinOf(x, s);
    } else {
      HasMin(rest);
      var m :| IsMinOf(m, rest);
      var w := if x < m then x else m;
      forall k | k in s ensures w <= k {
        if k != x { assert k in rest; }
      }
      assert IsMinOf(w, s);
    }
  }

  function Min(s: set<nat>): (m: nat)
    requires s != {}
    ensures m in s && forall k :: k in s ==> m <= k
  {
    HasMin(s);
    var m :| IsMinOf(m, s); m
  }

  predicate Increasing(ks: seq<nat>) {
    forall i, j :: 0 <= i < j < |ks| ==> ks[i] < ks[j]
  }

  /** The ids of a collection in ascending order. */
  function SortedKeys(s: set<nat>): (ks: seq<nat>)
    ensures Increasing(ks)
    ensures forall k :: k in ks <==> k in s
    ensures forall i :: 0 <= i < |ks| ==> ks[i] in s
    ensures |ks| == |s|
    decreases |s|
  {
    if s == {} then []
    else
      var m := Min(s);
      [m] + SortedKeys(s - {m})
  }

  /** The ids of a sequence of (id, record) entries. */
  function IdsOf<T(==)>(es: seq<(Id, T)>): set<Id> {
    set e | e in es :: e.0
  }

  predicate IdsIncreasing<T>(es: seq<(Id, T)>) {
    forall i, j :: 0 <= i < j < |es| ==> es[i].0 < es[j].0
  }

  /** No id occurs twice. */
  predicate Distinct<T>(es: seq<(Id, T)>) {
    forall i, j :: 0 <= i < j < |es| ==> es[i].0 != es[j].0
  }

  /** Ascending order of `key`. */
  predicate SortedBy<T>(es: seq<(Id, T)>, key: T -> int) {
    forall i, j :: 0 <= i < j < |es| ==> key(es[i].1) <= key(es[j].1)
  }

  /** The ids of the records of `m` that satisfy `p`. */
  function MatchingIds<T>(m: map<Id, T>, p: T -> bool): set<Id> {
    set k | k in m && p(m[k])
  }

  /** Every record of the collection, once each, in ascending id order. */
  function Entries<T(==,!new)>(m: map<Id, T>): (es: seq<(Id, T)>)
    ensures IdsIncreasing(es)
    ensures forall e :: e in es <==> e.0 in m && m[e.0] == e.1
  {
    var ks := SortedKeys(m.Keys);
    var es := Pairs(m, ks);
    EntriesCover(m, ks, es);
    es
  }

  /** The entry of each id in `ks`, in the order of `ks`. */
  function Pairs<T>(m: map<Id, T>, ks: seq<Id>): (es: seq<(Id, T)>)
    requires forall i :: 0 <= i < |ks| ==> ks[i] in m
    ensures |es| == |ks| && forall i :: 0 <= i < |ks| ==> es[i] == (ks[i], m[ks[i]])
  {
    seq(|ks|, i requires 0 <= i < |ks| => (ks[i], m[ks[i]]))
  }

  lemma EntriesCover<T>(m: map<Id, T>, ks: seq<Id>, es: seq<(Id, T)>)
    requires Increasing(ks)
    requires forall k :: k in ks <==> k in m
    requires |es| == |ks| && forall i :: 0 <= i < |ks| ==> es[i] == (ks[i], m[ks[i]])
    ensures IdsIncreasing(es)
    ensures forall e :: e in es <==> e.0 in m && m[e.0] == e.1
  {
    forall e: (Id, T) | e.0 in m && m[e.0] == e.1 ensures e in es {
      var i :| 0 <= i < |ks| && ks[i] == e.0;
      assert es[i] == e;
    }
  }

  /** The entries satisfying `p`, in their original order. */
  function Select<T(==,!new)>(es: seq<(Id, T)>, p: T -> bool): (r: seq<(Id, T)>)
    ensures forall e :: e in r <==> e in es && p(e.1)
    ensures IdsIncreasing(es) ==> IdsIncreasing(r)
  {
    if es == [] then []
    else if p(es[0].1) then [es[0]] + Select(es[1..], p)
    else Select(es[1..], p)
  }

  /** Where `x` goes in a sequence sorted by `key`: after every entry with a smaller key. */
  function Position<T>(es: seq<(Id, T)>, x: (Id, T), key: T -> int): (i: nat)
    ensures i <= |es|
    ensures forall j :: 0 <= j < i ==> key(es[j].1) < key(x.1)
    ensures i < |es| ==> key(x.1) <= key(es[i].1)
  {
    if es == [] || key(x.1) <= key(es[0].1) then 0 else 1 + Position(es[1..], x, key)
  }

  /** Puts `x` into a sequence sorted by `key`, after the entries with a smaller key. */
  function Insert<T(==,!new)>(es: seq<(Id, T)>, x: (Id, T), key: T -> int): (r: seq<(Id, T)>)
    requires SortedBy(es, key)
    ensures SortedBy(r, key)
    ensures |r| == |es| + 1
    ensures forall e :: e in r <==> e in es || e == x
    ensures Distinct(es) && x.0 !in IdsOf(es) ==> Distinct(r)
  {
    var i := Position(es, x, key);
    var r := es[..i] + [x] + es[i..];
    InsertAt(es, x, key, i, r);
    r
  }

  lemma InsertAt<T>(es: seq<(Id, T)>, x: (Id, T), key: T -> int, i: nat, r: seq<(Id, T)>)
    requires SortedBy(es, key) && i == Position(es, x, key) && r == es[..i] + [x] + es[i..]
    ensures SortedBy(r, key)
    ensures |r| == |es| + 1
    ensures forall e :: e in r <==> e in es || e == x
    ensures Distinct(es) && x.0 !in IdsOf(es) ==> Distinct(r)
  {
    InsertSorted(es, x, key, i, r);
    InsertMembers(es, x, i, r);
    if Distinct(es) && x.0 !in IdsOf(es) {
      InsertDistinct(es, x, key, i, r);
    }
  }

  /** The shape of `es[..i] + [x] + es[i..]`, index by index. */
  lemma InsertIndices<T>(es: seq<(Id, T)>, x: (Id, T), i: nat, r: seq<(Id, T)>)
    requires i <= |es| && r == es[..i] + [x] + es[i..]
    ensures |r| == |es| + 1 && r[i] == x
    ensures forall k :: 0 <= k < i ==> r[k] == es[k]
    ensures forall k :: i < k < |r| ==> r[k] == es[k - 1]
  {
  }

  lemma InsertMembers<T>(es: seq<(Id, T)>, x: (Id, T), i: nat, r: seq<(Id, T)>)
    requires i <= |es| && r == es[..i] + [x] + es[i..]
    ensures |r| == |es| + 1
    ensures forall e :: e in r <==> e in es || e == x
  {
    assert es == es[..i] + es[i..];
  }

  lemma InsertSorted<T>(es: seq<(Id, T)>, x: (Id, T), key: T -> int, i: nat, r: seq<(Id, T)>)
    requires SortedBy(es, key) && i == Position(es, x, key) && r == es[..i] + [x] + es[i..]
    ensures SortedBy(r, key)
  {
    InsertIndices(es, x, i, r);
    forall a, b | 0 <= a < b < |r| ensures key(r[a].1) <= key(r[b].1) {
      if b < i {
      } else if a < i && b == i {
      } else if a < i {
        assert key(es[a].1) < key(x.1) <= key(es[i].1);
      } else if a == i {
        assert key(x.1) <= key(es[i].1);
      } else {
      }
    }
  }

  lemma InsertDistinct<T>(es: seq<(Id, T)>, x: (Id, T), key: T -> int, i: nat, r: seq<(Id, T)>)
    requires Distinct(es) && x.0 !in IdsOf(es)
    requires i <= |es| && r == es[..i] + [x] + es[i..]
    ensures Distinct(r)
  {
    InsertIndices(es, x, i, r);
    forall k | 0 <= k < |es| ensures es[k].0 != x.0 {
      assert es[k] in es;
    }
  }

  /** Insertion sort by ascending `key`; ties keep no particular order, as in the store. */
  function SortByKey<T(==,!new)>(es: seq<(Id, T)>, key: T -> int): (r: seq<(Id, T)>)
    ensures SortedBy(r, key)
    ensures |r| == |es|
    ensures forall e :: e in r <==> e in es
    ensures Distinct(es) ==> Distinct(r)
  {
    if es == [] then []
    else Insert(SortByKey(es[1..], key), es[0], key)
  }

  lemma {:induction false} DistinctIdsCount<T>(es: seq<(Id, T)>)
    requires Distinct(es)
    ensures |IdsOf(es)| == |es|
  {
    if es != [] {
      var rest := es[1..];
      assert Distinct(rest);
      DistinctIdsCount(rest);
      assert IdsOf(es) == {es[0].0} + IdsOf(rest);
      assert es[0].0 !in IdsOf(rest);
    }
  }

  lemma IncreasingIsDistinct<T>(es: seq<(Id, T)>)
    requires IdsIncreasing(es)
    ensures Distinct(es)
  {
  }

  /** `find(query).sort(...)`: exactly the records of `m` satisfying `p`, each once, ascending by `key`. */
  function Query<T(==,!new)>(m: map<Id, T>, p: T -> bool, key: T -> int): (r: seq<(Id, T)>)
    ensures forall e :: e in r <==> e.0 in m && m[e.0] == e.1 && p(e.1)
    ensures Distinct(r) && SortedBy(r, key)
    ensures |r| == |MatchingIds(m, p)|
  {
    var selected := Select(Entries(m), p);
    var r := SortByKey(selected, key);
    IncreasingIsDistinct(selected);
    CountMatches(m, p, r);
    r
  }

  /** `find(query)` without a sort: the matching records in insertion order. */
  function QueryInOrder<T(==,!new)>(m: map<Id, T>, p: T -> bool): (r: seq<(Id, T)>)
    ensures forall e :: e in r <==> e.0 in m && m[e.0] == e.1 && p(e.1)
    ensures IdsIncreasing(r)
    ensures |r| == |MatchingIds(m, p)|
  {
    var r := Select(Entries(m), p);
    IncreasingIsDistinct(r);
    CountMatches(m, p, r);
    r
  }

  lemma CountMatches<T>(m: map<Id, T>, p: T -> bool, r: seq<(Id, T)>)
    requires Distinct(r)
    requires forall e :: e in r <==> e.0 in m && m[e.0] == e.1 && p(e.1)
    ensures |r| == |MatchingIds(m, p)|
  {
    DistinctIdsCount(r);
    assert IdsOf(r) == MatchingIds(m, p) by {
      forall k | k in MatchingIds(m, p) ensures k in IdsOf(r) {
        assert (k, m[k]) in r;
      }
    }
  }
}
