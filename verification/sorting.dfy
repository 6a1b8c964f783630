/** Python's `list.sort(key=...)`: a stable sort by a real-valued key. It is
    modelled as an insertion sort; what matters about it is that its result is
    ordered, is a permutation of its input, and keeps items with equal keys in
    their original order. */
module Sorting {
  import opened Common

  ghost predicate SortedBy<T>(s: seq<T>, key: T -> real)
  {
    forall i, j :: 0 <= i < j < |s| ==> key(s[i]) <= key(s[j])
  }

  /** Inserts `x` before the first item whose key is not smaller, so that `x`
      stays ahead of the items with an equal key. */
  function Insert<T>(x: T, s: seq<T>, key: T -> real): (r: seq<T>)
    ensures multiset(r) == multiset(s) + multiset{x}
  {
    if s == [] then [x]
    else if key(x) <= key(s[0]) then [x] + s
    else
      assert s == [s[0]] + s[1..];
      [s[0]] + Insert(x, s[1..], key)
  }

  lemma SortedCons<T>(a: T, t: seq<T>, key: T -> real)
    requires SortedBy(t, key)
    requires t != [] ==> key(a) <= key(t[0])
    ensures SortedBy([a] + t, key)
  {
    var r := [a] + t;
    forall i, j | 0 <= i < j < |r| ensures key(r[i]) <= key(r[j]) {
      if i == 0 && j > 1 {
        assert key(t[0]) <= key(t[j - 1]);
      }
    }
  }

  lemma {:induction false} InsertSorted<T>(x: T, s: seq<T>, key: T -> real)
    requires SortedBy(s, key)
    ensures SortedBy(Insert(x, s, key), key)
  {
    if s == [] {
    } else if key(x) <= key(s[0]) {
      SortedCons(x, s, key);
    } else {
      var t := s[1..];
      InsertSorted(x, t, key);
      var rest := Insert(x, t, key);
      assert rest[0] == x || rest[0] == t[0];
      SortedCons(s[0], rest, key);
    }
  }

  function SortBy<T>(s: seq<T>, key: T -> real): (r: seq<T>)
    ensures multiset(r) == multiset(s)
    ensures SortedBy(r, key)
  {
    if s == [] then []
    else
      assert s == [s[0]] + s[1..];
      InsertSorted(s[0], SortBy(s[1..], key), key);
      Insert(s[0], SortBy(s[1..], key), key)
  }

  lemma SortByLength<T>(s: seq<T>, key: T -> real)
    ensures |SortBy(s, key)| == |s|
  {
    assert |multiset(SortBy(s, key))| == |multiset(s)|;
  }

  function KeyIs<T>(key: T -> real, k: real): T -> bool
  {
    x => key(x) == k
  }

  lemma {:induction false} InsertStable<T>(x: T, s: seq<T>, key: T -> real, k: real)
    ensures Filter(Insert(x, s, key), KeyIs(key, k))
         == (if key(x) == k then [x] else []) + Filter(s, KeyIs(key, k))
  {
    var p := KeyIs(key, k);
    if s == [] {
      FilterCons(x, [], p);
    } else if key(x) <= key(s[0]) {
      FilterCons(x, s, p);
    } else {
      var t := s[1..];
      var rest := Insert(x, t, key);
      assert Insert(x, s, key) == [s[0]] + rest;
      assert s == [s[0]] + t;
      InsertStable(x, t, key, k);
      FilterCons(s[0], rest, p);
      FilterCons(s[0], t, p);
      var head: seq<T> := if p(s[0]) then [s[0]] else [];
      assert Filter(s, p) == head + Filter(t, p);
      assert Filter(Insert(x, s, key), p) == head + Filter(rest, p);
      if key(x) == k {
        assert head == [];
        assert Filter(rest, p) == [x] + Filter(t, p);
      } else {
        assert Filter(rest, p) == Filter(t, p);
      }
    }
  }

  /** Stability: the items with any one key appear in the result in exactly
      the order they had in the input. */
  lemma {:induction false} SortStable<T>(s: seq<T>, key: T -> real, k: real)
    ensures Filter(SortBy(s, key), KeyIs(key, k)) == Filter(s, KeyIs(key, k))
  {
    if s != [] {
      SortStable(s[1..], key, k);
      InsertStable(s[0], SortBy(s[1..], key), key, k);
      FilterCons(s[0], s[1..], KeyIs(key, k));
      assert s == [s[0]] + s[1..];
    }
  }

  /** Dropping items from an ordered sequence leaves it ordered. */
  lemma {:induction false} FilterKeepsSorted<T>(s: seq<T>, key: T -> real, p: T -> bool)
    requires SortedBy(s, key)
    ensures SortedBy(Filter(s, p), key)
  {
    if s != [] {
      var n := |s| - 1;
      var init := s[..n];
      assert SortedBy(init, key);
      FilterKeepsSorted(init, key, p);
      var f := Filter(init, p);
      forall y | y in f ensures key(y) <= key(s[n]) {
        var i :| 0 <= i < n && init[i] == y;
      }
    }
  }

  /** A prefix of an ordered sequence holds no item farther than any item
      left out of it. */
  lemma PrefixIsSmallest<T>(s: seq<T>, key: T -> real, m: nat, x: T, y: T)
    requires SortedBy(s, key)
    requires m <= |s|
    requires x in s[..m] && y in s && y !in s[..m]
    ensures key(x) <= key(y)
  {
    var i :| 0 <= i < m && s[..m][i] == x;
    var j :| 0 <= j < |s| && s[j] == y;
  }

  function OwnedBy<T>(owner: T -> Option<int>, uid: int): T -> bool
  {
    x => owner(x) == Some(uid)
  }

  function NewestFirst<T>(created: T -> int): T -> real
  {
    x => -(created(x) as real)
  }

  lemma SortByMembers<T>(s: seq<T>, key: T -> real)
    ensures forall x :: x in SortBy(s, key) ==> x in s
    ensures forall x :: x in s ==> x in SortBy(s, key)
  {
    var r := SortBy(s, key);
    forall x | x in r ensures x in s {
      assert x in multiset(r);
    }
    forall x | x in s ensures x in r {
      assert x in multiset(s);
    }
  }

  lemma NewestFirstOrder<T>(s: seq<T>, created: T -> int)
    requires SortedBy(s, NewestFirst(created))
    ensures forall i, j :: 0 <= i < j < |s| ==> created(s[i]) >= created(s[j])
  {
    forall i, j | 0 <= i < j < |s| ensures created(s[i]) >= created(s[j]) {
      assert NewestFirst(created)(s[i]) <= NewestFirst(created)(s[j]);
    }
  }

  lemma OwnedMembers<T>(rows: seq<T>, owner: T -> Option<int>, uid: int)
    ensures forall x :: x in Filter(rows, OwnedBy(owner, uid)) <==> x in rows && owner(x) == Some(uid)
  {
    FilterMemberAll(rows, OwnedBy(owner, uid));
  }

  /** The "rows of the current user, newest first, 404 when there are none"
      query that the three per-user listings run. The database gives no order
      among rows created at the same instant; this model keeps their table
      order. */
  function ListOwned<T>(rows: seq<T>, owner: T -> Option<int>, created: T -> int, uid: int)
    : (r: Result<seq<T>>)
    ensures r.Err? <==> forall x :: x in rows ==> owner(x) != Some(uid)
    ensures r.Err? ==> r.error == NotFound
    ensures r.Ok? ==> forall x :: x in r.value ==> x in rows && owner(x) == Some(uid)
    ensures r.Ok? ==> forall x :: x in rows && owner(x) == Some(uid) ==> x in r.value
    ensures r.Ok? ==> multiset(r.value) == multiset(Filter(rows, OwnedBy(owner, uid)))
    ensures r.Ok? ==> forall i, j :: 0 <= i < j < |r.value| ==> created(r.value[i]) >= created(r.value[j])
  {
    var mine := Filter(rows, OwnedBy(owner, uid));
    FilterMemberAll(rows, OwnedBy(owner, uid));
    OwnedMembers(rows, owner, uid);
    if mine == [] then
      Err(NotFound)
    else
      var sorted := SortBy(mine, NewestFirst(created));
      SortByMembers(mine, NewestFirst(created));
      NewestFirstOrder(sorted, created);
      Ok(sorted)
  }
}
