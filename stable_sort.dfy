/** A stable sort by an integer key, the behaviour ECMAScript 2019 requires of
    `Array.prototype.sort` when the comparator is `keyA - keyB`. */
module StableSort {
  import opened SeqUtil

  /** Keys never decrease from left to right. */
  ghost predicate SortedBy<T>(s: seq<T>, key: T -> int) {
    forall i, j :: 0 <= i < j < |s| ==> key(s[i]) <= key(s[j])
  }

  /** Selects the elements whose key is `k`. */
  function KeyIs<T>(key: T -> int, k: int): T -> bool {
    x => key(x) == k
  }

  /** Places `x` after every element of `t` whose key is not greater than its own, scanning
      from the back. */
  function Insert<T>(t: seq<T>, x: T, key: T -> int): (r: seq<T>)
    ensures |r| == |t| + 1
    decreases |t|
  {
    if t == [] then [x]
    else if key(t[|t| - 1]) <= key(x) then t + [x]
    else Insert(t[..|t| - 1], x, key) + [t[|t| - 1]]
  }

  /** Inserting adds exactly `x`. */
  lemma {:induction false} InsertPermutes<T>(t: seq<T>, x: T, key: T -> int)
    ensures multiset(Insert(t, x, key)) == multiset(t) + multiset{x}
    decreases |t|
  {
    if t != [] && key(t[|t| - 1]) > key(x) {
      assert t == t[..|t| - 1] + [t[|t| - 1]];
      InsertPermutes(t[..|t| - 1], x, key);
    }
  }

  /** Inserting into a sorted sequence keeps it sorted. */
  lemma {:induction false} InsertSorted<T>(t: seq<T>, x: T, key: T -> int)
    requires SortedBy(t, key)
    ensures SortedBy(Insert(t, x, key), key)
    decreases |t|
  {
    if t != [] && key(t[|t| - 1]) > key(x) {
      var t', y := t[..|t| - 1], t[|t| - 1];
      assert SortedBy(t', key) by {
        forall i, j | 0 <= i < j < |t'| ensures key(t'[i]) <= key(t'[j]) {
          assert t'[i] == t[i] && t'[j] == t[j];
        }
      }
      InsertSorted(t', x, key);
      InsertPermutes(t', x, key);
      var r' := Insert(t', x, key);
      forall i | 0 <= i < |r'| ensures key(r'[i]) <= key(y) {
        assert r'[i] in multiset(r');
        if r'[i] != x {
          assert r'[i] in multiset(t');
          var m :| 0 <= m < |t'| && t'[m] == r'[i];
          assert t[m] == r'[i];
        }
      }
    }
  }

  /** Insertion sort: a sorted permutation of `s`. */
  function SortBy<T>(s: seq<T>, key: T -> int): (r: seq<T>)
    ensures |r| == |s|
    ensures multiset(r) == multiset(s)
    ensures SortedBy(r, key)
    decreases |s|
  {
    if s == [] then []
    else
      var s', x := s[..|s| - 1], s[|s| - 1];
      assert s == s' + [x];
      InsertPermutes(SortBy(s', key), x, key);
      InsertSorted(SortBy(s', key), x, key);
      Insert(SortBy(s', key), x, key)
  }

  /** Inserting keeps the relative order of the elements that share a key, and puts `x` last
      among those that share its key. */
  lemma {:induction false} InsertStable<T>(t: seq<T>, x: T, key: T -> int, k: int)
    ensures Filter(Insert(t, x, key), KeyIs(key, k))
         == Filter(t, KeyIs(key, k)) + (if key(x) == k then [x] else [])
    decreases |t|
  {
    var p := KeyIs(key, k);
    if t == [] {
      assert Insert(t, x, key) == [] + [x];
      FilterSnoc([], x, p);
    } else if key(t[|t| - 1]) <= key(x) {
      FilterSnoc(t, x, p);
    } else {
      var t', y := t[..|t| - 1], t[|t| - 1];
      assert t == t' + [y];
      InsertStable(t', x, key, k);
      FilterSnoc(Insert(t', x, key), y, p);
      FilterSnoc(t', y, p);
    }
  }

  /** The sort is stable: for every key, the elements with that key keep their input order. */
  lemma {:induction false} SortStable<T>(s: seq<T>, key: T -> int, k: int)
    ensures Filter(SortBy(s, key), KeyIs(key, k)) == Filter(s, KeyIs(key, k))
    decreases |s|
  {
    if s != [] {
      var s', x := s[..|s| - 1], s[|s| - 1];
      assert s == s' + [x];
      SortStable(s', key, k);
      InsertStable(SortBy(s', key), x, key, k);
      FilterSnoc(s', x, KeyIs(key, k));
    }
  }
}
