/** A stable sort, and sequences whose keys turn out to be 1, 2, …, n. */
module Sorting {

  predicate Ascending<T>(s: seq<T>, key: T -> int) {
    forall i, j :: 0 <= i < j < |s| ==> key(s[i]) <= key(s[j])
  }

  function Insert<T>(s: seq<T>, x: T, key: T -> int): (r: seq<T>)
    requires Ascending(s, key)
    ensures Ascending(r, key)
    ensures multiset(r) == multiset(s) + multiset{x}
    ensures forall i :: 0 <= i < |r| ==> r[i] in s || r[i] == x
  {
    if s == [] then [x]
    else
      var front, last := s[..|s| - 1], s[|s| - 1];
      assert s == front + [last];
      if key(last) <= key(x) then s + [x]
      else Insert(front, x, key) + [last]
  }

  /** Array.prototype.sort with a difference of keys: stable, ascending. */
  function SortBy<T>(s: seq<T>, key: T -> int): (r: seq<T>)
    ensures Ascending(r, key)
    ensures multiset(r) == multiset(s)
  {
    if s == [] then []
    else
      assert s == s[..|s| - 1] + [s[|s| - 1]];
      Insert(SortBy(s[..|s| - 1], key), s[|s| - 1], key)
  }

  /** The keys that occur are 1 to n, each on one element only. */
  ghost predicate OneToN<T(!new)>(s: seq<T>, key: T -> int, n: nat) {
    && (forall x :: x in s ==> 1 <= key(x) <= n)
    && (forall k :: 1 <= k <= n ==> HasKey(s, key, k))
    && (forall i, j :: 0 <= i < j < |s| ==> key(s[i]) != key(s[j]))
  }

  predicate HasKey<T>(s: seq<T>, key: T -> int, k: int) {
    exists i :: 0 <= i < |s| && key(s[i]) == k
  }

  /** The i-th key is i, counting from one. */
  predicate Contiguous<T>(s: seq<T>, key: T -> int) {
    forall i :: 0 <= i < |s| ==> key(s[i]) == i + 1
  }

  lemma {:induction false} AscendingOneToNPrefix<T(!new)>(s: seq<T>, key: T -> int, n: nat, i: nat)
    requires Ascending(s, key) && OneToN(s, key, n) && i < |s|
    ensures key(s[i]) == i + 1
    decreases i
  {
    if i > 0 {
      AscendingOneToNPrefix(s, key, n, i - 1);
      assert key(s[i - 1]) != key(s[i]);
    }
    assert s[i] in s && i + 1 <= n;
    assert HasKey(s, key, i + 1);
    var j :| 0 <= j < |s| && key(s[j]) == i + 1;
    if j < i {
      AscendingOneToNPrefix(s, key, n, j);
      assert false;
    }
  }

  lemma AscendingOneToN<T(!new)>(s: seq<T>, key: T -> int, n: nat)
    requires Ascending(s, key) && OneToN(s, key, n)
    ensures Contiguous(s, key) && |s| == n
  {
    forall i | 0 <= i < |s|
      ensures key(s[i]) == i + 1
    {
      AscendingOneToNPrefix(s, key, n, i);
    }
    if |s| > 0 {
      assert s[|s| - 1] in s;
    }
    if n > 0 {
      assert HasKey(s, key, n);
    }
  }

  /** Distinct keys survive reordering. */
  lemma SameBagSameKeys<T(!new)>(a: seq<T>, b: seq<T>, key: T -> int, n: nat)
    requires multiset(a) == multiset(b) && OneToN(a, key, n)
    ensures OneToN(b, key, n)
  {
    forall x | x in b
      ensures x in a
    {
      assert x in multiset(b);
    }
    forall k | 1 <= k <= n
      ensures HasKey(b, key, k)
    {
      assert HasKey(a, key, k);
      var i :| 0 <= i < |a| && key(a[i]) == k;
      assert a[i] in multiset(b);
      var j :| 0 <= j < |b| && b[j] == a[i];
    }
    forall i, j | 0 <= i < j < |b|
      ensures key(b[i]) != key(b[j])
    {
      if key(b[i]) == key(b[j]) {
        assert b[i] in a && b[j] in a;
        OneKeyOneElement(a, key, b[i], b[j]);
        TwiceCountsTwo(b, i, j);
        OnceCountsOne(a, key, b[i]);
        assert false;
      }
    }
  }

  lemma OneKeyOneElement<T(!new)>(s: seq<T>, key: T -> int, x: T, y: T)
    requires forall i, j :: 0 <= i < j < |s| ==> key(s[i]) != key(s[j])
    requires x in s && y in s && key(x) == key(y)
    ensures x == y
  {
  }

  lemma TwiceCountsTwo<T>(s: seq<T>, i: nat, j: nat)
    requires i < j < |s| && s[i] == s[j]
    ensures multiset(s)[s[i]] >= 2
  {
    assert s == s[..j] + s[j..];
    assert s[..j][i] == s[i] && s[j..][0] == s[i];
    assert s[i] in multiset(s[..j]) && s[i] in multiset(s[j..]);
  }

  lemma {:induction false} OnceCountsOne<T(!new)>(s: seq<T>, key: T -> int, x: T)
    requires forall i, j :: 0 <= i < j < |s| ==> key(s[i]) != key(s[j])
    ensures multiset(s)[x] <= 1
  {
    if s != [] {
      var front, last := s[..|s| - 1], s[|s| - 1];
      assert s == front + [last];
      OnceCountsOne(front, key, x);
      if last == x {
        assert x !in front;
      }
    }
  }

  /** Sorting by keys that are 1 to n, in any order, spells out 1, 2, …, n. */
  lemma SortingOneToN<T(!new)>(s: seq<T>, key: T -> int, n: nat)
    requires OneToN(s, key, n)
    ensures Contiguous(SortBy(s, key), key) && |s| == n
  {
    SameBagSameKeys(s, SortBy(s, key), key, n);
    AscendingOneToN(SortBy(s, key), key, n);
    assert |multiset(s)| == |s| && |multiset(SortBy(s, key))| == |SortBy(s, key)|;
  }

  lemma ContiguousKeysAreOneToN<T(!new)>(s: seq<T>, key: T -> int)
    requires Contiguous(s, key)
    ensures OneToN(s, key, |s|)
  {
    forall k | 1 <= k <= |s|
      ensures HasKey(s, key, k)
    {
      assert key(s[k - 1]) == k;
    }
  }

  /** And the sorted keys are 1, 2, … only when the keys are. */
  lemma ContiguousIsOneToN<T(!new)>(s: seq<T>, key: T -> int)
    requires Contiguous(SortBy(s, key), key)
    ensures OneToN(s, key, |s|)
  {
    hide Contiguous, OneToN;
    var r := SortBy(s, key);
    assert |multiset(s)| == |s| && |multiset(r)| == |r|;
    ContiguousKeysAreOneToN(r, key);
    SameBagSameKeys(r, s, key, |s|);
  }
}
