/** A stable sort into descending order of an integer key, as
    `list.sort((a, b) => key(b) - key(a))` does in JavaScript: the comparator
    puts larger keys first, and Array.prototype.sort is stable (since
    ECMAScript 2019), so entries with equal keys keep their input order.

    The specification is insertion sort: SortDesc inserts the entries one after
    another, in list order, each walking in from the right past the entries with
    a strictly smaller key. SortByKeyDesc does the same in place on an array. */
module StableSort {

  /** Non-increasing in key. */
  ghost predicate SortedDesc<T>(s: seq<T>, key: T -> int) {
    forall i, j :: 0 <= i < j < |s| ==> key(s[i]) >= key(s[j])
  }

  /** Inserts x into s after every entry whose key is at least x's. */
  function InsertDesc<T>(x: T, s: seq<T>, key: T -> int): seq<T> {
    if s == [] then [x]
    else if key(s[|s| - 1]) < key(x) then InsertDesc(x, s[..|s| - 1], key) + [s[|s| - 1]]
    else s + [x]
  }

  /** Insertion sort into descending key order, inserting the entries in list order. */
  function SortDesc<T>(s: seq<T>, key: T -> int): seq<T> {
    if s == [] then [] else InsertDesc(s[|s| - 1], SortDesc(s[..|s| - 1], key), key)
  }

  /** The entries of s whose key is v, in order. */
  function KeyFilter<T>(s: seq<T>, key: T -> int, v: int): seq<T> {
    if s == [] then []
    else KeyFilter(s[..|s| - 1], key, v) + (if key(s[|s| - 1]) == v then [s[|s| - 1]] else [])
  }

  lemma KeyFilterSnoc<T>(s: seq<T>, x: T, key: T -> int, v: int)
    ensures KeyFilter(s + [x], key, v) == KeyFilter(s, key, v) + (if key(x) == v then [x] else [])
  {
    assert (s + [x])[..|s|] == s;
  }

  /** Inserting adds exactly x. */
  lemma {:induction false} InsertDescPermutes<T>(x: T, s: seq<T>, key: T -> int)
    ensures |InsertDesc(x, s, key)| == |s| + 1
    ensures multiset(InsertDesc(x, s, key)) == multiset(s) + multiset{x}
  {
    if s != [] && key(s[|s| - 1]) < key(x) {
      InsertDescPermutes(x, s[..|s| - 1], key);
      assert s == s[..|s| - 1] + [s[|s| - 1]];
    }
  }

  /** Every entry of InsertDesc(x, s) is x or an entry of s. */
  lemma InsertDescMember<T>(x: T, s: seq<T>, key: T -> int, y: T)
    requires y in InsertDesc(x, s, key)
    ensures y == x || y in s
  {
    InsertDescPermutes(x, s, key);
    assert y in multiset(InsertDesc(x, s, key));
  }

  /** Inserting into a sorted list keeps it sorted. */
  lemma {:induction false} InsertDescSorted<T>(x: T, s: seq<T>, key: T -> int)
    requires SortedDesc(s, key)
    ensures SortedDesc(InsertDesc(x, s, key), key)
  {
    if s != [] && key(s[|s| - 1]) < key(x) {
      var init, last := s[..|s| - 1], s[|s| - 1];
      InsertDescSorted(x, init, key);
      var t := InsertDesc(x, init, key);
      forall y | y in t ensures key(y) >= key(last) {
        InsertDescMember(x, init, key, y);
        if y != x {
          var i :| 0 <= i < |init| && init[i] == y;
          assert s[i] == y;
        }
      }
      var r := t + [last];
      forall i, j | 0 <= i < j < |r| ensures key(r[i]) >= key(r[j]) {
        if j == |r| - 1 {
          assert r[i] in t;
        } else {
          assert r[i] == t[i] && r[j] == t[j];
        }
      }
    }
  }

  /** Inserting x keeps, for every key, the relative order of the entries with that key. */
  lemma {:induction false} InsertDescStable<T>(x: T, s: seq<T>, key: T -> int, v: int)
    ensures KeyFilter(InsertDesc(x, s, key), key, v) == KeyFilter(s + [x], key, v)
  {
    if s != [] && key(s[|s| - 1]) < key(x) {
      var init, last := s[..|s| - 1], s[|s| - 1];
      var t := InsertDesc(x, init, key);
      assert InsertDesc(x, s, key) == t + [last];
      assert init + [last] == s;
      InsertDescStable(x, init, key, v);
      KeyFilterSnoc(t, last, key, v);
      KeyFilterSnoc(init, x, key, v);
      KeyFilterSnoc(init, last, key, v);
      KeyFilterSnoc(s, x, key, v);
      var f := KeyFilter(init, key, v);
      if key(x) == v {
        assert KeyFilter(s + [x], key, v) == f + [x];
        assert KeyFilter(t + [last], key, v) == f + [x];
      } else if key(last) == v {
        assert KeyFilter(s + [x], key, v) == f + [last];
        assert KeyFilter(t + [last], key, v) == f + [last];
      } else {
        assert KeyFilter(s + [x], key, v) == f;
        assert KeyFilter(t + [last], key, v) == f;
      }
    }
  }

  /** The sort's output is sorted. */
  lemma {:induction false} SortDescSorted<T>(s: seq<T>, key: T -> int)
    ensures SortedDesc(SortDesc(s, key), key)
  {
    if s != [] {
      SortDescSorted(s[..|s| - 1], key);
      InsertDescSorted(s[|s| - 1], SortDesc(s[..|s| - 1], key), key);
    }
  }

  /** The sort's output is a permutation of its input. */
  lemma {:induction false} SortDescPermutes<T>(s: seq<T>, key: T -> int)
    ensures multiset(SortDesc(s, key)) == multiset(s)
  {
    if s != [] {
      var init, last := s[..|s| - 1], s[|s| - 1];
      SortDescPermutes(init, key);
      InsertDescPermutes(last, SortDesc(init, key), key);
      assert init + [last] == s;
    }
  }

  /** The sort is stable: for every key, the entries with that key keep their
      input order. */
  lemma {:induction false} SortDescStable<T>(s: seq<T>, key: T -> int, v: int)
    ensures KeyFilter(SortDesc(s, key), key, v) == KeyFilter(s, key, v)
  {
    if s != [] {
      var init, last := s[..|s| - 1], s[|s| - 1];
      SortDescStable(init, key, v);
      InsertDescStable(last, SortDesc(init, key), key, v);
      KeyFilterSnoc(SortDesc(init, key), last, key, v);
      KeyFilterSnoc(init, last, key, v);
      assert init + [last] == s;
    }
  }

  /** Sorted, a permutation, and stable. */
  lemma SortDescCorrect<T>(s: seq<T>, key: T -> int)
    ensures SortedDesc(SortDesc(s, key), key)
    ensures multiset(SortDesc(s, key)) == multiset(s)
    ensures forall v :: KeyFilter(SortDesc(s, key), key, v) == KeyFilter(s, key, v)
  {
    SortDescSorted(s, key);
    SortDescPermutes(s, key);
    forall v ensures KeyFilter(SortDesc(s, key), key, v) == KeyFilter(s, key, v) {
      SortDescStable(s, key, v);
    }
  }

  /** Sorting keeps the length. */
  lemma SortDescLength<T>(s: seq<T>, key: T -> int)
    ensures |SortDesc(s, key)| == |s|
  {
    SortDescCorrect(s, key);
    assert |multiset(SortDesc(s, key))| == |multiset(s)|;
  }

  /** Sorts the array in place into descending key order, keeping entries with
      equal keys in their original order. */
  method SortByKeyDesc<T>(a: array<T>, key: T -> int)
    modifies a
    ensures a[..] == SortDesc(old(a[..]), key)
  {
    ghost var orig := a[..];
    var i := 0;
    while i < a.Length
      invariant 0 <= i <= a.Length
      invariant a[..i] == SortDesc(orig[..i], key)
      invariant a[i..] == orig[i..]
    {
      assert a[i] == orig[i] by { assert a[i..][0] == orig[i..][0]; }
      InsertLast(a, i, key);
      SortDescStep(orig, i, key);
      assert a[i + 1..] == orig[i + 1..] by { assert orig[i + 1..] == orig[i..][1..]; }
      i := i + 1;
    }
    assert a[..] == a[..a.Length] && orig == orig[..a.Length];
  }

  lemma SortDescStep<T>(s: seq<T>, i: nat, key: T -> int)
    requires i < |s|
    ensures SortDesc(s[..i + 1], key) == InsertDesc(s[i], SortDesc(s[..i], key), key)
  {
    assert s[..i + 1][..i] == s[..i];
  }

  /** Moves a[i] left into the prefix a[..i], past the entries with a strictly
      smaller key. */
  method InsertLast<T>(a: array<T>, i: nat, key: T -> int)
    requires i < a.Length
    modifies a
    ensures a[..i + 1] == InsertDesc(old(a[i]), old(a[..i]), key)
    ensures a[i + 1..] == old(a[i + 1..])
  {
    var x := a[i];
    var j := i;
    while j > 0 && key(a[j - 1]) < key(x)
      invariant 0 <= j <= i
      invariant forall k :: 0 <= k < j || i < k < a.Length ==> a[k] == old(a[k])
      invariant forall k :: j < k <= i ==> a[k] == old(a[k - 1])
      invariant forall k :: j <= k < i ==> key(old(a[k])) < key(x)
    {
      a[j] := a[j - 1];
      j := j - 1;
    }
    a[j] := x;
    ghost var s := old(a[..i]);
    InsertDescSplit(x, s, j, key);
    ghost var r := s[..j] + [x] + s[j..];
    forall k | 0 <= k <= i ensures a[k] == r[k] {
      if k < j {
        assert r[k] == s[k];
      } else if k > j {
        assert r[k] == s[k - 1];
      }
    }
    assert a[..i + 1] == r;
    assert a[i + 1..] == old(a[i + 1..]);
  }

  /** x goes right after s[..j] when every entry after it has a smaller key and
      s[j - 1], if any, does not. */
  lemma {:induction false} InsertDescSplit<T>(x: T, s: seq<T>, j: nat, key: T -> int)
    requires j <= |s|
    requires j == 0 || key(s[j - 1]) >= key(x)
    requires forall k :: j <= k < |s| ==> key(s[k]) < key(x)
    ensures InsertDesc(x, s, key) == s[..j] + [x] + s[j..]
    decreases |s|
  {
    if j == |s| {
      assert s[..j] == s && s[j..] == [];
    } else {
      var init, last := s[..|s| - 1], s[|s| - 1];
      InsertDescSplit(x, init, j, key);
      assert init[..j] == s[..j];
      assert s[j..] == init[j..] + [last];
    }
  }
}
