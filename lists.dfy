/**
 * The Kotlin collection operations the view models rely on: `distinct()`,
 * `filterNot { it == x }`, the stable `sortedByDescending { key }` and a
 * count of the elements that satisfy a predicate.
 */
module Lists {

  predicate NoDuplicates<T(==)>(s: seq<T>)
  {
    forall i, j :: 0 <= i < j < |s| ==> s[i] != s[j]
  }

  /** The position of the first occurrence of `x` in `s`. */
  function IndexOf<T(==)>(s: seq<T>, x: T): (k: nat)
    requires x in s
    ensures k < |s| && s[k] == x && x !in s[..k]
  {
    if s[0] == x then 0 else 1 + IndexOf(s[1..], x)
  }

  /** A first occurrence in a prefix is a first occurrence in the whole sequence. */
  lemma {:induction false} IndexOfInPrefix<T>(s: seq<T>, n: nat, x: T)
    requires n <= |s| && x in s[..n]
    ensures IndexOf(s, x) == IndexOf(s[..n], x)
  {
    var k := IndexOf(s[..n], x);
    assert s[k] == x && s[..k] == s[..n][..k];
    IndexOfUnique(s, x, k);
  }

  /** Any position of `x` without an earlier occurrence is `IndexOf`. */
  lemma {:induction false} IndexOfUnique<T>(s: seq<T>, x: T, k: nat)
    requires k < |s| && s[k] == x && x !in s[..k]
    ensures IndexOf(s, x) == k
  {
    if s[0] != x {
      assert s[1..][k - 1] == x && s[1..][..k - 1] == s[1..k];
      IndexOfUnique(s[1..], x, k - 1);
    }
  }

  /**
   * Kotlin's `distinct()`: the elements of `s` that are not repeats of an
   * earlier element, in their order in `s`.
   */
  function Distinct<T(==)>(s: seq<T>): (r: seq<T>)
    ensures NoDuplicates(r)
    ensures forall i :: 0 <= i < |s| ==> s[i] in r
    ensures forall i :: 0 <= i < |r| ==> r[i] in s
    ensures forall i, j :: 0 <= i < j < |r| ==> IndexOf(s, r[i]) < IndexOf(s, r[j])
    decreases |s|
  {
    if s == [] then []
    else
      var init, last := s[..|s| - 1], s[|s| - 1];
      var d := Distinct(init);
      assert s == init + [last];
      forall x | x in d ensures IndexOf(s, x) == IndexOf(init, x) {
        IndexOfInPrefix(s, |s| - 1, x);
      }
      if last in init then d
      else
        assert IndexOf(s, last) == |s| - 1 by { IndexOfUnique(s, last, |s| - 1); }
        d + [last]
  }

  /** A sequence without duplicates is its own `distinct()`. */
  lemma {:induction false} DistinctOfDistinct<T>(s: seq<T>)
    requires NoDuplicates(s)
    ensures Distinct(s) == s
    decreases |s|
  {
    if s != [] {
      var init := s[..|s| - 1];
      assert NoDuplicates(init);
      DistinctOfDistinct(init);
    }
  }

  /** `distinct()` of `a + b` begins with `distinct()` of `a`. */
  lemma {:induction false} DistinctKeepsPrefix<T>(a: seq<T>, b: seq<T>)
    ensures |Distinct(a)| <= |Distinct(a + b)|
    ensures Distinct(a + b)[..|Distinct(a)|] == Distinct(a)
    decreases |b|
  {
    if b == [] {
      assert a + b == a;
    } else {
      var b' := b[..|b| - 1];
      assert (a + b)[..|a + b| - 1] == a + b';
      DistinctKeepsPrefix(a, b');
    }
  }

  /**
   * Appending to a list without duplicates and taking `distinct()` keeps
   * the old list in front, unchanged.
   */
  lemma AppendDistinctKeepsOld<T>(old_: seq<T>, added: seq<T>)
    requires NoDuplicates(old_)
    ensures |old_| <= |Distinct(old_ + added)|
    ensures Distinct(old_ + added)[..|old_|] == old_
  {
    DistinctOfDistinct(old_);
    DistinctKeepsPrefix(old_, added);
  }

  /** `r` is `s` with some elements left out, the others in their order. */
  predicate IsSubsequence<T(==)>(r: seq<T>, s: seq<T>)
    decreases |s|
  {
    if r == [] then true
    else if s == [] then false
    else if r[0] == s[0] then IsSubsequence(r[1..], s[1..])
    else IsSubsequence(r, s[1..])
  }

  /** Kotlin's `filterNot { it == x }`. */
  function FilterNot<T(==)>(s: seq<T>, x: T): (r: seq<T>)
    ensures x !in r
    ensures forall i :: 0 <= i < |s| && s[i] != x ==> s[i] in r
    ensures forall i :: 0 <= i < |r| ==> r[i] in s
    ensures IsSubsequence(r, s)
  {
    if s == [] then []
    else
      var rest := FilterNot(s[1..], x);
      if s[0] == x then
        assert rest != [] ==> rest[0] != s[0];
        rest
      else
        var r := [s[0]] + rest;
        assert r[0] == s[0] && r[1..] == rest;
        r
  }

  /** Filtering takes out every copy of `x` and no other element. */
  lemma {:induction false} FilterNotMultiset<T>(s: seq<T>, x: T)
    ensures multiset(FilterNot(s, x)) == multiset(s)[x := 0]
  {
    if s != [] {
      assert s == [s[0]] + s[1..];
      FilterNotMultiset(s[1..], x);
      var rest := FilterNot(s[1..], x);
      if s[0] != x {
        assert FilterNot(s, x) == [s[0]] + rest;
      }
    }
  }

  /** Filtering keeps a list free of duplicates. */
  lemma {:induction false} FilterNotKeepsNoDuplicates<T>(s: seq<T>, x: T)
    requires NoDuplicates(s)
    ensures NoDuplicates(FilterNot(s, x))
  {
    if s != [] {
      assert NoDuplicates(s[1..]);
      FilterNotKeepsNoDuplicates(s[1..], x);
      assert s[0] !in s[1..];
    }
  }

  /** In a list without duplicates, filtering removes one element if it is there and none otherwise. */
  lemma {:induction false} FilterNotLength<T>(s: seq<T>, x: T)
    requires NoDuplicates(s)
    ensures |FilterNot(s, x)| == |s| - (if x in s then 1 else 0)
  {
    if s != [] {
      assert NoDuplicates(s[1..]);
      FilterNotLength(s[1..], x);
      assert s[0] !in s[1..];
      assert x in s <==> x == s[0] || x in s[1..];
    }
  }

  /** `distinct()` of `a + b` holds every element of `b`. */
  lemma DistinctHoldsAppended<T>(a: seq<T>, b: seq<T>)
    ensures forall i :: 0 <= i < |b| ==> b[i] in Distinct(a + b)
  {
    forall i | 0 <= i < |b| ensures b[i] in Distinct(a + b) {
      assert (a + b)[|a| + i] == b[i];
    }
  }

  /** Filtering out an absent element changes nothing. */
  lemma {:induction false} FilterNotAbsent<T>(s: seq<T>, x: T)
    requires x !in s
    ensures FilterNot(s, x) == s
  {
    if s != [] {
      FilterNotAbsent(s[1..], x);
    }
  }

  predicate SortedDescendingBy<T>(s: seq<T>, key: T -> int)
  {
    forall i, j :: 0 <= i < j < |s| ==> key(s[i]) >= key(s[j])
  }

  predicate StrictlyDescendingBy<T>(s: seq<T>, key: T -> int)
  {
    forall i, j :: 0 <= i < j < |s| ==> key(s[i]) > key(s[j])
  }

  /** Puts `x` in front of the first element whose key is not larger than its own. */
  function InsertDescending<T>(x: T, s: seq<T>, key: T -> int): seq<T>
  {
    if s == [] || key(s[0]) <= key(x) then [x] + s
    else [s[0]] + InsertDescending(x, s[1..], key)
  }

  /** Inserting adds `x` and nothing else. */
  lemma {:induction false} InsertDescendingMultiset<T>(x: T, s: seq<T>, key: T -> int)
    ensures multiset(InsertDescending(x, s, key)) == multiset(s) + multiset{x}
  {
    if !(s == [] || key(s[0]) <= key(x)) {
      assert s == [s[0]] + s[1..];
      InsertDescendingMultiset(x, s[1..], key);
    }
  }

  /** Inserting into a descending list keeps it descending. */
  lemma {:induction false} InsertDescendingSorted<T>(x: T, s: seq<T>, key: T -> int)
    requires SortedDescendingBy(s, key)
    ensures SortedDescendingBy(InsertDescending(x, s, key), key)
  {
    if !(s == [] || key(s[0]) <= key(x)) {
      assert s == [s[0]] + s[1..];
      var rest := InsertDescending(x, s[1..], key);
      InsertDescendingSorted(x, s[1..], key);
      InsertDescendingMultiset(x, s[1..], key);
      forall i | 0 <= i < |rest| ensures key(rest[i]) <= key(s[0]) {
        assert rest[i] in multiset(rest);
        assert rest[i] == x || rest[i] in s[1..];
      }
    }
  }

  /**
   * Kotlin's `sortedByDescending { key }`: a sort, largest key first, that
   * keeps every element.  Kotlin's sort is also stable; that is not stated
   * here, since the keys it is used on are distinct.
   */
  function SortedByDescending<T(==)>(s: seq<T>, key: T -> int): (r: seq<T>)
    ensures SortedDescendingBy(r, key)
    ensures multiset(r) == multiset(s)
  {
    if s == [] then []
    else
      assert s == [s[0]] + s[1..];
      var sorted := SortedByDescending(s[1..], key);
      InsertDescendingSorted(s[0], sorted, key);
      InsertDescendingMultiset(s[0], sorted, key);
      InsertDescending(s[0], sorted, key)
  }

  /**
   * Sorting a list that is already strictly descending, with one element
   * appended whose key beats every other, moves that element to the front
   * and keeps the rest as they were.
   */
  lemma {:induction false} SortMovesNewestToFront<T>(s: seq<T>, x: T, key: T -> int)
    requires StrictlyDescendingBy(s, key)
    requires forall i :: 0 <= i < |s| ==> key(s[i]) < key(x)
    ensures SortedByDescending(s + [x], key) == [x] + s
  {
    if s == [] {
      assert SortedByDescending([x], key) == InsertDescending(x, [], key);
    } else {
      var t := s[1..];
      assert (s + [x])[0] == s[0] && (s + [x])[1..] == t + [x];
      SortMovesNewestToFront(t, x, key);
      assert SortedByDescending(s + [x], key) == InsertDescending(s[0], [x] + t, key);
      assert ([x] + t)[0] == x && ([x] + t)[1..] == t;
      assert InsertDescending(s[0], [x] + t, key) == [x] + InsertDescending(s[0], t, key);
      assert InsertDescending(s[0], t, key) == [s[0]] + t;
      assert [s[0]] + t == s;
    }
  }

  /** Kotlin's `shuffled()`: some permutation of `s`; which one is left open. */
  method Shuffled<T(==)>(s: seq<T>) returns (r: seq<T>)
    ensures multiset(r) == multiset(s)
  {
    r :| multiset(r) == multiset(s);
  }

  /** The number of elements of `s` that satisfy `p`. */
  function Count<T>(s: seq<T>, p: T -> bool): (n: nat)
    ensures n <= |s|
  {
    if s == [] then 0 else (if p(s[0]) then 1 else 0) + Count(s[1..], p)
  }

  lemma {:induction false} CountAppend<T>(a: seq<T>, b: seq<T>, p: T -> bool)
    ensures Count(a + b, p) == Count(a, p) + Count(b, p)
  {
    if a == [] {
      assert a + b == b;
    } else {
      assert (a + b)[1..] == a[1..] + b;
      CountAppend(a[1..], b, p);
    }
  }

  /** Removing the element at `k` lowers the count by one exactly when that element satisfies `p`. */
  lemma CountRemoveAt<T>(b: seq<T>, k: nat, p: T -> bool)
    requires k < |b|
    ensures Count(b, p) == Count(b[..k] + b[k + 1..], p) + (if p(b[k]) then 1 else 0)
  {
    assert b == b[..k] + b[k..];
    assert b[k..][0] == b[k] && b[k..][1..] == b[k + 1..];
    CountAppend(b[..k], b[k..], p);
    CountAppend(b[..k], b[k + 1..], p);
  }

  /** Counting does not depend on the order: a permutation has the same counts. */
  lemma {:induction false} CountOfPermutation<T>(a: seq<T>, b: seq<T>, p: T -> bool)
    requires multiset(a) == multiset(b)
    ensures Count(a, p) == Count(b, p)
  {
    if a != [] {
      assert a == [a[0]] + a[1..];
      assert a[0] in multiset(b);
      var k := IndexOf(b, a[0]);
      var b' := b[..k] + b[k + 1..];
      assert b == b[..k] + [b[k]] + b[k + 1..];
      assert multiset(b') == multiset(b) - multiset{a[0]};
      CountOfPermutation(a[1..], b', p);
      CountRemoveAt(b, k, p);
    }
  }
}
