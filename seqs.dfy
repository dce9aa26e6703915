/**
 * Sequence operations shared by the views: the `arrayMove` of @dnd-kit/sortable (remove at `from`,
 * insert at `to`), the stable `Array.prototype.sort` by a numeric key, `filter`, and the
 * ascending enumeration order that JavaScript gives to integer-like object keys.
 */
module Seqs {

  // ---------------------------------------------------------------------------------------------
  // Removal, insertion and arrayMove
  // ---------------------------------------------------------------------------------------------

  /** `s` without its element at index `i` (`splice(i, 1)`). */
  function RemoveAt<T>(s: seq<T>, i: nat): (r: seq<T>)
    requires i < |s|
    ensures |r| == |s| - 1
    ensures forall k :: 0 <= k < i ==> r[k] == s[k]
    ensures forall k :: i <= k < |r| ==> r[k] == s[k + 1]
  {
    s[..i] + s[i + 1..]
  }

  /** `s` with `x` inserted so that it lands at index `i` (`splice(i, 0, x)`). */
  function InsertAt<T>(s: seq<T>, i: nat, x: T): (r: seq<T>)
    requires i <= |s|
    ensures |r| == |s| + 1 && r[i] == x
    ensures forall k :: 0 <= k < i ==> r[k] == s[k]
    ensures forall k :: i < k < |r| ==> r[k] == s[k - 1]
  {
    s[..i] + [x] + s[i..]
  }

  /** `arrayMove(s, from, to)`: the element at `from` is taken out and put back at `to`. */
  function ArrayMove<T>(s: seq<T>, from: nat, to: nat): (r: seq<T>)
    requires from < |s| && to < |s|
  {
    InsertAt(RemoveAt(s, from), to, s[from])
  }

  lemma RemoveAtMultiset<T>(s: seq<T>, i: nat)
    requires i < |s|
    ensures multiset(RemoveAt(s, i)) + multiset{s[i]} == multiset(s)
  {
    assert s == s[..i] + [s[i]] + s[i + 1..];
  }

  lemma InsertAtMultiset<T>(s: seq<T>, i: nat, x: T)
    requires i <= |s|
    ensures multiset(InsertAt(s, i, x)) == multiset(s) + multiset{x}
  {
    assert s == s[..i] + s[i..];
  }

  /**
   * What arrayMove promises: the same elements, the moved one at `to`, and all the others
   * in their previous relative order (taking the moved element out of either side gives the
   * same sequence).
   */
  lemma ArrayMoveSpec<T>(s: seq<T>, from: nat, to: nat)
    requires from < |s| && to < |s|
    ensures |ArrayMove(s, from, to)| == |s|
    ensures ArrayMove(s, from, to)[to] == s[from]
    ensures RemoveAt(ArrayMove(s, from, to), to) == RemoveAt(s, from)
    ensures multiset(ArrayMove(s, from, to)) == multiset(s)
  {
    var t := RemoveAt(s, from);
    var r := ArrayMove(s, from, to);
    assert RemoveAt(r, to) == t;
    RemoveAtMultiset(s, from);
    InsertAtMultiset(t, to, s[from]);
  }

  /** The index-wise reading of arrayMove: the elements strictly between the two indices shift by one. */
  lemma ArrayMoveAt<T>(s: seq<T>, from: nat, to: nat, k: nat)
    requires from < |s| && to < |s| && k < |s|
    ensures ArrayMove(s, from, to)[k] ==
      if k == to then s[from]
      else if from < to && from <= k < to then s[k + 1]
      else if to < from && to < k <= from then s[k - 1]
      else s[k]
  {
  }

  // ---------------------------------------------------------------------------------------------
  // filter
  // ---------------------------------------------------------------------------------------------

  /** `s.filter(p)`. */
  function Filter<T>(s: seq<T>, p: T -> bool): (r: seq<T>)
    ensures |r| <= |s|
    ensures forall i :: 0 <= i < |r| ==> r[i] in s && p(r[i])
    ensures forall i :: 0 <= i < |s| && p(s[i]) ==> s[i] in r
  {
    if s == [] then []
    else (if p(s[0]) then [s[0]] else []) + Filter(s[1..], p)
  }

  /** A filter keeps a sub-multiset of its input. */
  lemma {:induction false} FilterMultiset<T>(s: seq<T>, p: T -> bool)
    ensures multiset(Filter(s, p)) <= multiset(s)
  {
    if s != [] {
      FilterMultiset(s[1..], p);
      var head := if p(s[0]) then [s[0]] else [];
      assert Filter(s, p) == head + Filter(s[1..], p);
      assert multiset(head) <= multiset{s[0]};
      assert s == [s[0]] + s[1..];
      assert multiset(s) == multiset{s[0]} + multiset(s[1..]);
    }
  }

  lemma FilterAppend<T>(a: seq<T>, b: seq<T>, p: T -> bool)
    ensures Filter(a + b, p) == Filter(a, p) + Filter(b, p)
  {
    if a == [] {
      assert a + b == b;
    } else {
      var h := if p(a[0]) then [a[0]] else [];
      assert (a + b)[0] == a[0];
      assert (a + b)[1..] == a[1..] + b;
      FilterAppend(a[1..], b, p);
      calc {
        Filter(a + b, p);
        h + Filter(a[1..] + b, p);
        h + (Filter(a[1..], p) + Filter(b, p));
        (h + Filter(a[1..], p)) + Filter(b, p);
        Filter(a, p) + Filter(b, p);
      }
    }
  }

  /** `r` is `s` with some elements left out and the rest in their original order. */
  ghost predicate Subsequence<T>(r: seq<T>, s: seq<T>)
    decreases |s|
  {
    if r == [] then true
    else if s == [] then false
    else (r[0] == s[0] && Subsequence(r[1..], s[1..])) || Subsequence(r, s[1..])
  }

  /** A filter adds nothing and keeps the survivors in their original order. */
  lemma {:induction false} FilterSubsequence<T>(s: seq<T>, p: T -> bool)
    ensures Subsequence(Filter(s, p), s)
  {
    if s != [] {
      FilterSubsequence(s[1..], p);
      var r := Filter(s, p);
      if p(s[0]) {
        assert r[0] == s[0] && r[1..] == Filter(s[1..], p);
      } else {
        assert r == Filter(s[1..], p);
      }
    }
  }

  // ---------------------------------------------------------------------------------------------
  // Stable sort by a numeric key (`sort((a, b) => key(a) - key(b))`, stable since ES2019)
  // ---------------------------------------------------------------------------------------------

  predicate SortedBy<T>(s: seq<T>, key: T -> int) {
    forall i, j :: 0 <= i < j < |s| ==> key(s[i]) <= key(s[j])
  }

  /** Puts `x` in front of the first element whose key is not smaller than its own. */
  function Insert<T>(x: T, s: seq<T>, key: T -> int): seq<T> {
    if s == [] || key(x) <= key(s[0]) then [x] + s
    else [s[0]] + Insert(x, s[1..], key)
  }

  /** Insertion sort; elements with equal keys keep their input order. */
  function SortBy<T>(s: seq<T>, key: T -> int): seq<T> {
    if s == [] then [] else Insert(s[0], SortBy(s[1..], key), key)
  }

  /** The elements of `s` whose key is `v`, in their order in `s`. */
  function KeyClass<T>(s: seq<T>, key: T -> int, v: int): seq<T> {
    if s == [] then []
    else (if key(s[0]) == v then [s[0]] else []) + KeyClass(s[1..], key, v)
  }

  lemma {:induction false} InsertMultiset<T>(x: T, s: seq<T>, key: T -> int)
    ensures multiset(Insert(x, s, key)) == multiset(s) + multiset{x}
    ensures |Insert(x, s, key)| == |s| + 1
  {
    if s != [] && key(x) > key(s[0]) {
      assert s == [s[0]] + s[1..];
      InsertMultiset(x, s[1..], key);
    }
  }

  lemma {:induction false} InsertSorted<T>(x: T, s: seq<T>, key: T -> int)
    requires SortedBy(s, key)
    ensures SortedBy(Insert(x, s, key), key)
  {
    if s == [] || key(x) <= key(s[0]) {
      var r := [x] + s;
      forall i, j | 0 <= i < j < |r| ensures key(r[i]) <= key(r[j]) {
        assert r[j] == s[j - 1];
        if i > 0 {
          assert r[i] == s[i - 1];
        } else {
          assert key(s[0]) <= key(s[j - 1]);
        }
      }
    } else {
      var t := Insert(x, s[1..], key);
      InsertSorted(x, s[1..], key);
      InsertMultiset(x, s[1..], key);
      var r := [s[0]] + t;
      forall i, j | 0 <= i < j < |r| ensures key(r[i]) <= key(r[j]) {
        assert r[j] == t[j - 1];
        if i == 0 {
          assert t[j - 1] in multiset(s[1..]) + multiset{x};
          if t[j - 1] != x {
            assert t[j - 1] in multiset(s[1..]);
            var k :| 0 <= k < |s[1..]| && s[1..][k] == t[j - 1];
            assert s[k + 1] == t[j - 1];
          }
        } else {
          assert r[i] == t[i - 1];
        }
      }
    }
  }

  lemma {:induction false} InsertKeyClass<T>(x: T, s: seq<T>, key: T -> int, v: int)
    ensures KeyClass(Insert(x, s, key), key, v) == (if key(x) == v then [x] else []) + KeyClass(s, key, v)
  {
    if s == [] || key(x) <= key(s[0]) {
      var r := [x] + s;
      assert r[0] == x && r[1..] == s;
      assert KeyClass(r, key, v) == (if key(x) == v then [x] else []) + KeyClass(s, key, v);
    } else {
      var t := Insert(x, s[1..], key);
      InsertKeyClass(x, s[1..], key, v);
      var r := [s[0]] + t;
      assert r[0] == s[0] && r[1..] == t;
      var hs := if key(s[0]) == v then [s[0]] else [];
      var hx := if key(x) == v then [x] else [];
      assert KeyClass(r, key, v) == hs + KeyClass(t, key, v);
      assert KeyClass(s, key, v) == hs + KeyClass(s[1..], key, v);
      assert hs + (hx + KeyClass(s[1..], key, v)) == hx + (hs + KeyClass(s[1..], key, v)) by {
        assert hs == [] || hx == [];
      }
    }
  }

  /**
   * Inserting into a sorted sequence keeps it sorted, adds exactly `x`, and puts `x` behind
   * nothing that shares its key (it goes in front of every element with an equal key).
   */
  lemma InsertSpec<T>(x: T, s: seq<T>, key: T -> int)
    requires SortedBy(s, key)
    ensures SortedBy(Insert(x, s, key), key)
    ensures multiset(Insert(x, s, key)) == multiset(s) + multiset{x}
    ensures |Insert(x, s, key)| == |s| + 1
    ensures forall v :: (KeyClass(Insert(x, s, key), key, v) ==
                         (if key(x) == v then [x] else []) + KeyClass(s, key, v))
  {
    InsertMultiset(x, s, key);
    InsertSorted(x, s, key);
    forall v ensures KeyClass(Insert(x, s, key), key, v) == (if key(x) == v then [x] else []) + KeyClass(s, key, v) {
      InsertKeyClass(x, s, key, v);
    }
  }

  /**
   * The sort returns a sorted permutation of its input, and it is stable: the elements
   * sharing any one key value come out in the order they went in.
   */
  lemma {:induction false} SortBySpec<T>(s: seq<T>, key: T -> int)
    ensures SortedBy(SortBy(s, key), key)
    ensures multiset(SortBy(s, key)) == multiset(s)
    ensures |SortBy(s, key)| == |s|
    ensures forall v :: KeyClass(SortBy(s, key), key, v) == KeyClass(s, key, v)
  {
    if s != [] {
      assert s == [s[0]] + s[1..];
      SortBySpec(s[1..], key);
      InsertSpec(s[0], SortBy(s[1..], key), key);
    }
  }

  // ---------------------------------------------------------------------------------------------
  // Integer-like object keys: `Object.entries` and `for ... in` visit them in ascending order
  // ---------------------------------------------------------------------------------------------

  lemma {:induction false} LeastElement(s: set<nat>) returns (m: nat)
    requires s != {}
    ensures m in s && forall x :: x in s ==> m <= x
  {
    var y :| y in s;
    if s == {y} {
      m := y;
    } else {
      var r := LeastElement(s - {y});
      m := if y < r then y else r;
      forall x | x in s ensures m <= x {
        if x != y { assert x in s - {y}; }
      }
    }
  }

  lemma HasMinimum(s: set<nat>)
    requires s != {}
    ensures exists m :: m in s && forall x :: x in s ==> m <= x
  {
    var m := LeastElement(s);
  }

  function MinOf(s: set<nat>): (m: nat)
    requires s != {}
    ensures m in s && forall x :: x in s ==> m <= x
  {
    HasMinimum(s);
    var m :| m in s && forall x :: x in s ==> m <= x; m
  }

  /** The least element is the one that no other element undercuts. */
  lemma MinOfIs(s: set<nat>, x: nat)
    requires x in s && forall y :: y in s ==> x <= y
    ensures MinOf(s) == x
  {
  }

  lemma {:induction false} GreatestElement(s: set<nat>) returns (m: nat)
    requires s != {}
    ensures m in s && forall x :: x in s ==> x <= m
  {
    var y :| y in s;
    if s == {y} {
      m := y;
    } else {
      var r := GreatestElement(s - {y});
      m := if r < y then y else r;
      forall x | x in s ensures x <= m {
        if x != y { assert x in s - {y}; }
      }
    }
  }

  lemma HasMaximum(s: set<nat>)
    requires s != {}
    ensures exists m :: m in s && forall x :: x in s ==> x <= m
  {
    var m := GreatestElement(s);
  }

  function MaxOf(s: set<nat>): (m: nat)
    requires s != {}
    ensures m in s && forall x :: x in s ==> x <= m
  {
    HasMaximum(s);
    var m :| m in s && forall x :: x in s ==> x <= m; m
  }

  /** The greatest element is the one that no other element exceeds. */
  lemma MaxOfIs(s: set<nat>, x: nat)
    requires x in s && forall y :: y in s ==> y <= x
    ensures MaxOf(s) == x
  {
  }

  /** The keys of a record with integer-like keys, in the order `Object.entries` lists them. */
  function AscendingKeys(s: set<nat>): (r: seq<nat>)
    ensures |r| == |s|
    ensures forall x :: x in r <==> x in s
    ensures forall i, j :: 0 <= i < j < |r| ==> r[i] < r[j]
    decreases s
  {
    if s == {} then []
    else
      var m := MinOf(s);
      var rest := AscendingKeys(s - {m});
      assert forall x :: x in rest ==> m < x;
      [m] + rest
  }

  // ---------------------------------------------------------------------------------------------
  // Distinct elements
  // ---------------------------------------------------------------------------------------------

  predicate Distinct<T(==)>(s: seq<T>) {
    forall i, j :: 0 <= i < j < |s| ==> s[i] != s[j]
  }

  /** In a sequence without repeats every value occurs at most once. */
  lemma {:induction false} DistinctCount<T>(s: seq<T>, x: T)
    requires Distinct(s)
    ensures multiset(s)[x] <= 1
    decreases |s|
  {
    if s != [] {
      var init := s[..|s| - 1];
      assert s == init + [s[|s| - 1]];
      DistinctCount(init, x);
      if s[|s| - 1] == x {
        assert x !in init;
      }
    }
  }

  /** A rearrangement of a sequence without repeats has no repeats. */
  lemma PermutationDistinct<T>(s: seq<T>, t: seq<T>)
    requires Distinct(s) && multiset(s) == multiset(t)
    ensures Distinct(t)
  {
    forall i, j | 0 <= i < j < |t| ensures t[i] != t[j] {
      DistinctCount(s, t[j]);
      assert t == t[..j] + [t[j]] + t[j + 1..];
      assert t[i] in multiset(t[..j]);
      assert multiset(t)[t[j]] >= multiset(t[..j])[t[j]] + 1;
    }
  }

  /** A prefix and the rest of a sequence share out its elements. */
  lemma SplitMultiset<T>(s: seq<T>, n: nat)
    requires n <= |s|
    ensures multiset(s) == multiset(s[..n]) + multiset(s[n..])
  {
    assert s == s[..n] + s[n..];
  }

  /** An element the prefix `s[..n]` leaves out sits at some position from `n` on. */
  lemma LeftOutIsLater<T>(s: seq<T>, n: nat, x: T) returns (j: nat)
    requires n <= |s|
    requires x in multiset(s) - multiset(s[..n])
    ensures n <= j < |s| && s[j] == x
  {
    SplitMultiset(s, n);
    assert x in multiset(s[n..]);
    var k :| 0 <= k < |s[n..]| && s[n..][k] == x;
    j := n + k;
  }
}
