/** `Array.prototype.sort` with a numeric comparator, as the source uses it.
    Since ES2019 that sort is stable, so its output is determined: it is the stable
    sort by the comparator. A comparator `(a, b) => f(a) - f(b)` sorts ascending by
    `f`; a descending comparator `(a, b) => f(b) - f(a)` is ascending by `-f`. */
module Sorting {

  /** `s` is in non-decreasing order of `key`. */
  ghost predicate SortedBy<T>(s: seq<T>, key: T -> real) {
    forall i, j :: 0 <= i < j < |s| ==> key(s[i]) <= key(s[j])
  }

  /** No element of `s` has a key below `bound`. */
  ghost predicate AllAtLeast<T>(s: seq<T>, key: T -> real, bound: real) {
    forall i :: 0 <= i < |s| ==> bound <= key(s[i])
  }

  lemma SortedCons<T>(h: T, t: seq<T>, key: T -> real)
    requires SortedBy(t, key) && AllAtLeast(t, key, key(h))
    ensures SortedBy([h] + t, key)
  {
    var s := [h] + t;
    forall i, j | 0 <= i < j < |s| ensures key(s[i]) <= key(s[j]) {
      if i > 0 {
        assert s[i] == t[i - 1] && s[j] == t[j - 1];
      } else {
        assert s[j] == t[j - 1];
      }
    }
  }

  lemma BoundFromMultiset<T>(a: seq<T>, b: seq<T>, key: T -> real, bound: real)
    requires multiset(a) <= multiset(b) && AllAtLeast(b, key, bound)
    ensures AllAtLeast(a, key, bound)
  {
    forall i | 0 <= i < |a| ensures bound <= key(a[i]) {
      assert a[i] in multiset(b);
      var k :| 0 <= k < |b| && b[k] == a[i];
    }
  }

  /** The first element of `a` sits somewhere in any permutation `b` of `a`, and
      the rest of `a` is a permutation of `b` without that element. */
  lemma PermutationSplit<T>(a: seq<T>, b: seq<T>) returns (k: nat)
    requires a != [] && multiset(a) == multiset(b)
    ensures k < |b| && b[k] == a[0]
    ensures multiset(a[1..]) == multiset(b[..k] + b[k + 1..])
  {
    var x := a[0];
    assert x in multiset(b);
    k :| 0 <= k < |b| && b[k] == x;
    var b' := b[..k] + b[k + 1..];
    assert b == b[..k] + ([x] + b[k + 1..]);
    assert a == [x] + a[1..];
    calc {
      multiset(a[1..]) + multiset{x};
      multiset(a);
      multiset(b);
      multiset(b[..k]) + (multiset{x} + multiset(b[k + 1..]));
      multiset(b') + multiset{x};
    }
    assert multiset(a[1..]) == multiset(a[1..]) + multiset{x} - multiset{x};
    assert multiset(b') == multiset(b') + multiset{x} - multiset{x};
  }

  /** Inserts `x` in front of the first element whose key is not smaller, so that
      `x` stays before the elements that tie with it. */
  function Insert<T>(x: T, s: seq<T>, key: T -> real): (r: seq<T>)
    requires SortedBy(s, key)
    ensures SortedBy(r, key)
    ensures multiset(r) == multiset(s) + multiset{x}
  {
    if s == [] then
      [x]
    else if key(x) <= key(s[0]) then
      assert AllAtLeast(s, key, key(x)) by {
        forall i | 0 <= i < |s| ensures key(x) <= key(s[i]) {
          if i > 0 { assert key(s[0]) <= key(s[i]); }
        }
      }
      SortedCons(x, s, key);
      [x] + s
    else
      var tail := s[1..];
      assert SortedBy(tail, key) by {
        forall i, j | 0 <= i < j < |tail| ensures key(tail[i]) <= key(tail[j]) {
          assert tail[i] == s[i + 1] && tail[j] == s[j + 1];
        }
      }
      var rest := Insert(x, tail, key);
      assert AllAtLeast(tail + [x], key, key(s[0])) by {
        forall i | 0 <= i < |tail| + 1 ensures key(s[0]) <= key((tail + [x])[i]) {
          if i < |tail| { assert (tail + [x])[i] == s[i + 1]; }
        }
      }
      assert multiset(rest) == multiset(tail + [x]);
      BoundFromMultiset(rest, tail + [x], key, key(s[0]));
      SortedCons(s[0], rest, key);
      assert s == [s[0]] + tail;
      [s[0]] + rest
  }

  /** Stable sort of `s` in non-decreasing order of `key`. */
  function SortBy<T>(s: seq<T>, key: T -> real): (r: seq<T>)
    ensures SortedBy(r, key)
    ensures multiset(r) == multiset(s)
    ensures |r| == |s|
  {
    if s == [] then []
    else
      assert s == [s[0]] + s[1..];
      Insert(s[0], SortBy(s[1..], key), key)
  }

  /** The elements of `s` whose key is `v`, in their order in `s`. */
  function WithKey<T>(s: seq<T>, key: T -> real, v: real): seq<T> {
    if s == [] then []
    else (if key(s[0]) == v then [s[0]] else []) + WithKey(s[1..], key, v)
  }

  lemma WithKeyCons<T>(h: T, t: seq<T>, key: T -> real, v: real)
    ensures WithKey([h] + t, key, v) == (if key(h) == v then [h] else []) + WithKey(t, key, v)
  {
    assert ([h] + t)[1..] == t;
  }

  lemma SortedTail<T>(s: seq<T>, key: T -> real)
    requires s != [] && SortedBy(s, key)
    ensures SortedBy(s[1..], key)
  {
    var tail := s[1..];
    forall i, j | 0 <= i < j < |tail| ensures key(tail[i]) <= key(tail[j]) {
      assert tail[i] == s[i + 1] && tail[j] == s[j + 1];
    }
  }

  lemma InsertShape<T>(x: T, s: seq<T>, key: T -> real)
    requires SortedBy(s, key)
    ensures s == [] || key(x) <= key(s[0]) ==> Insert(x, s, key) == [x] + s
    ensures s != [] && key(s[0]) < key(x) ==>
              SortedBy(s[1..], key) && Insert(x, s, key) == [s[0]] + Insert(x, s[1..], key)
  {
    if s != [] { SortedTail(s, key); }
  }

  /** Moving `x` past an element with a smaller key cannot reorder two
      elements that tie. */
  lemma PassSmaller<T>(h: T, x: T, ins: seq<T>, tail: seq<T>, key: T -> real, v: real)
    requires key(h) < key(x)
    requires WithKey(ins, key, v) == WithKey([x] + tail, key, v)
    ensures WithKey([h] + ins, key, v) == WithKey([x] + ([h] + tail), key, v)
  {
    var front := if key(h) == v then [h] else [];
    var mine := if key(x) == v then [x] else [];
    var rest := WithKey(tail, key, v);
    WithKeyCons(h, ins, key, v);
    WithKeyCons(x, tail, key, v);
    WithKeyCons(x, [h] + tail, key, v);
    WithKeyCons(h, tail, key, v);
    assert front == [] || mine == [];
  }

  /** Inserting `x` leaves it in front of every element that ties with it. */
  lemma {:induction false} InsertStable<T>(x: T, s: seq<T>, key: T -> real, v: real)
    requires SortedBy(s, key)
    ensures WithKey(Insert(x, s, key), key, v) == WithKey([x] + s, key, v)
  {
    InsertShape(x, s, key);
    if s != [] && key(s[0]) < key(x) {
      InsertStable(x, s[1..], key, v);
      PassSmaller(s[0], x, Insert(x, s[1..], key), s[1..], key, v);
      assert s == [s[0]] + s[1..];
    }
  }

  /** The sort is stable: the elements that share a key keep their order. */
  lemma {:induction false} SortByStable<T>(s: seq<T>, key: T -> real, v: real)
    ensures WithKey(SortBy(s, key), key, v) == WithKey(s, key, v)
  {
    if s != [] {
      SortByStable(s[1..], key, v);
      InsertStable(s[0], SortBy(s[1..], key), key, v);
      assert ([s[0]] + SortBy(s[1..], key))[1..] == SortBy(s[1..], key);
    }
  }

  /** Sorting keeps exactly the elements it was given. */
  lemma SortByMembers<T>(s: seq<T>, key: T -> real, x: T)
    ensures x in SortBy(s, key) <==> x in s
  {
    var r := SortBy(s, key);
    assert x in r <==> x in multiset(r);
    assert x in s <==> x in multiset(s);
  }
}
