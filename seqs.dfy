/**
 * Generic list operations the source borrows from JavaScript arrays and lodash:
 * `filter`, `_.flatten`, `split`/`join`, `indexOf`, `_.pull`, `_.take`, `reverse`
 * and the stable `_.sortBy`.
 */
module Seqs {

  /** `Array.prototype.filter`: the order-preserving subsequence of the elements satisfying `p`. */
  function Filter<T>(s: seq<T>, p: T -> bool): (r: seq<T>)
    ensures |r| <= |s|
    ensures forall x :: x in r ==> x in s && p(x)
    ensures forall x :: x in s && p(x) ==> x in r
    ensures |s| == 1 ==> r == if p(s[0]) then s else []
  {
    if s == [] then [] else (if p(s[0]) then [s[0]] else []) + Filter(s[1..], p)
  }

  lemma {:induction false} FilterAppend<T>(a: seq<T>, b: seq<T>, p: T -> bool)
    ensures Filter(a + b, p) == Filter(a, p) + Filter(b, p)
  {
    if a == [] {
      assert a + b == b;
    } else {
      assert (a + b)[1..] == a[1..] + b;
      FilterAppend(a[1..], b, p);
    }
  }

  /** Filtering twice by the same predicate is filtering once. */
  lemma {:induction false} FilterIdempotent<T>(s: seq<T>, p: T -> bool)
    ensures Filter(Filter(s, p), p) == Filter(s, p)
  {
    if s != [] {
      FilterIdempotent(s[1..], p);
      var head := if p(s[0]) then [s[0]] else [];
      FilterAppend(head, Filter(s[1..], p), p);
      assert Filter(head, p) == head;
    }
  }

  /** When every element passes, filtering changes nothing. */
  lemma {:induction false} FilterAll<T>(s: seq<T>, p: T -> bool)
    requires forall i :: 0 <= i < |s| ==> p(s[i])
    ensures Filter(s, p) == s
  {
    if s != [] {
      FilterAll(s[1..], p);
    }
  }

  /** `_.flatten` one level deep. */
  function Flatten<T>(ss: seq<seq<T>>): seq<T>
  {
    if ss == [] then [] else ss[0] + Flatten(ss[1..])
  }

  /** The flattening is as long as all the groups together. */
  lemma {:induction false} FlattenLength<T>(ss: seq<seq<T>>)
    ensures |Flatten(ss)| == SumOfLengths(ss)
  {
    if ss != [] {
      FlattenLength(ss[1..]);
    }
  }

  function SumOfLengths<T>(ss: seq<seq<T>>): nat
  {
    if ss == [] then 0 else |ss[0]| + SumOfLengths(ss[1..])
  }

  lemma {:induction false} FlattenAppend<T>(a: seq<seq<T>>, b: seq<seq<T>>)
    ensures Flatten(a + b) == Flatten(a) + Flatten(b)
  {
    if a == [] {
      assert a + b == b;
    } else {
      assert (a + b)[1..] == a[1..] + b;
      FlattenAppend(a[1..], b);
    }
  }

  predicate NonEmpty<T>(g: seq<T>)
  {
    g != []
  }

  /** Dropping empty groups does not change the flattening. */
  lemma {:induction false} FlattenDropsEmpty<T>(ss: seq<seq<T>>)
    ensures Flatten(Filter(ss, NonEmpty)) == Flatten(ss)
  {
    if ss != [] {
      FlattenDropsEmpty(ss[1..]);
      var head := if NonEmpty(ss[0]) then [ss[0]] else [];
      assert Filter(ss, NonEmpty) == head + Filter(ss[1..], NonEmpty);
      FlattenAppend(head, Filter(ss[1..], NonEmpty));
    }
  }

  /** `String.prototype.split` / the generic split of a list at every occurrence of `sep`. */
  function Split<T(==)>(s: seq<T>, sep: T): (r: seq<seq<T>>)
    ensures |r| >= 1
  {
    if s == [] then [[]]
    else if s[0] == sep then [[]] + Split(s[1..], sep)
    else
      var rest := Split(s[1..], sep);
      [[s[0]] + rest[0]] + rest[1..]
  }

  /** No piece of a split holds the separator. */
  lemma {:induction false} SplitPiecesFree<T>(s: seq<T>, sep: T)
    ensures forall i :: 0 <= i < |Split(s, sep)| ==> sep !in Split(s, sep)[i]
  {
    if s != [] {
      SplitPiecesFree(s[1..], sep);
      var rest := Split(s[1..], sep);
      if s[0] != sep {
        assert sep !in rest[0];
        assert sep !in [s[0]] + rest[0];
      }
    }
  }

  /** `Array.prototype.join` with a one-element separator. */
  function Join<T>(parts: seq<seq<T>>, sep: T): seq<T>
  {
    if |parts| == 0 then []
    else if |parts| == 1 then parts[0]
    else parts[0] + [sep] + Join(parts[1..], sep)
  }

  /** Joining the pieces of a split restores the original. */
  lemma {:induction false} JoinSplit<T>(s: seq<T>, sep: T)
    ensures Join(Split(s, sep), sep) == s
  {
    if s != [] {
      JoinSplit(s[1..], sep);
      var rest := Split(s[1..], sep);
      if s[0] == sep {
        assert Split(s, sep) == [[]] + rest;
        assert ([[]] + rest)[1..] == rest;
      } else if |rest| == 1 {
        assert Join(Split(s, sep), sep) == [s[0]] + rest[0];
      } else {
        var r := Split(s, sep);
        assert r[1..] == rest[1..];
        assert Join(rest, sep) == rest[0] + [sep] + Join(rest[1..], sep);
      }
    }
  }

  /** Splitting a join of separator-free pieces gives back the pieces. */
  lemma {:induction false} SplitJoin<T>(parts: seq<seq<T>>, sep: T)
    requires |parts| >= 1
    requires forall i :: 0 <= i < |parts| ==> sep !in parts[i]
    ensures Split(Join(parts, sep), sep) == parts
  {
    if |parts| == 1 {
      SplitSeparatorFree(parts[0], sep);
    } else {
      SplitJoin(parts[1..], sep);
      SplitPrefix(parts[0], Join(parts[1..], sep), sep);
      assert [[]] + parts[1..] == [[]] + Split(Join(parts[1..], sep), sep);
    }
  }

  lemma {:induction false} SplitSeparatorFree<T>(s: seq<T>, sep: T)
    requires sep !in s
    ensures Split(s, sep) == [s]
  {
    if s != [] {
      assert s[0] in s;
      SplitSeparatorFree(s[1..], sep);
      assert [s[0]] + s[1..] == s;
    }
  }

  /** A separator-free prefix followed by a separator becomes the first piece. */
  lemma {:induction false} SplitPrefix<T>(a: seq<T>, b: seq<T>, sep: T)
    requires sep !in a
    ensures Split(a + [sep] + b, sep) == [a] + Split(b, sep)
  {
    if a == [] {
      assert a + [sep] + b == [sep] + b;
      assert ([sep] + b)[1..] == b;
    } else {
      assert (a + [sep] + b)[1..] == a[1..] + [sep] + b;
      SplitPrefix(a[1..], b, sep);
      assert [a[0]] + a[1..] == a;
    }
  }

  /** Appending one element: a separator opens a new piece, anything else extends the last. */
  predicate SnocLaw<T(==)>(s: seq<T>, x: T, sep: T)
  {
    var before := Split(s, sep);
    Split(s + [x], sep) ==
      if x == sep then before + [[]]
      else before[..|before| - 1] + [before[|before| - 1] + [x]]
  }

  lemma {:induction false} SplitSnoc<T>(s: seq<T>, x: T, sep: T)
    ensures var before := Split(s, sep);
            Split(s + [x], sep) ==
              if x == sep then before + [[]]
              else before[..|before| - 1] + [before[|before| - 1] + [x]]
  {
    if s == [] {
      assert s + [x] == [x];
      assert [x][1..] == [];
      var e: seq<T> := [];
      assert Split(e, sep) == [[]];
      if x == sep {
        assert Split([x], sep) == [[]] + Split(e, sep);
      } else {
        assert Split([x], sep) == [[x] + []] + Split(e, sep)[1..];
        assert [x] + [] == [x];
        assert Split(s, sep)[..0] + [Split(s, sep)[0] + [x]] == [[x]];
      }
    } else {
      SplitSnoc(s[1..], x, sep);
      assert SnocLaw(s[1..], x, sep);
      if s[0] == sep {
        SplitSnocAfterSeparator(s, x, sep);
      } else {
        SplitSnocAfterOther(s, x, sep);
      }
      assert SnocLaw(s, x, sep);
    }
  }

  lemma SplitSnocAfterSeparator<T>(s: seq<T>, x: T, sep: T)
    requires s != [] && s[0] == sep && SnocLaw(s[1..], x, sep)
    ensures SnocLaw(s, x, sep)
  {
    assert (s + [x])[0] == sep;
    assert (s + [x])[1..] == s[1..] + [x];
    var rest := Split(s[1..], sep);
    var before := Split(s, sep);
    assert before == [[]] + rest;
    assert Split(s + [x], sep) == [[]] + Split(s[1..] + [x], sep);
    if x != sep {
      assert before[..|before| - 1] == [[]] + rest[..|rest| - 1];
    }
  }

  lemma SplitSnocAfterOther<T>(s: seq<T>, x: T, sep: T)
    requires s != [] && s[0] != sep && SnocLaw(s[1..], x, sep)
    ensures SnocLaw(s, x, sep)
  {
    assert (s + [x])[0] == s[0];
    assert (s + [x])[1..] == s[1..] + [x];
    var rest := Split(s[1..], sep);
    var rest' := Split(s[1..] + [x], sep);
    assert Split(s, sep) == [[s[0]] + rest[0]] + rest[1..];
    assert Split(s + [x], sep) == [[s[0]] + rest'[0]] + rest'[1..];
    if x == sep {
      assert rest'[0] == rest[0] && rest'[1..] == rest[1..] + [[]];
    } else if |rest| == 1 {
      SplitSnocOneExtended(s[0], rest[0], rest', x);
    } else {
      SplitSnocLastExtended(s[0], rest, rest', x);
    }
  }

  lemma SplitSnocOneExtended<T>(c: T, piece: seq<T>, rest': seq<seq<T>>, x: T)
    requires rest' == [piece + [x]]
    ensures [[c] + rest'[0]] + rest'[1..] == [[c] + piece][..0] + [([c] + piece) + [x]]
  {
    assert [c] + (piece + [x]) == ([c] + piece) + [x];
  }

  lemma SplitSnocLastExtended<T>(c: T, rest: seq<seq<T>>, rest': seq<seq<T>>, x: T)
    requires |rest| >= 2
    requires rest' == rest[..|rest| - 1] + [rest[|rest| - 1] + [x]]
    ensures var before := [[c] + rest[0]] + rest[1..];
            [[c] + rest'[0]] + rest'[1..] == before[..|before| - 1] + [before[|before| - 1] + [x]]
  {
    var n := |rest|;
    var before := [[c] + rest[0]] + rest[1..];
    assert rest'[0] == rest[0];
    assert rest'[1..] == rest[1..n - 1] + [rest[n - 1] + [x]];
    assert before[..n - 1] == [[c] + rest[0]] + rest[1..n - 1];
    assert before[n - 1] == rest[n - 1];
  }

  /** The pieces of a split, laid end to end, are the input without its separators. */
  lemma {:induction false} FlattenSplit<T>(s: seq<T>, sep: T)
    ensures Flatten(Split(s, sep)) == RemoveAll(s, sep)
  {
    if s != [] {
      FlattenSplit(s[1..], sep);
      var rest := Split(s[1..], sep);
      if s[0] == sep {
        FlattenCons([], rest);
        RemoveAllCons(s, sep);
      } else {
        FlattenCons([s[0]] + rest[0], rest[1..]);
        FlattenCons(rest[0], rest[1..]);
        assert [rest[0]] + rest[1..] == rest;
        RemoveAllCons(s, sep);
      }
    }
  }

  lemma RemoveAllCons<T>(s: seq<T>, x: T)
    requires s != []
    ensures RemoveAll(s, x) == if s[0] == x then RemoveAll(s[1..], x) else [s[0]] + RemoveAll(s[1..], x)
  {
  }

  lemma FlattenCons<T>(first: seq<T>, rest: seq<seq<T>>)
    ensures Flatten([first] + rest) == first + Flatten(rest)
  {
    assert ([first] + rest)[1..] == rest;
  }

  /** Joining one more piece adds a separator and the piece. */
  lemma {:induction false} JoinSnoc<T>(parts: seq<seq<T>>, x: seq<T>, sep: T)
    requires parts != []
    ensures Join(parts + [x], sep) == Join(parts, sep) + [sep] + x
  {
    if |parts| == 1 {
      assert (parts + [x])[1..] == [x];
    } else {
      assert (parts + [x])[1..] == parts[1..] + [x];
      JoinSnoc(parts[1..], x, sep);
    }
  }

  /** `Array.prototype.indexOf`: the first position of `x`, or -1. */
  function IndexOf<T(==)>(s: seq<T>, x: T): (r: int)
    ensures -1 <= r < |s|
    ensures r == -1 <==> x !in s
    ensures 0 <= r ==> s[r] == x && forall j :: 0 <= j < r ==> s[j] != x
  {
    if s == [] then -1
    else if s[0] == x then 0
    else
      var k := IndexOf(s[1..], x);
      if k == -1 then -1 else k + 1
  }

  /** `_.pull`: every occurrence of `x` removed, the others kept in order. */
  function RemoveAll<T(==)>(s: seq<T>, x: T): (r: seq<T>)
    ensures x !in r
    ensures multiset(r) == multiset(s)[x := 0]
  {
    if s == [] then []
    else if s[0] == x then
      assert s == [s[0]] + s[1..];
      RemoveAll(s[1..], x)
    else
      assert s == [s[0]] + s[1..];
      [s[0]] + RemoveAll(s[1..], x)
  }

  /** `_.pull` keeps the relative order of the remaining elements. */
  lemma {:induction false} RemoveAllIsFilter<T>(s: seq<T>, x: T)
    ensures RemoveAll(s, x) == Filter(s, y => y != x)
  {
    if s != [] {
      RemoveAllIsFilter(s[1..], x);
    }
  }

  /** `_.take`: the first `n` elements, or all of them when there are fewer. */
  function Take<T>(s: seq<T>, n: nat): (r: seq<T>)
    ensures |r| == if n < |s| then n else |s|
    ensures r <= s
  {
    if n < |s| then s[..n] else s
  }

  function Reverse<T>(s: seq<T>): (r: seq<T>)
    ensures |r| == |s|
    ensures forall i :: 0 <= i < |s| ==> r[i] == s[|s| - 1 - i]
  {
    if s == [] then [] else Reverse(s[1..]) + [s[0]]
  }

  lemma {:induction false} ReverseFilter<T>(s: seq<T>, p: T -> bool)
    ensures Filter(Reverse(s), p) == Reverse(Filter(s, p))
  {
    if s != [] {
      ReverseFilter(s[1..], p);
      FilterAppend(Reverse(s[1..]), [s[0]], p);
      var head := if p(s[0]) then [s[0]] else [];
      assert Filter([s[0]], p) == head;
      ReverseAppend(head, Filter(s[1..], p));
    }
  }

  lemma ReverseAppend<T>(a: seq<T>, b: seq<T>)
    ensures Reverse(a + b) == Reverse(b) + Reverse(a)
  {
    assert |Reverse(a + b)| == |Reverse(b) + Reverse(a)|;
  }

  /* ---- stable sort by an integer key (lodash `sortBy`) ---- */

  ghost predicate SortedBy<T>(s: seq<T>, key: T -> int)
  {
    forall i, j :: 0 <= i < j < |s| ==> key(s[i]) <= key(s[j])
  }

  /** The elements whose key is `k`, in order. */
  function WithKey<T>(s: seq<T>, key: T -> int, k: int): seq<T>
  {
    if s == [] then [] else (if key(s[0]) == k then [s[0]] else []) + WithKey(s[1..], key, k)
  }

  /** Places `x` after every element whose key is at most `key(x)`. */
  function Insert<T>(x: T, t: seq<T>, key: T -> int): (r: seq<T>)
    ensures multiset(r) == multiset(t) + multiset{x}
  {
    if t == [] then [x]
    else if key(x) < key(t[0]) then [x] + t
    else
      assert t == [t[0]] + t[1..];
      [t[0]] + Insert(x, t[1..], key)
  }

  /**
   * `_.sortBy(s, key)`: ascending by key and stable, i.e. for every key value the
   * elements carrying it keep their relative order.
   */
  function SortBy<T>(s: seq<T>, key: T -> int): (r: seq<T>)
    ensures multiset(r) == multiset(s)
  {
    if s == [] then []
    else
      assert s == s[..|s| - 1] + [s[|s| - 1]];
      Insert(s[|s| - 1], SortBy(s[..|s| - 1], key), key)
  }

  lemma {:induction false} InsertSorted<T>(x: T, t: seq<T>, key: T -> int)
    requires SortedBy(t, key)
    ensures SortedBy(Insert(x, t, key), key)
  {
    if t != [] && key(x) >= key(t[0]) {
      InsertSorted(x, t[1..], key);
      var r := Insert(x, t[1..], key);
      forall i | 0 <= i < |t[1..]| ensures key(t[1..][i]) >= key(t[0]) {
        assert t[1..][i] == t[i + 1];
      }
      InsertAbove(x, t[1..], key, key(t[0]));
      assert forall i :: 0 <= i < |r| ==> r[i] in r;
      SortedCons(t[0], r, key);
    }
  }

  /** Inserting keeps every key at least `low` when `x` and all of `t` are. */
  lemma InsertAbove<T>(x: T, t: seq<T>, key: T -> int, low: int)
    requires key(x) >= low && forall i :: 0 <= i < |t| ==> key(t[i]) >= low
    ensures forall y :: y in Insert(x, t, key) ==> key(y) >= low
  {
    forall y | y in Insert(x, t, key) ensures key(y) >= low {
      assert y in multiset(Insert(x, t, key));
      assert y == x || y in multiset(t);
    }
  }

  lemma SortedCons<T>(y: T, r: seq<T>, key: T -> int)
    requires SortedBy(r, key) && forall i :: 0 <= i < |r| ==> key(y) <= key(r[i])
    ensures SortedBy([y] + r, key)
  {
    forall i, j | 0 <= i < j < |[y] + r| ensures key(([y] + r)[i]) <= key(([y] + r)[j]) {
      assert ([y] + r)[j] == r[j - 1];
      if i > 0 {
        assert ([y] + r)[i] == r[i - 1];
      }
    }
  }

  lemma WithKeyCons<T>(y: T, t: seq<T>, key: T -> int, k: int)
    ensures WithKey([y] + t, key, k) == (if key(y) == k then [y] else []) + WithKey(t, key, k)
  {
    assert ([y] + t)[1..] == t;
  }

  lemma {:induction false} InsertWithKey<T>(x: T, t: seq<T>, key: T -> int, k: int)
    requires SortedBy(t, key)
    ensures WithKey(Insert(x, t, key), key, k) ==
              if key(x) == k then WithKey(t, key, k) + [x] else WithKey(t, key, k)
    decreases |t|, 1
  {
    if t == [] {
      assert Insert(x, t, key) == [x];
      WithKeyCons(x, [], key, k);
    } else if key(x) < key(t[0]) {
      InsertWithKeyFront(x, t, key, k);
    } else {
      InsertWithKeyStep(x, t, key, k);
    }
  }

  lemma InsertWithKeyFront<T>(x: T, t: seq<T>, key: T -> int, k: int)
    requires SortedBy(t, key) && t != [] && key(x) < key(t[0])
    ensures WithKey(Insert(x, t, key), key, k) ==
              if key(x) == k then WithKey(t, key, k) + [x] else WithKey(t, key, k)
  {
    assert Insert(x, t, key) == [x] + t;
    WithKeyCons(x, t, key, k);
    if key(x) == k {
      NoneWithKey(t, key, k);
    }
  }

  lemma {:induction false} InsertWithKeyStep<T>(x: T, t: seq<T>, key: T -> int, k: int)
    requires SortedBy(t, key) && t != [] && key(x) >= key(t[0])
    ensures WithKey(Insert(x, t, key), key, k) ==
              if key(x) == k then WithKey(t, key, k) + [x] else WithKey(t, key, k)
    decreases |t|, 0
  {
    var tail := t[1..];
    assert SortedBy(tail, key);
    InsertWithKey(x, tail, key, k);
    assert Insert(x, t, key) == [t[0]] + Insert(x, tail, key);
    WithKeyCons(t[0], Insert(x, tail, key), key, k);
    FirstSplit(t);
    WithKeyCons(t[0], tail, key, k);
    var extra := if key(x) == k then [x] else [];
    assert WithKey(Insert(x, tail, key), key, k) == WithKey(tail, key, k) + extra;
    RegroupLeft(WithKey(Insert(x, t, key), key, k), WithKey(t, key, k),
                if key(t[0]) == k then [t[0]] else [], WithKey(tail, key, k), extra);
  }

  lemma {:induction false} NoneWithKey<T>(t: seq<T>, key: T -> int, k: int)
    requires SortedBy(t, key) && t != [] && k < key(t[0])
    ensures WithKey(t, key, k) == []
  {
    if |t| > 1 {
      NoneWithKey(t[1..], key, k);
    }
  }

  /** `SortBy` orders ascending. */
  lemma {:induction false} SortByIsSorted<T>(s: seq<T>, key: T -> int)
    ensures SortedBy(SortBy(s, key), key)
  {
    if s != [] {
      SortByIsSorted(s[..|s| - 1], key);
      InsertSorted(s[|s| - 1], SortBy(s[..|s| - 1], key), key);
    }
  }

  /** `SortBy` is stable: equal keys keep their input order. */
  lemma {:induction false} SortByIsStable<T>(s: seq<T>, key: T -> int, k: int)
    ensures WithKey(SortBy(s, key), key, k) == WithKey(s, key, k)
  {
    if s != [] {
      var init, last := s[..|s| - 1], s[|s| - 1];
      var sorted := SortBy(init, key);
      var tail := if key(last) == k then [last] else [];
      calc {
        WithKey(SortBy(s, key), key, k);
        WithKey(Insert(last, sorted, key), key, k);
        { SortByIsSorted(init, key); InsertWithKey(last, sorted, key, k); }
        WithKey(sorted, key, k) + tail;
        { SortByIsStable(init, key, k); }
        WithKey(init, key, k) + tail;
        { WithKeySnoc(init, last, key, k); }
        WithKey(init + [last], key, k);
        { assert s == init + [last]; }
        WithKey(s, key, k);
      }
    }
  }

  lemma {:induction false} WithKeySnoc<T>(s: seq<T>, x: T, key: T -> int, k: int)
    ensures WithKey(s + [x], key, k) == WithKey(s, key, k) + (if key(x) == k then [x] else [])
  {
    if s == [] {
      assert s + [x] == [x];
    } else {
      var y, t := s[0], s[1..];
      FirstSplit(s);
      assert s + [x] == [y] + (t + [x]);
      WithKeyCons(y, t + [x], key, k);
      WithKeyCons(y, t, key, k);
      WithKeySnoc(t, x, key, k);
      RegroupLeft(WithKey(s + [x], key, k), WithKey(s, key, k), if key(y) == k then [y] else [],
              WithKey(t, key, k), if key(x) == k then [x] else []);
    }
  }

  lemma FirstSplit<T>(s: seq<T>)
    requires s != []
    ensures s == [s[0]] + s[1..]
  {
  }

  lemma TakeOneMore<T>(s: seq<T>, i: nat)
    requires i < |s|
    ensures s[..i + 1] == s[..i] + [s[i]]
  {
  }

  lemma TakeAll<T>(s: seq<T>)
    ensures s[..|s|] == s
  {
  }

  lemma LastSplit<T>(s: seq<T>)
    requires s != []
    ensures s == s[..|s| - 1] + [s[|s| - 1]]
  {
  }

  /** Re-associates a concatenation of three once the first two are known as a whole. */
  lemma RegroupLeft<T>(whole: seq<T>, front: seq<T>, u: seq<T>, v: seq<T>, w: seq<T>)
    requires whole == u + (v + w) && front == u + v
    ensures whole == front + w
  {
  }

  /** Re-associates a concatenation of three once the last two are known as a whole. */
  lemma RegroupRight<T>(whole: seq<T>, back: seq<T>, u: seq<T>, v: seq<T>, w: seq<T>)
    requires whole == (u + v) + w && back == v + w
    ensures whole == u + back
  {
  }

  /** Reversing a sequence reverses the run of elements of every key. */
  lemma {:induction false} WithKeyReverse<T>(s: seq<T>, key: T -> int, k: int)
    ensures WithKey(Reverse(s), key, k) == Reverse(WithKey(s, key, k))
  {
    if s != [] {
      WithKeyReverse(s[1..], key, k);
      WithKeySnoc(Reverse(s[1..]), s[0], key, k);
      var head := if key(s[0]) == k then [s[0]] else [];
      ReverseAppend(head, WithKey(s[1..], key, k));
      assert Reverse(head) == head;
    }
  }
}
