/** Sequence utilities shared by the Pattern Observer and the thought store:
    order-preserving filtering, first-occurrence de-duplication, a stable
    descending sort, prefix truncation and tallies in first-seen order. */
module Seqs {

  ghost predicate Distinct<T>(s: seq<T>) {
    forall i, j :: 0 <= i < j < |s| ==> s[i] != s[j]
  }

  /** The elements of `s` that satisfy `p`, in their original order (`Array.prototype.filter`) */
  function Filter<T>(s: seq<T>, p: T -> bool): (r: seq<T>)
    ensures |r| <= |s|
    ensures forall i :: 0 <= i < |r| ==> r[i] in s && p(r[i])
    ensures forall i :: 0 <= i < |s| && p(s[i]) ==> s[i] in r
  {
    if |s| == 0 then []
    else Filter(s[..|s| - 1], p) + (if p(s[|s| - 1]) then [s[|s| - 1]] else [])
  }

  lemma Assoc<T>(a: seq<T>, b: seq<T>, c: seq<T>)
    ensures a + (b + c) == (a + b) + c
  {
  }

  /** Filtering distributes over concatenation: the kept elements of `a`
      come first, in order, followed by the kept elements of `b`. */
  lemma {:induction false} FilterAppend<T>(a: seq<T>, b: seq<T>, p: T -> bool)
    ensures Filter(a + b, p) == Filter(a, p) + Filter(b, p)
    decreases |b|
  {
    if |b| == 0 {
      assert a + b == a;
    } else {
      var b' := b[..|b| - 1];
      assert (a + b)[..|a + b| - 1] == a + b';
      FilterAppend(a, b', p);
    }
  }

  /** A filter whose predicate every element meets returns its input unchanged */
  lemma {:induction false} FilterAll<T>(s: seq<T>, p: T -> bool)
    requires forall i :: 0 <= i < |s| ==> p(s[i])
    ensures Filter(s, p) == s
  {
    if |s| > 0 {
      FilterAll(s[..|s| - 1], p);
      assert s[..|s| - 1] + [s[|s| - 1]] == s;
    }
  }

  /** Filtering a filtered sequence again with the same predicate changes nothing */
  lemma FilterIdempotent<T>(s: seq<T>, p: T -> bool)
    ensures Filter(Filter(s, p), p) == Filter(s, p)
  {
    FilterAll(Filter(s, p), p);
  }

  /** `r` holds every copy in `s` of an element that satisfies `p`, and
      nothing else */
  ghost predicate CopiesKept<T(!new)>(r: seq<T>, s: seq<T>, p: T -> bool) {
    forall x :: multiset(r)[x] == if p(x) then multiset(s)[x] else 0
  }

  /** A filter keeps every copy of an element that satisfies `p` and no copy
      of one that does not */
  lemma {:induction false} FilterCounts<T(!new)>(s: seq<T>, p: T -> bool)
    ensures CopiesKept(Filter(s, p), s, p)
  {
    if |s| > 0 {
      var init, last := s[..|s| - 1], s[|s| - 1];
      FilterCounts(init, p);
      assert s == init + [last];
      assert CopiesKept(Filter(s, p), s, p);
    }
  }

  /** Filtering with a weaker predicate first changes nothing */
  lemma {:induction false} FilterImplied<T>(s: seq<T>, p: T -> bool, q: T -> bool)
    requires forall i :: 0 <= i < |s| && q(s[i]) ==> p(s[i])
    ensures Filter(Filter(s, p), q) == Filter(s, q)
  {
    if |s| > 0 {
      var init, last := s[..|s| - 1], s[|s| - 1];
      FilterImplied(init, p, q);
      FilterAppend(Filter(init, p), if p(last) then [last] else [], q);
      assert [last][..0] == [];
    }
  }

  /** Removes later repetitions, keeping each element at its first occurrence
      (`[...new Set(s)]`). */
  function Dedup<T(==,!new)>(s: seq<T>): (r: seq<T>)
    ensures Distinct(r)
    ensures |r| <= |s|
    ensures forall x :: x in r <==> x in s
  {
    if |s| == 0 then []
    else
      var d := Dedup(s[..|s| - 1]);
      var x := s[|s| - 1];
      assert forall y :: y in s <==> y in s[..|s| - 1] || y == x by {
        assert s == s[..|s| - 1] + [x];
      }
      if x in d then d else d + [x]
  }

  /** De-duplicating one more element appends it exactly when it is new */
  lemma DedupSnoc<T(!new)>(s: seq<T>, x: T)
    ensures Dedup(s + [x]) == if x in s then Dedup(s) else Dedup(s) + [x]
  {
    assert (s + [x])[..|s|] == s;
  }

  /** The first `n` elements (`s.slice(0, n)` for `n >= 0`) */
  function Take<T>(s: seq<T>, n: nat): (r: seq<T>)
    ensures |r| == if n < |s| then n else |s|
    ensures r <= s
  {
    if n < |s| then s[..n] else s
  }

  /** `s` is in non-increasing order of `key` */
  ghost predicate SortedDesc<T>(s: seq<T>, key: T -> int) {
    forall i, j :: 0 <= i < j < |s| ==> key(s[i]) >= key(s[j])
  }

  /** Everything inserted before the last element of a descending sequence
      keys at least as high as it, when the new element does */
  lemma InsertedAbove<T>(s: seq<T>, x: T, rest: seq<T>, key: T -> int)
    requires |s| > 0 && SortedDesc(s, key) && key(x) > key(s[|s| - 1])
    requires multiset(rest) == multiset(s[..|s| - 1]) + multiset{x}
    ensures forall i :: 0 <= i < |rest| ==> key(rest[i]) >= key(s[|s| - 1])
  {
    forall i | 0 <= i < |rest|
      ensures key(rest[i]) >= key(s[|s| - 1])
    {
      assert rest[i] in multiset(rest);
      if rest[i] != x {
        assert rest[i] in multiset(s[..|s| - 1]);
        var j :| 0 <= j < |s| - 1 && s[..|s| - 1][j] == rest[i];
        assert s[j] == rest[i];
      }
    }
  }

  /** Inserts `x` into a descending sequence after every element whose key is
      at least `key(x)`, so equal keys keep their arrival order (stable). */
  function InsertDesc<T>(s: seq<T>, x: T, key: T -> int): (r: seq<T>)
    requires SortedDesc(s, key)
    ensures SortedDesc(r, key)
    ensures multiset(r) == multiset(s) + multiset{x}
    ensures |r| == |s| + 1
  {
    if |s| == 0 then [x]
    else if key(s[|s| - 1]) >= key(x) then s + [x]
    else
      var last := s[|s| - 1];
      var rest := InsertDesc(s[..|s| - 1], x, key);
      assert s == s[..|s| - 1] + [last];
      InsertedAbove(s, x, rest, key);
      rest + [last]
  }

  /** Stable sort into non-increasing order of `key`
      (`s.sort((a, b) => key(b) - key(a))`, which is stable in JavaScript). */
  function SortDesc<T>(s: seq<T>, key: T -> int): (r: seq<T>)
    ensures SortedDesc(r, key)
    ensures multiset(r) == multiset(s)
    ensures |r| == |s|
  {
    if |s| == 0 then []
    else
      assert s == s[..|s| - 1] + [s[|s| - 1]];
      InsertDesc(SortDesc(s[..|s| - 1], key), s[|s| - 1], key)
  }

  /** The `n` highest-keyed elements of `s` that satisfy `p`, as a sorted
      prefix */
  lemma TopFiltered<T>(s: seq<T>, p: T -> bool, key: T -> int, n: nat)
    ensures var r := Take(SortDesc(Filter(s, p), key), n);
      && |r| <= n
      && SortedDesc(r, key)
      && forall i :: 0 <= i < |r| ==> r[i] in s && p(r[i])
  {
    var kept := Filter(s, p);
    var sorted := SortDesc(kept, key);
    MultisetMembers(sorted, kept);
    var r := Take(sorted, n);
    forall i | 0 <= i < |r|
      ensures r[i] in s && p(r[i])
    {
      assert r[i] == sorted[i];
    }
  }

  /** Every element of a permuted sequence comes from its input */
  lemma MultisetMembers<T>(r: seq<T>, s: seq<T>)
    requires multiset(r) == multiset(s)
    ensures forall i :: 0 <= i < |r| ==> r[i] in s
  {
    forall i | 0 <= i < |r|
      ensures r[i] in s
    {
      assert r[i] in multiset(r);
    }
  }

  /** The `n` highest-keyed elements of `s` that satisfy `p` are exactly
      that many of them, each copy drawn from the ones that satisfy `p`, and
      an element that satisfies `p` but is left out is no higher than any
      kept one, and can be left out only when more than `n` satisfy `p`. */
  lemma TopComplete<T>(s: seq<T>, p: T -> bool, key: T -> int, n: nat)
    ensures var kept := Filter(s, p);
      var r := Take(SortDesc(kept, key), n);
      && |r| == (if |kept| < n then |kept| else n)
      && multiset(r) <= multiset(kept)
      && forall i :: 0 <= i < |s| && p(s[i]) && s[i] !in r ==>
           n < |kept| && forall j :: 0 <= j < |r| ==> key(s[i]) <= key(r[j])
  {
    var kept := Filter(s, p);
    var sorted := SortDesc(kept, key);
    var r := Take(sorted, n);
    assert sorted == r + sorted[|r|..];
    assert multiset(sorted) == multiset(r) + multiset(sorted[|r|..]);
    forall i | 0 <= i < |s| && p(s[i]) && s[i] !in r
      ensures n < |kept| && forall j :: 0 <= j < |r| ==> key(s[i]) <= key(r[j])
    {
      var x := s[i];
      assert x in kept;
      assert x in multiset(sorted);
      assert multiset(r)[x] == 0;
      if |kept| <= n {
        assert false;
      }
      assert r == sorted[..n];
      forall j | 0 <= j < |r|
        ensures key(x) <= key(r[j])
      {
        SortedPrefixTop(sorted, n, key, x, r[j]);
      }
    }
  }

  /** One key of a tally and how often it occurred */
  datatype Entry<K> = Entry(key: K, count: nat)

  function Keys<K>(es: seq<Entry<K>>): (r: seq<K>)
    ensures |r| == |es|
    ensures forall i :: 0 <= i < |es| ==> r[i] == es[i].key
  {
    seq(|es|, i requires 0 <= i < |es| => es[i].key)
  }

  /** Sum of the counts of a tally */
  function Total<K>(es: seq<Entry<K>>): nat {
    if |es| == 0 then 0 else es[0].count + Total(es[1..])
  }

  /** The count recorded for `k`, 0 when `k` has no entry */
  function CountOf<K(==)>(es: seq<Entry<K>>, k: K): nat {
    if |es| == 0 then 0
    else if es[0].key == k then es[0].count
    else CountOf(es[1..], k)
  }

  /** Counts one more occurrence of `x`: bumps its entry, or appends a new
      entry at the end (the first-seen order of a JavaScript object's keys). */
  function Bump<K(==)>(es: seq<Entry<K>>, x: K): seq<Entry<K>> {
    if |es| == 0 then [Entry(x, 1)]
    else if es[0].key == x then [Entry(x, es[0].count + 1)] + es[1..]
    else [es[0]] + Bump(es[1..], x)
  }

  lemma KeysTail<K>(es: seq<Entry<K>>)
    requires |es| > 0
    ensures Keys(es) == [es[0].key] + Keys(es[1..])
  {
  }

  lemma DistinctCons<T>(h: T, t: seq<T>)
    ensures Distinct([h] + t) <==> Distinct(t) && h !in t
  {
    var s := [h] + t;
    if Distinct(s) {
      forall i, j | 0 <= i < j < |t|
        ensures t[i] != t[j]
      {
        assert s[i + 1] == t[i] && s[j + 1] == t[j];
      }
      forall i | 0 <= i < |t|
        ensures t[i] != h
      {
        assert s[0] != s[i + 1];
      }
    }
  }

  lemma {:induction false} BumpKeySet<K>(es: seq<Entry<K>>, x: K)
    ensures forall k :: k in Keys(Bump(es, x)) <==> k in Keys(es) || k == x
  {
    if |es| > 0 {
      KeysTail(es);
      var r := Bump(es, x);
      KeysTail(r);
      if es[0].key != x {
        BumpKeySet(es[1..], x);
        assert r[1..] == Bump(es[1..], x);
      } else {
        assert r[1..] == es[1..];
      }
    } else {
      assert Keys(Bump(es, x)) == [x];
    }
  }

  lemma {:induction false} BumpKeys<K>(es: seq<Entry<K>>, x: K)
    requires Distinct(Keys(es))
    ensures Distinct(Keys(Bump(es, x)))
  {
    if |es| > 0 {
      KeysTail(es);
      DistinctCons(es[0].key, Keys(es[1..]));
      var r := Bump(es, x);
      KeysTail(r);
      if es[0].key != x {
        BumpKeys(es[1..], x);
        BumpKeySet(es[1..], x);
        assert r[1..] == Bump(es[1..], x);
        DistinctCons(es[0].key, Keys(r[1..]));
      } else {
        assert r[1..] == es[1..];
        DistinctCons(r[0].key, Keys(r[1..]));
      }
    } else {
      assert Keys(Bump(es, x)) == [x];
    }
  }

  lemma {:induction false} BumpCounts<K>(es: seq<Entry<K>>, x: K, k: K)
    requires Distinct(Keys(es))
    ensures CountOf(Bump(es, x), k) == CountOf(es, k) + (if k == x then 1 else 0)
  {
    if |es| > 0 && es[0].key != x {
      KeysTail(es);
      BumpCounts(es[1..], x, k);
      if es[0].key == k {
        // `k` sits in the head entry of both sequences, which Bump keeps
      }
    } else if |es| > 0 && es[0].key == x && k != x {
      KeysTail(es);
    }
  }

  lemma {:induction false} BumpTotal<K>(es: seq<Entry<K>>, x: K)
    ensures Total(Bump(es, x)) == Total(es) + 1
    ensures forall i :: 0 <= i < |Bump(es, x)| ==> Bump(es, x)[i].count > 0 || (i < |es| && Bump(es, x)[i] == es[i])
  {
    if |es| > 0 && es[0].key != x {
      BumpTotal(es[1..], x);
      var r := Bump(es, x);
      assert r[1..] == Bump(es[1..], x);
    } else if |es| > 0 {
      var r := Bump(es, x);
      assert r[1..] == es[1..];
    }
  }

  /** Occurrence count of every distinct element, keys in first-seen order */
  function Tally<K(==,!new)>(xs: seq<K>): (r: seq<Entry<K>>)
    ensures Distinct(Keys(r))
    ensures forall k :: k in Keys(r) <==> k in xs
    ensures forall k :: CountOf(r, k) == multiset(xs)[k]
    ensures Total(r) == |xs|
    ensures forall i :: 0 <= i < |r| ==> r[i].count > 0
  {
    if |xs| == 0 then []
    else
      var prev := Tally(xs[..|xs| - 1]);
      var x := xs[|xs| - 1];
      assert xs == xs[..|xs| - 1] + [x];
      BumpKeys(prev, x);
      BumpKeySet(prev, x);
      BumpTotal(prev, x);
      forall k ensures CountOf(Bump(prev, x), k) == multiset(xs)[k] {
        BumpCounts(prev, x, k);
      }
      Bump(prev, x)
  }

  /** Bumping keeps the key order and appends a new key at the end */
  lemma {:induction false} BumpOrder<K>(es: seq<Entry<K>>, x: K)
    ensures Keys(Bump(es, x)) == if x in Keys(es) then Keys(es) else Keys(es) + [x]
  {
    if |es| > 0 {
      KeysTail(es);
      var r := Bump(es, x);
      KeysTail(r);
      if es[0].key != x {
        BumpOrder(es[1..], x);
        assert r[1..] == Bump(es[1..], x);
      } else {
        assert r[1..] == es[1..];
      }
    } else {
      assert Keys(Bump(es, x)) == [x];
    }
  }

  /** The keys of a tally are the distinct elements in order of first occurrence */
  lemma {:induction false} TallyOrder<K(!new)>(xs: seq<K>)
    ensures Keys(Tally(xs)) == Dedup(xs)
  {
    if |xs| > 0 {
      var init, x := xs[..|xs| - 1], xs[|xs| - 1];
      assert xs == init + [x];
      TallyOrder(init);
      BumpOrder(Tally(init), x);
      DedupSnoc(init, x);
    }
  }

  /** Elements not in `a` */
  function Outside<T(==)>(a: seq<T>): T -> bool {
    x => x !in a
  }

  /**
   * Removing repetitions from a concatenation keeps the first part's distinct
   * elements first, then the second part's elements that the first lacks
   */
  lemma {:induction false} DedupAppend<T(!new)>(a: seq<T>, b: seq<T>)
    ensures Dedup(a + b) == Dedup(a) + Dedup(Filter(b, Outside(a)))
  {
    if |b| == 0 {
      assert a + b == a;
    } else {
      var init, x := b[..|b| - 1], b[|b| - 1];
      assert b == init + [x];
      assert a + b == (a + init) + [x];
      DedupAppend(a, init);
      DedupSnoc(a + init, x);
      var f := Filter(init, Outside(a));
      if x in a {
        assert Filter(b, Outside(a)) == f;
      } else {
        assert Filter(b, Outside(a)) == f + [x];
        assert x in a + init <==> x in f;
        DedupSnoc(f, x);
        Assoc(Dedup(a), Dedup(f), [x]);
      }
    }
  }

  /** Filtering with predicates that agree on the elements gives the same result */
  lemma {:induction false} FilterCongruent<T>(s: seq<T>, p: T -> bool, q: T -> bool)
    requires forall i :: 0 <= i < |s| ==> p(s[i]) == q(s[i])
    ensures Filter(s, p) == Filter(s, q)
  {
    if |s| > 0 {
      FilterCongruent(s[..|s| - 1], p, q);
    }
  }

  /** A filter that no element passes returns nothing */
  lemma {:induction false} FilterNone<T>(s: seq<T>, p: T -> bool)
    requires forall i :: 0 <= i < |s| ==> !p(s[i])
    ensures Filter(s, p) == []
  {
    if |s| > 0 {
      FilterNone(s[..|s| - 1], p);
    }
  }

  /** Filtering a descending sequence leaves it descending */
  lemma {:induction false} FilterSortedDesc<T>(s: seq<T>, p: T -> bool, key: T -> int)
    requires SortedDesc(s, key)
    ensures SortedDesc(Filter(s, p), key)
  {
    if |s| > 0 {
      var init := s[..|s| - 1];
      var last := s[|s| - 1];
      FilterSortedDesc(init, p, key);
      var f := Filter(init, p);
      forall i | 0 <= i < |f|
        ensures key(f[i]) >= key(last)
      {
        var j :| 0 <= j < |init| && init[j] == f[i];
      }
    }
  }

  /** Two filters applied one after the other commute */
  lemma {:induction false} FilterCommute<T>(s: seq<T>, p: T -> bool, q: T -> bool)
    ensures Filter(Filter(s, p), q) == Filter(Filter(s, q), p)
  {
    if |s| > 0 {
      var init := s[..|s| - 1];
      var last := s[|s| - 1];
      FilterCommute(init, p, q);
      FilterAppend(Filter(init, p), if p(last) then [last] else [], q);
      FilterAppend(Filter(init, q), if q(last) then [last] else [], p);
      assert [last][..0] == [];
    }
  }

  lemma {:induction false} TotalAppend<K>(a: seq<Entry<K>>, b: seq<Entry<K>>)
    ensures Total(a + b) == Total(a) + Total(b)
  {
    if |a| > 0 {
      assert (a + b)[1..] == a[1..] + b;
      TotalAppend(a[1..], b);
    } else {
      assert a + b == b;
    }
  }

  /** Taking out the entry at position `j` */
  lemma RemoveEntry<K>(r: seq<Entry<K>>, j: nat)
    requires j < |r|
    ensures Total(r) == r[j].count + Total(r[..j] + r[j + 1..])
    ensures multiset(r[..j] + r[j + 1..]) == multiset(r) - multiset{r[j]}
  {
    var front, mid, back := r[..j], r[j..], r[j + 1..];
    assert r == front + mid;
    assert mid[1..] == back;
    TotalAppend(front, mid);
    TotalAppend(front, back);
    RemoveAt(r, j);
  }

  lemma RemoveAt<T>(r: seq<T>, j: nat)
    requires j < |r|
    ensures multiset(r[..j] + r[j + 1..]) == multiset(r) - multiset{r[j]}
  {
    var front, back := r[..j], r[j + 1..];
    assert r == front + [r[j]] + back;
    assert multiset(r) == multiset(front) + multiset{r[j]} + multiset(back);
  }

  /** Reordering the entries does not change their total */
  lemma {:induction false} TotalPermutation<K>(r: seq<Entry<K>>, s: seq<Entry<K>>)
    requires multiset(r) == multiset(s)
    ensures Total(r) == Total(s)
    decreases |s|
  {
    if |s| > 0 {
      var x := s[0];
      assert s == [x] + s[1..];
      assert multiset(s) == multiset{x} + multiset(s[1..]);
      assert x in multiset(r);
      var j :| 0 <= j < |r| && r[j] == x;
      RemoveEntry(r, j);
      TotalPermutation(r[..j] + r[j + 1..], s[1..]);
    } else {
      assert |r| == |multiset(r)|;
    }
  }

  /** A sequence without repetitions holds each value at most once */
  lemma {:induction false} DistinctCount<T>(s: seq<T>, x: T)
    requires Distinct(s)
    ensures multiset(s)[x] <= 1
  {
    if |s| > 0 {
      assert s == [s[0]] + s[1..];
      DistinctCons(s[0], s[1..]);
      DistinctCount(s[1..], x);
    }
  }

  /** A value found at two positions occurs at least twice */
  lemma TwoCopies<T>(s: seq<T>, i: nat, j: nat)
    requires i < j < |s| && s[i] == s[j]
    ensures multiset(s)[s[i]] >= 2
  {
    assert s == s[..j] + [s[j]] + s[j + 1..];
    assert s[i] in s[..j];
  }

  /** Entries with distinct keys are distinct */
  lemma DistinctKeysDistinct<K>(es: seq<Entry<K>>)
    requires Distinct(Keys(es))
    ensures Distinct(es)
  {
    forall i, j | 0 <= i < j < |es|
      ensures es[i] != es[j]
    {
      assert Keys(es)[i] != Keys(es)[j];
    }
  }

  /** Reordering entries with distinct keys keeps the keys distinct */
  lemma PermutationKeys<K>(r: seq<Entry<K>>, s: seq<Entry<K>>)
    requires multiset(r) == multiset(s)
    requires Distinct(Keys(s))
    ensures Distinct(Keys(r))
  {
    DistinctKeysDistinct(s);
    forall i, j | 0 <= i < j < |r|
      ensures Keys(r)[i] != Keys(r)[j]
    {
      if r[i].key == r[j].key {
        MultisetMembers(r, s);
        var a :| 0 <= a < |s| && s[a] == r[i];
        var b :| 0 <= b < |s| && s[b] == r[j];
        assert Keys(s)[a] == Keys(s)[b];
        TwoCopies(r, i, j);
        DistinctCount(s, r[i]);
        assert false;
      }
    }
  }

  /** With distinct keys, the count recorded for an entry's key is its count */
  lemma {:induction false} CountOfEntry<K>(es: seq<Entry<K>>, i: nat)
    requires i < |es| && Distinct(Keys(es))
    ensures CountOf(es, es[i].key) == es[i].count
  {
    if i > 0 {
      KeysTail(es);
      DistinctCons(es[0].key, Keys(es[1..]));
      assert Keys(es[1..])[i - 1] == es[i].key;
      CountOfEntry(es[1..], i - 1);
    }
  }

  /** Counting one more occurrence in the entry at position `i` raises the total by one */
  lemma {:induction false} TotalBumpAt<K>(es: seq<Entry<K>>, i: nat)
    requires i < |es|
    ensures Total(es[i := Entry(es[i].key, es[i].count + 1)]) == Total(es) + 1
  {
    if i > 0 {
      var bumped := es[i := Entry(es[i].key, es[i].count + 1)];
      assert bumped[1..] == es[1..][i - 1 := Entry(es[i].key, es[i].count + 1)];
      TotalBumpAt(es[1..], i - 1);
    }
  }

  /** Reordered entries hold the same keys */
  lemma PermutedKeySet<K>(r: seq<Entry<K>>, s: seq<Entry<K>>)
    requires multiset(r) == multiset(s)
    ensures forall k :: k in Keys(r) <==> k in Keys(s)
  {
    MultisetMembers(r, s);
    MultisetMembers(s, r);
    forall k
      ensures k in Keys(r) ==> k in Keys(s)
    {
      if k in Keys(r) {
        var i :| 0 <= i < |r| && Keys(r)[i] == k;
        var a :| 0 <= a < |s| && s[a] == r[i];
        assert Keys(s)[a] == k;
      }
    }
    forall k
      ensures k in Keys(s) ==> k in Keys(r)
    {
      if k in Keys(s) {
        var a :| 0 <= a < |s| && Keys(s)[a] == k;
        var i :| 0 <= i < |r| && r[i] == s[a];
        assert Keys(r)[i] == k;
      }
    }
  }

  /** Reordered entries with distinct keys keep their recorded counts */
  lemma PermutedCounts<K>(r: seq<Entry<K>>, s: seq<Entry<K>>)
    requires multiset(r) == multiset(s)
    requires Distinct(Keys(s))
    ensures forall i :: 0 <= i < |r| ==> r[i].count == CountOf(s, r[i].key)
  {
    MultisetMembers(r, s);
    forall i | 0 <= i < |r|
      ensures r[i].count == CountOf(s, r[i].key)
    {
      var a :| 0 <= a < |s| && s[a] == r[i];
      CountOfEntry(s, a);
    }
  }

  /** A tally in another order still has one entry per distinct element,
      recording its number of occurrences */
  lemma PermutedTally<K(!new)>(r: seq<Entry<K>>, xs: seq<K>)
    requires multiset(r) == multiset(Tally(xs))
    ensures Distinct(Keys(r))
    ensures forall k :: k in Keys(r) <==> k in xs
    ensures forall i :: 0 <= i < |r| ==> r[i].count == multiset(xs)[r[i].key]
    ensures Total(r) == |xs|
  {
    var tally := Tally(xs);
    PermutationKeys(r, tally);
    TotalPermutation(r, tally);
    PermutedKeySet(r, tally);
    PermutedCounts(r, tally);
  }

  /** Whatever a prefix of a descending sequence leaves out is no greater
      than anything in the prefix */
  lemma SortedPrefixTop<T>(sorted: seq<T>, n: nat, key: T -> int, x: T, y: T)
    requires SortedDesc(sorted, key) && n <= |sorted|
    requires y in sorted[..n]
    requires multiset(sorted[..n])[x] < multiset(sorted)[x]
    ensures key(x) <= key(y)
  {
    assert sorted == sorted[..n] + sorted[n..];
    assert multiset(sorted) == multiset(sorted[..n]) + multiset(sorted[n..]);
    assert x in multiset(sorted[n..]);
    var j :| n <= j < |sorted| && sorted[j] == x;
    var i :| 0 <= i < n && sorted[i] == y;
  }
}
