/** Sequence utilities shared by the scoring model: optional values, insertion-ordered
    key/value lists (JavaScript records and Python dicts), `find`, filtering, the stable
    sort that `Array.prototype.sort` performs, and `Array.from(new Set(xs))`. */
module Collections {

  datatype Option<+T> = None | Some(value: T)

  /** Result of an operation that may fail with an error value. */
  datatype Result<+R, +E> = Ok(value: R) | Err(error: E)

  // ---------------------------------------------------------------------------
  // Insertion-ordered key/value lists

  /** First value stored under `k`, if any. */
  function Get<K(==), V>(entries: seq<(K, V)>, k: K): (r: Option<V>)
    ensures r.None? <==> forall i :: 0 <= i < |entries| ==> entries[i].0 != k
    ensures r.Some? ==> exists i :: 0 <= i < |entries| && entries[i] == (k, r.value)
  {
    if entries == [] then None
    else if entries[0].0 == k then Some(entries[0].1)
    else
      var r := Get(entries[1..], k);
      assert r.Some? ==> exists i :: 0 <= i < |entries[1..]| && entries[1..][i] == (k, r.value);
      r
  }

  /** `record[k] = v`: an existing key keeps its position, a new key goes last. */
  function Put<K(==,!new), V>(entries: seq<(K, V)>, k: K, v: V): (r: seq<(K, V)>)
    ensures Get(r, k) == Some(v)
    ensures forall k' :: k' != k ==> Get(r, k') == Get(entries, k')
    ensures Get(entries, k).Some? ==> |r| == |entries|
    ensures Get(entries, k).None? ==> r == entries + [(k, v)]
  {
    if entries == [] then [(k, v)]
    else if entries[0].0 == k then [(k, v)] + entries[1..]
    else [entries[0]] + Put(entries[1..], k, v)
  }

  /** Every entry after `Put` is the new one or an entry that was there before. */
  lemma {:induction false} PutEntries<K(!new), V>(entries: seq<(K, V)>, k: K, v: V)
    ensures forall e :: e in Put(entries, k, v) ==> e == (k, v) || e in entries
  {
    if entries != [] && entries[0].0 != k {
      PutEntries(entries[1..], k, v);
    }
  }

  /** The keys of an entry list, in order. */
  function KeysOf<K, V>(entries: seq<(K, V)>): (ks: seq<K>)
    ensures |ks| == |entries|
    ensures forall i :: 0 <= i < |entries| ==> ks[i] == entries[i].0
  {
    if entries == [] then [] else [entries[0].0] + KeysOf(entries[1..])
  }

  // ---------------------------------------------------------------------------
  // Searching

  /** `xs.find(p)`: the first element satisfying `p`. */
  function FindFirst<T>(xs: seq<T>, p: T -> bool): (r: Option<T>)
    ensures r.None? <==> forall i :: 0 <= i < |xs| ==> !p(xs[i])
    ensures r.Some? ==> exists i :: 0 <= i < |xs| && xs[i] == r.value && p(xs[i])
                                    && forall j :: 0 <= j < i ==> !p(xs[j])
  {
    if xs == [] then None
    else
      var r := FindFirst(xs[..|xs| - 1], p);
      if r.Some? then r
      else if p(xs[|xs| - 1]) then Some(xs[|xs| - 1])
      else None
  }

  /** `new Map(xs.map(x => [key(x), x])).get(k)`: the LAST element whose key is `k`. */
  function FindLast<T>(xs: seq<T>, p: T -> bool): (r: Option<T>)
    ensures r.None? <==> forall i :: 0 <= i < |xs| ==> !p(xs[i])
    ensures r.Some? ==> exists i :: 0 <= i < |xs| && xs[i] == r.value && p(xs[i])
                                    && forall j :: i < j < |xs| ==> !p(xs[j])
  {
    if xs == [] then None
    else if p(xs[|xs| - 1]) then Some(xs[|xs| - 1])
    else FindLast(xs[..|xs| - 1], p)
  }

  // ---------------------------------------------------------------------------
  // Filtering, sums, slices

  function Filter<T(!new)>(xs: seq<T>, p: T -> bool): (r: seq<T>)
    ensures |r| <= |xs|
    ensures forall x :: x in r <==> x in xs && p(x)
  {
    if xs == [] then []
    else if p(xs[|xs| - 1]) then Filter(xs[..|xs| - 1], p) + [xs[|xs| - 1]]
    else Filter(xs[..|xs| - 1], p)
  }

  /** Filtering a non-empty sequence, read from its first element. */
  lemma FilterFront<T(!new)>(xs: seq<T>, p: T -> bool)
    requires xs != []
    ensures Filter(xs, p) == (if p(xs[0]) then [xs[0]] else []) + Filter(xs[1..], p)
  {
    assert xs == [xs[0]] + xs[1..];
    FilterAppend([xs[0]], xs[1..], p);
    assert [xs[0]][..0] == [];
  }

  lemma {:induction false} FilterAppend<T(!new)>(a: seq<T>, b: seq<T>, p: T -> bool)
    ensures Filter(a + b, p) == Filter(a, p) + Filter(b, p)
    decreases |b|
  {
    if b == [] {
      assert a + b == a;
    } else {
      var b' := b[..|b| - 1];
      assert (a + b)[..|a + b| - 1] == a + b';
      FilterAppend(a, b', p);
    }
  }

  lemma {:induction false} FilterMultiset<T(!new)>(xs: seq<T>, p: T -> bool)
    ensures multiset(Filter(xs, p)) <= multiset(xs)
    ensures forall i :: 0 <= i < |Filter(xs, p)| ==> p(Filter(xs, p)[i])
  {
    if xs != [] {
      var init := xs[..|xs| - 1];
      FilterMultiset(init, p);
      assert xs == init + [xs[|xs| - 1]];
    }
  }

  /** Filtering keeps a sequence whose every element qualifies. */
  lemma {:induction false} FilterAll<T(!new)>(xs: seq<T>, p: T -> bool)
    requires forall i :: 0 <= i < |xs| ==> p(xs[i])
    ensures Filter(xs, p) == xs
  {
    if xs != [] {
      FilterAll(xs[..|xs| - 1], p);
      assert xs[..|xs| - 1] + [xs[|xs| - 1]] == xs;
    }
  }

  /** Filtering empties a sequence none of whose elements qualifies. */
  lemma {:induction false} FilterNone<T(!new)>(xs: seq<T>, p: T -> bool)
    requires forall i :: 0 <= i < |xs| ==> !p(xs[i])
    ensures Filter(xs, p) == []
  {
    if xs != [] {
      FilterNone(xs[..|xs| - 1], p);
    }
  }

  /** Filtering by a stricter predicate after a looser one is filtering by the stricter. */
  lemma {:induction false} FilterFilter<T(!new)>(xs: seq<T>, p: T -> bool, q: T -> bool)
    requires forall x :: q(x) ==> p(x)
    ensures Filter(Filter(xs, p), q) == Filter(xs, q)
  {
    if xs != [] {
      var init, last := xs[..|xs| - 1], xs[|xs| - 1];
      FilterFilter(init, p, q);
      if p(last) {
        FilterAppend(Filter(init, p), [last], q);
        assert [last][..0] == [];
      }
    }
  }

  function Sum(xs: seq<int>): int
  {
    if xs == [] then 0 else Sum(xs[..|xs| - 1]) + xs[|xs| - 1]
  }

  /** `xs.slice(0, n)`. */
  function Take<T>(xs: seq<T>, n: nat): (r: seq<T>)
    ensures |r| == if |xs| <= n then |xs| else n
    ensures r == xs[..|r|]
  {
    if |xs| <= n then xs else xs[..n]
  }

  /** `xs.join(sep)`. */
  function Join(xs: seq<string>, sep: string): (r: string)
    ensures xs == [] ==> r == ""
    ensures |xs| == 1 ==> r == xs[0]
  {
    if xs == [] then "" else if |xs| == 1 then xs[0] else xs[0] + sep + Join(xs[1..], sep)
  }

  // ---------------------------------------------------------------------------
  // Stable sorting

  /** A sort key compared lexicographically; it models comparators of the shape
      `(a, b) => f(a) - f(b) || g(a) - g(b)`, which order by `f` and then by `g`. */
  datatype Key = Key(major: int, minor: int)

  predicate KeyLess(a: Key, b: Key)
  {
    a.major < b.major || (a.major == b.major && a.minor < b.minor)
  }

  predicate SortedBy<T>(xs: seq<T>, key: T -> Key)
  {
    forall i, j :: 0 <= i < j < |xs| ==> !KeyLess(key(xs[j]), key(xs[i]))
  }

  /** Inserts `x` after every element whose key is not greater than its own. */
  function InsertBy<T>(xs: seq<T>, x: T, key: T -> Key): (r: seq<T>)
    ensures |r| == |xs| + 1
  {
    if xs == [] || !KeyLess(key(x), key(xs[|xs| - 1])) then xs + [x]
    else InsertBy(xs[..|xs| - 1], x, key) + [xs[|xs| - 1]]
  }

  /** The stable sort of `xs` by `key` (what `Array.prototype.sort` returns for a
      consistent comparator): insertion sort, front to back. */
  function SortBy<T>(xs: seq<T>, key: T -> Key): (r: seq<T>)
    ensures |r| == |xs|
  {
    if xs == [] then [] else InsertBy(SortBy(xs[..|xs| - 1], key), xs[|xs| - 1], key)
  }

  lemma {:induction false} InsertByMultiset<T>(xs: seq<T>, x: T, key: T -> Key)
    ensures multiset(InsertBy(xs, x, key)) == multiset(xs) + multiset{x}
  {
    if xs != [] && KeyLess(key(x), key(xs[|xs| - 1])) {
      var init := xs[..|xs| - 1];
      assert xs == init + [xs[|xs| - 1]];
      InsertByMultiset(init, x, key);
    }
  }

  lemma {:induction false} InsertBySorted<T>(xs: seq<T>, x: T, key: T -> Key)
    requires SortedBy(xs, key)
    ensures SortedBy(InsertBy(xs, x, key), key)
  {
    if xs != [] && KeyLess(key(x), key(xs[|xs| - 1])) {
      var init, last := xs[..|xs| - 1], xs[|xs| - 1];
      InsertBySorted(init, x, key);
      InsertByMultiset(init, x, key);
      var ins := InsertBy(init, x, key);
      forall i | 0 <= i < |ins| ensures !KeyLess(key(last), key(ins[i])) {
        assert ins[i] in multiset(ins);
        if ins[i] != x {
          assert ins[i] in multiset(init);
          var k :| 0 <= k < |init| && init[k] == ins[i];
          assert xs[k] == init[k];
        }
      }
    }
  }

  /** The sorted sequence is an ordered permutation of the input. */
  lemma {:induction false} SortByProperties<T>(xs: seq<T>, key: T -> Key)
    ensures multiset(SortBy(xs, key)) == multiset(xs)
    ensures |SortBy(xs, key)| == |xs|
    ensures SortedBy(SortBy(xs, key), key)
  {
    if xs != [] {
      var init := xs[..|xs| - 1];
      assert xs == init + [xs[|xs| - 1]];
      SortByProperties(init, key);
      InsertByMultiset(SortBy(init, key), xs[|xs| - 1], key);
      InsertBySorted(SortBy(init, key), xs[|xs| - 1], key);
    }
    assert |SortBy(xs, key)| == |multiset(SortBy(xs, key))|;
  }

  /** Sorting keeps exactly the elements of the input. */
  lemma SortByMembers<T>(xs: seq<T>, key: T -> Key)
    ensures forall x :: x in SortBy(xs, key) <==> x in xs
  {
    SortByProperties(xs, key);
    forall x ensures x in SortBy(xs, key) <==> x in xs {
      assert x in SortBy(xs, key) <==> x in multiset(SortBy(xs, key));
      assert x in xs <==> x in multiset(xs);
    }
  }

  /** `xs.filter(p).sort(cmp).slice(0, n)`: the first `n` elements satisfying `p`, in
      key order. */
  function TopBy<T(!new)>(xs: seq<T>, p: T -> bool, key: T -> Key, n: nat): seq<T>
  {
    Take(SortBy(Filter(xs, p), key), n)
  }

  /** The selection holds at most `n` elements, all from `xs` and satisfying `p`, in key
      order; it is short only when fewer than `n` elements qualify, and every qualifying
      element left out has a key no smaller than any selected one. */
  lemma {:induction false} TopByProperties<T(!new)>(xs: seq<T>, p: T -> bool, key: T -> Key, n: nat)
    ensures var r := TopBy(xs, p, key, n);
      |r| == (if |Filter(xs, p)| <= n then |Filter(xs, p)| else n) &&
      (forall y :: y in r ==> y in xs && p(y)) &&
      SortedBy(r, key) &&
      (forall x, y :: x in xs && p(x) && x !in r && y in r ==> !KeyLess(key(x), key(y)))
  {
    var f := Filter(xs, p);
    var sorted := SortBy(f, key);
    SortByProperties(f, key);
    var r := Take(sorted, n);
    assert r == sorted[..|r|];
    forall y | y in r ensures y in xs && p(y) {
      assert y in sorted;
      assert y in multiset(sorted);
      assert y in f;
    }
    forall x, y | x in xs && p(x) && x !in r && y in r ensures !KeyLess(key(x), key(y)) {
      assert x in f;
      assert x in multiset(sorted);
      var k :| 0 <= k < |sorted| && sorted[k] == x;
      var j :| 0 <= j < |r| && r[j] == y;
      assert sorted[j] == y;
      assert k >= |r|;
    }
  }

  /** The elements whose key equals `k`, in order. */
  function WithKey<T>(xs: seq<T>, key: T -> Key, k: Key): seq<T>
  {
    if xs == [] then []
    else WithKey(xs[..|xs| - 1], key, k) + (if key(xs[|xs| - 1]) == k then [xs[|xs| - 1]] else [])
  }

  lemma {:induction false} WithKeyAppend<T>(a: seq<T>, b: seq<T>, key: T -> Key, k: Key)
    ensures WithKey(a + b, key, k) == WithKey(a, key, k) + WithKey(b, key, k)
    decreases |b|
  {
    if b == [] {
      assert a + b == a;
    } else {
      var b' := b[..|b| - 1];
      assert (a + b)[..|a + b| - 1] == a + b';
      WithKeyAppend(a, b', key, k);
    }
  }

  lemma {:induction false} InsertByStable<T>(xs: seq<T>, x: T, key: T -> Key, k: Key)
    ensures WithKey(InsertBy(xs, x, key), key, k) == WithKey(xs, key, k) + WithKey([x], key, k)
  {
    if xs == [] || !KeyLess(key(x), key(xs[|xs| - 1])) {
      WithKeyAppend(xs, [x], key, k);
    } else {
      var init, last := xs[..|xs| - 1], xs[|xs| - 1];
      assert xs == init + [last];
      InsertByStable(init, x, key, k);
      WithKeyAppend(InsertBy(init, x, key), [last], key, k);
      WithKeyAppend(init, [last], key, k);
      assert [last][..0] == [] && [x][..0] == [];
    }
  }

  /** Stability: elements with equal keys keep their original relative order. */
  lemma {:induction false} SortByStable<T>(xs: seq<T>, key: T -> Key, k: Key)
    ensures WithKey(SortBy(xs, key), key, k) == WithKey(xs, key, k)
  {
    if xs != [] {
      var init := xs[..|xs| - 1];
      SortByStable(init, key, k);
      InsertByStable(SortBy(init, key), xs[|xs| - 1], key, k);
      WithKeyAppend(init, [xs[|xs| - 1]], key, k);
      assert init + [xs[|xs| - 1]] == xs;
    }
  }

  // ---------------------------------------------------------------------------
  // Deduplication

  predicate Distinct<T(==)>(xs: seq<T>)
  {
    forall i, j :: 0 <= i < j < |xs| ==> xs[i] != xs[j]
  }

  /** `Array.from(new Set(xs))`: each value once, at the position of its first occurrence. */
  function Dedup<T(==,!new)>(xs: seq<T>): (r: seq<T>)
    ensures forall x :: x in r <==> x in xs
    ensures Distinct(r)
    ensures |r| <= |xs|
  {
    if xs == [] then []
    else
      var d := Dedup(xs[..|xs| - 1]);
      assert forall x :: x in xs[..|xs| - 1] ==> x in xs;
      assert forall x :: x in xs ==> x in xs[..|xs| - 1] || x == xs[|xs| - 1];
      if xs[|xs| - 1] in d then d else d + [xs[|xs| - 1]]
  }

  /** The index of the first occurrence of `x` in `xs`, or `|xs|` when there is none. */
  function FirstIndex<T(==)>(xs: seq<T>, x: T): (n: nat)
    ensures n <= |xs|
    ensures n < |xs| ==> xs[n] == x
    ensures x !in xs[..n]
    ensures n == |xs| <==> x !in xs
  {
    if xs == [] then 0
    else if xs[0] == x then 0
    else
      var n := 1 + FirstIndex(xs[1..], x);
      assert xs[..n] == [xs[0]] + xs[1..][..n - 1];
      n
  }

  /** The first occurrence is the only index holding `x` with no `x` before it. */
  lemma FirstIndexUnique<T>(xs: seq<T>, x: T, n: nat)
    requires n < |xs| && xs[n] == x && x !in xs[..n]
    ensures FirstIndex(xs, x) == n
  {
  }

  /** Appending an element changes the first index of nothing already present. */
  lemma FirstIndexAppend<T>(xs: seq<T>, y: T, x: T)
    requires x in xs
    ensures FirstIndex(xs + [y], x) == FirstIndex(xs, x)
  {
    var n := FirstIndex(xs, x);
    assert (xs + [y])[..n] == xs[..n];
    FirstIndexUnique(xs + [y], x, n);
  }

  /** The values of `r` appear in the order of their first occurrences in `xs`. */
  predicate FirstOccurrenceOrder<T(==)>(r: seq<T>, xs: seq<T>)
  {
    forall i, j :: 0 <= i < j < |r| ==> FirstIndex(xs, r[i]) < FirstIndex(xs, r[j])
  }

  /** `Dedup` keeps the values in the order of their first occurrences: together with its
      contract (the same values, each once) this fixes the result completely. */
  lemma {:induction false} DedupOrder<T(!new)>(xs: seq<T>)
    ensures FirstOccurrenceOrder(Dedup(xs), xs)
  {
    if xs != [] {
      var init, last := xs[..|xs| - 1], xs[|xs| - 1];
      var d := Dedup(init);
      DedupOrder(init);
      assert xs == init + [last];
      forall y | y in d
        ensures FirstIndex(xs, y) == FirstIndex(init, y) < |init|
      {
        FirstIndexAppend(init, last, y);
      }
      if last !in d {
        FirstIndexUnique(xs, last, |init|);
        assert Dedup(xs) == d + [last];
      }
    }
  }

  /** A list without repetitions is left as it is. */
  lemma {:induction false} DedupOfDistinct<T(!new)>(xs: seq<T>)
    requires Distinct(xs)
    ensures Dedup(xs) == xs
  {
    if xs != [] {
      var init := xs[..|xs| - 1];
      DedupOfDistinct(init);
      assert xs[|xs| - 1] !in init;
      assert init + [xs[|xs| - 1]] == xs;
    }
  }

  /** Deduplicating twice changes nothing. */
  lemma DedupIdempotent<T(!new)>(xs: seq<T>)
    ensures Dedup(Dedup(xs)) == Dedup(xs)
  {
    DedupOfDistinct(Dedup(xs));
  }
}
