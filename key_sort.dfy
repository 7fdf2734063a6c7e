/** `Array.prototype.sort` with a key-difference comparator
    `(a, b) => key(a) - key(b)`: an in-place, stable sort into non-decreasing
    key order. Stability is stated through `WithKey`, the entries of one key
    in their order of appearance: a stable sort keeps every such subsequence. */
module KeySort {
  /** Non-decreasing in `key`. */
  ghost predicate SortedByKey<T>(s: seq<T>, key: T -> int) {
    forall i, j :: 0 <= i < j < |s| ==> key(s[i]) <= key(s[j])
  }

  /** The entries of `s` whose key is `k`, in their order in `s`. */
  ghost function WithKey<T>(s: seq<T>, key: T -> int, k: int): seq<T> {
    if s == [] then []
    else WithKey(s[..|s| - 1], key, k) + (if key(s[|s| - 1]) == k then [s[|s| - 1]] else [])
  }

  /** `s` and `t` hold the same entries of each key in the same order. */
  ghost predicate StableFor<T>(s: seq<T>, t: seq<T>, key: T -> int) {
    forall k :: WithKey(s, key, k) == WithKey(t, key, k)
  }

  /** Selecting by key distributes over concatenation. */
  lemma {:induction false} WithKeyAppend<T>(s: seq<T>, t: seq<T>, key: T -> int, k: int)
    ensures WithKey(s + t, key, k) == WithKey(s, key, k) + WithKey(t, key, k)
  {
    if t == [] {
      assert s + t == s;
    } else {
      var last := t[|t| - 1];
      assert (s + t)[..|s + t| - 1] == s + t[..|t| - 1];
      WithKeyAppend(s, t[..|t| - 1], key, k);
    }
  }

  /** Exchanging two neighbours with different keys keeps every key's
      entries in the same order. */
  lemma WithKeySwap<T>(s: seq<T>, i: int, key: T -> int)
    requires 0 <= i < |s| - 1 && key(s[i]) != key(s[i + 1])
    ensures StableFor(s[i := s[i + 1]][i + 1 := s[i]], s, key)
  {
    var t := s[i := s[i + 1]][i + 1 := s[i]];
    assert s == s[..i] + [s[i], s[i + 1]] + s[i + 2..];
    assert t == s[..i] + [s[i + 1], s[i]] + s[i + 2..];
    forall k
      ensures WithKey(t, key, k) == WithKey(s, key, k)
    {
      WithKeyAppend(s[..i] + [s[i], s[i + 1]], s[i + 2..], key, k);
      WithKeyAppend(s[..i], [s[i], s[i + 1]], key, k);
      WithKeyAppend(s[..i] + [s[i + 1], s[i]], s[i + 2..], key, k);
      WithKeyAppend(s[..i], [s[i + 1], s[i]], key, k);
      assert [s[i], s[i + 1]][..1] == [s[i]];
      assert [s[i + 1], s[i]][..1] == [s[i + 1]];
      assert [s[i]][..0] == [] && [s[i + 1]][..0] == [];
    }
  }

  /** An entry whose key is `k` is among the entries of key `k`. */
  lemma {:induction false} WithKeyHasEntry<T>(s: seq<T>, key: T -> int, i: int)
    requires 0 <= i < |s|
    ensures WithKey(s, key, key(s[i])) != []
  {
    if i < |s| - 1 {
      WithKeyHasEntry(s[..|s| - 1], key, i);
    }
  }

  /** Every entry among the entries of key `k` occurs in `s` with key `k`. */
  lemma {:induction false} WithKeyEntryOccurs<T>(s: seq<T>, key: T -> int, k: int)
    requires WithKey(s, key, k) != []
    ensures exists i :: 0 <= i < |s| && key(s[i]) == k
  {
    if key(s[|s| - 1]) != k {
      WithKeyEntryOccurs(s[..|s| - 1], key, k);
      var i :| 0 <= i < |s| - 1 && key(s[..|s| - 1][i]) == k;
      assert key(s[i]) == k;
    }
  }

  /** In a sorted sequence no entry has a key above the last one's. */
  lemma LastKeyIsGreatest<T>(s: seq<T>, key: T -> int, k: int)
    requires SortedByKey(s, key) && WithKey(s, key, k) != []
    ensures s != [] && k <= key(s[|s| - 1])
  {
    WithKeyEntryOccurs(s, key, k);
  }

  /** A sequence with the same entries of every key as the empty one is empty. */
  lemma OnlyEmptyMatchesEmpty<T>(s: seq<T>, key: T -> int)
    requires StableFor(s, [], key)
    ensures s == []
  {
    if s != [] {
      WithKeyHasEntry(s, key, |s| - 1);
    }
  }

  /** Two sorted sequences with the same entries of every key end with the
      same entry. */
  lemma SameLast<T>(s: seq<T>, t: seq<T>, key: T -> int)
    requires SortedByKey(s, key) && SortedByKey(t, key) && StableFor(s, t, key)
    requires s != [] && t != []
    ensures s[|s| - 1] == t[|t| - 1]
  {
    var x, y := s[|s| - 1], t[|t| - 1];
    WithKeyHasEntry(t, key, |t| - 1);
    assert WithKey(s, key, key(y)) == WithKey(t, key, key(y));
    LastKeyIsGreatest(s, key, key(y));
    WithKeyHasEntry(s, key, |s| - 1);
    assert WithKey(t, key, key(x)) == WithKey(s, key, key(x));
    LastKeyIsGreatest(t, key, key(x));
    var ws, wt := WithKey(s, key, key(x)), WithKey(t, key, key(x));
    assert ws == WithKey(s[..|s| - 1], key, key(x)) + [x];
    assert wt == WithKey(t[..|t| - 1], key, key(y)) + [y];
    assert ws[|ws| - 1] == x && wt[|wt| - 1] == y;
  }

  /** Dropping a common last entry keeps the entries of every key equal. */
  lemma DropLast<T>(s: seq<T>, t: seq<T>, key: T -> int)
    requires s != [] && t != [] && s[|s| - 1] == t[|t| - 1] && StableFor(s, t, key)
    ensures StableFor(s[..|s| - 1], t[..|t| - 1], key)
  {
    var x, s', t' := s[|s| - 1], s[..|s| - 1], t[..|t| - 1];
    forall k
      ensures WithKey(s', key, k) == WithKey(t', key, k)
    {
      var w := if key(x) == k then [x] else [];
      var ws := WithKey(s, key, k);
      assert ws == WithKey(s', key, k) + w;
      assert WithKey(t, key, k) == WithKey(t', key, k) + w;
      assert WithKey(s', key, k) == ws[..|ws| - |w|];
    }
  }

  /** A sorted order that keeps each key's entries in a given order is
      unique: two sorted sequences with the same entries of every key, in the
      same order, are equal. */
  lemma {:induction false} StableSortIsUnique<T>(s: seq<T>, t: seq<T>, key: T -> int)
    requires SortedByKey(s, key) && SortedByKey(t, key) && StableFor(s, t, key)
    ensures s == t
    decreases |s|
  {
    if t == [] {
      OnlyEmptyMatchesEmpty(s, key);
    } else if s == [] {
      OnlyEmptyMatchesEmpty(t, key);
    } else {
      SameLast(s, t, key);
      DropLast(s, t, key);
      StableSortIsUnique(s[..|s| - 1], t[..|t| - 1], key);
      assert s == s[..|s| - 1] + [s[|s| - 1]];
      assert t == t[..|t| - 1] + [t[|t| - 1]];
    }
  }

  /** `s` with the neighbours at `i` and `i + 1` exchanged. */
  function Swap<T>(s: seq<T>, i: int): (r: seq<T>)
    requires 0 <= i < |s| - 1
    ensures |r| == |s| && r[i] == s[i + 1] && r[i + 1] == s[i]
    ensures forall p :: 0 <= p < |s| && p != i && p != i + 1 ==> r[p] == s[p]
  {
    s[i := s[i + 1]][i + 1 := s[i]]
  }

  /** Keeping the same entries of each key in order is transitive. */
  lemma StableTrans<T>(s: seq<T>, t: seq<T>, u: seq<T>, key: T -> int)
    requires StableFor(s, t, key) && StableFor(t, u, key)
    ensures StableFor(s, u, key)
  {
    forall k
      ensures WithKey(s, key, k) == WithKey(u, key, k)
    {
      assert WithKey(s, key, k) == WithKey(t, key, k);
    }
  }

  /** The state of the insertion of `s[j]` (originally at `i`) into the
      sorted prefix: everything up to `i` is in order except around position
      `j`, and the entries it has passed all have strictly greater keys. */
  ghost predicate Sinking<T>(s: seq<T>, i: int, j: int, key: T -> int) {
    0 <= j <= i < |s|
    && (forall p, q :: 0 <= p < q <= i && q != j ==> key(s[p]) <= key(s[q]))
    && (forall q :: j < q <= i ==> key(s[j]) < key(s[q]))
  }

  /** The insertion starts from a sorted prefix. */
  lemma SinkingStart<T>(s: seq<T>, i: int, key: T -> int)
    requires 0 <= i < |s| && SortedByKey(s[..i], key)
    ensures Sinking(s, i, i, key)
  {
    forall p, q | 0 <= p < q <= i && q != i
      ensures key(s[p]) <= key(s[q])
    {
      assert s[..i][p] == s[p] && s[..i][q] == s[q];
    }
  }

  /** One exchange with a strictly greater left neighbour keeps the insertion
      state, the multiset and each key's order. */
  lemma SinkingStep<T>(s: seq<T>, i: int, j: int, key: T -> int)
    requires Sinking(s, i, j, key) && j > 0 && key(s[j - 1]) > key(s[j])
    ensures Sinking(Swap(s, j - 1), i, j - 1, key)
    ensures multiset(Swap(s, j - 1)) == multiset(s)
    ensures StableFor(Swap(s, j - 1), s, key)
  {
    WithKeySwap(s, j - 1, key);
  }

  /** The insertion is over once the left neighbour's key is not greater. */
  lemma SinkingDone<T>(s: seq<T>, i: int, j: int, key: T -> int)
    requires Sinking(s, i, j, key) && (j == 0 || key(s[j - 1]) <= key(s[j]))
    ensures SortedByKey(s[..i + 1], key)
  {
    forall p, q | 0 <= p < q <= i
      ensures key(s[p]) <= key(s[q])
    {
      if q == j && p < j - 1 {
        assert key(s[p]) <= key(s[j - 1]);
      }
    }
  }

  /** Moves `a[i]` left past the entries with a strictly greater key, so that
      `a[..i + 1]` becomes sorted when `a[..i]` was. */
  method Sink<T>(a: array<T>, i: int, key: T -> int)
    requires 0 <= i < a.Length && SortedByKey(a[..i], key)
    modifies a
    ensures SortedByKey(a[..i + 1], key)
    ensures multiset(a[..]) == multiset(old(a[..]))
    ensures StableFor(a[..], old(a[..]), key)
  {
    SinkingStart(a[..], i, key);
    var j := i;
    while j > 0 && key(a[j - 1]) > key(a[j])
      invariant Sinking(a[..], i, j, key)
      invariant multiset(a[..]) == multiset(old(a[..]))
      invariant StableFor(a[..], old(a[..]), key)
    {
      ghost var s := a[..];
      SinkingStep(s, i, j, key);
      StableTrans(Swap(s, j - 1), s, old(a[..]), key);
      a[j - 1], a[j] := a[j], a[j - 1];
      assert a[..] == Swap(s, j - 1);
      j := j - 1;
    }
    SinkingDone(a[..], i, j, key);
  }

  /** Sorts `a` in place, stably, into non-decreasing key order; an array
      already in order is left as it was. */
  method SortByKey<T>(a: array<T>, key: T -> int)
    modifies a
    ensures SortedByKey(a[..], key)
    ensures multiset(a[..]) == multiset(old(a[..]))
    ensures StableFor(a[..], old(a[..]), key)
    ensures SortedByKey(old(a[..]), key) ==> a[..] == old(a[..])
  {
    var i := 0;
    while i < a.Length
      invariant 0 <= i <= a.Length
      invariant SortedByKey(a[..i], key)
      invariant multiset(a[..]) == multiset(old(a[..]))
      invariant StableFor(a[..], old(a[..]), key)
    {
      Sink(a, i, key);
      i := i + 1;
    }
    assert a[..i] == a[..];
    if SortedByKey(old(a[..]), key) {
      StableSortIsUnique(a[..], old(a[..]), key);
    }
  }
}
