/** List and dictionary idioms shared by the modelled modules:
    duplicate removal, slicing, insertion-ordered dictionaries, the stable
    `list.sort(key=..., reverse=True)`, and "keep the newest N". */
module Collections {
  import opened Wrappers

  predicate NoDup<T(==)>(s: seq<T>) {
    forall i, j :: 0 <= i < j < |s| ==> s[i] != s[j]
  }

  /** Python's `s[:n]` for a non-negative `n`. */
  function Take<T>(s: seq<T>, n: nat): (r: seq<T>)
    ensures |r| == if n < |s| then n else |s|
    ensures r == s[..|r|]
  {
    if n < |s| then s[..n] else s
  }

  // ---------------------------------------------------------------------
  // Duplicate removal

  /** Distinct elements of `s` in order of first occurrence: the
      `seen`/`append` loop of the ticker parser. */
  function Dedup<T(==)>(s: seq<T>): (r: seq<T>)
    ensures NoDup(r)
    ensures forall i :: 0 <= i < |r| ==> r[i] in s
    ensures forall i :: 0 <= i < |s| ==> s[i] in r
    ensures |r| <= |s|
    decreases |s|
  {
    if s == [] then []
    else
      var d := Dedup(s[..|s| - 1]);
      if s[|s| - 1] in d then d else d + [s[|s| - 1]]
  }

  /** One step of the `seen`/`append` loop. */
  lemma DedupSnocStep<T>(s: seq<T>, x: T)
    ensures x in s ==> Dedup(s + [x]) == Dedup(s)
    ensures x !in s ==> Dedup(s + [x]) == Dedup(s) + [x]
  {
    assert (s + [x])[..|s|] == s;
    if x in s {
      var k :| 0 <= k < |s| && s[k] == x;
      assert x in Dedup(s);
    }
  }

  /** First position of `x` in `s`. */
  function IndexOf<T(==)>(s: seq<T>, x: T): (i: nat)
    requires x in s
    ensures i < |s| && s[i] == x && x !in s[..i]
  {
    if s[0] == x then 0 else 1 + IndexOf(s[1..], x)
  }

  lemma {:induction false} IndexOfPrefix<T>(s: seq<T>, n: nat, x: T)
    requires n <= |s| && x in s[..n]
    ensures IndexOf(s, x) == IndexOf(s[..n], x)
    decreases n
  {
    if s[0] != x {
      assert s[..n][1..] == s[1..][..n - 1];
      IndexOfPrefix(s[1..], n - 1, x);
    }
  }

  /** `Dedup` keeps the order in which elements first appear in the input. */
  lemma {:induction false} DedupKeepsFirstOccurrenceOrder<T>(s: seq<T>, i: nat, j: nat)
    requires i < j < |Dedup(s)|
    ensures Dedup(s)[i] in s && Dedup(s)[j] in s
    ensures IndexOf(s, Dedup(s)[i]) < IndexOf(s, Dedup(s)[j])
    decreases |s|
  {
    var p := s[..|s| - 1];
    var x := s[|s| - 1];
    var d := Dedup(p);
    var r := Dedup(s);
    assert s == p + [x];
    assert r[..|d|] == d && r[i] == d[i];
    assert r[i] in p;
    IndexOfPrefix(s, |s| - 1, r[i]);
    if j < |d| {
      assert r[j] == d[j];
      DedupKeepsFirstOccurrenceOrder(p, i, j);
      IndexOfPrefix(s, |s| - 1, r[j]);
    } else {
      assert r == d + [x] && r[j] == x;
      assert x !in p;
    }
  }

  /** A list that has no duplicates is its own deduplication. */
  lemma {:induction false} DedupOfDistinct<T>(s: seq<T>)
    requires NoDup(s)
    ensures Dedup(s) == s
    decreases |s|
  {
    if s != [] {
      var p := s[..|s| - 1];
      DedupOfDistinct(p);
      assert s[|s| - 1] !in p;
      assert p + [s[|s| - 1]] == s;
    }
  }

  /** Appending one element keeps every prefix of the deduplication. */
  lemma DedupSnoc<T>(w: seq<T>, n: nat)
    requires w != [] && n <= |Dedup(w[..|w| - 1])|
    ensures n <= |Dedup(w)| && Dedup(w)[..n] == Dedup(w[..|w| - 1])[..n]
  {
    var d := Dedup(w[..|w| - 1]);
    if w[|w| - 1] !in d {
      assert (d + [w[|w| - 1]])[..n] == d[..n];
    }
  }

  /** Appending never reorders or drops what was already kept. */
  lemma {:induction false} DedupPrefix<T>(s: seq<T>, t: seq<T>)
    ensures |Dedup(s)| <= |Dedup(s + t)| && Dedup(s + t)[..|Dedup(s)|] == Dedup(s)
    decreases |t|
  {
    if t == [] {
      assert s + t == s;
    } else {
      var u := t[..|t| - 1];
      DedupPrefix(s, u);
      var w := s + t;
      assert w[..|w| - 1] == s + u;
      DedupSnoc(w, |Dedup(s)|);
    }
  }

  lemma {:induction false} DedupAbsorbs<T>(s: seq<T>, t: seq<T>)
    requires forall x :: x in t ==> x in s
    ensures Dedup(s + t) == Dedup(s)
    decreases |t|
  {
    if t != [] {
      var u := t[..|t| - 1];
      var x := t[|t| - 1];
      assert (s + t)[..|s + t| - 1] == s + u;
      assert forall y :: y in u ==> y in t;
      DedupAbsorbs(s, u);
      assert (s + t)[|s + t| - 1] == x;
      assert x in s;
      var k :| 0 <= k < |s| && s[k] == x;
      assert x in Dedup(s);
      var w := s + t;
      assert w != [] && w[..|w| - 1] == s + u && w[|w| - 1] == x;
      assert Dedup(w) == Dedup(s + u);
    } else {
      assert s + t == s;
    }
  }

  // ---------------------------------------------------------------------
  // Insertion-ordered dictionaries (Python dicts that are iterated)

  function KeysOf<K, V>(al: seq<(K, V)>): (ks: seq<K>)
    ensures |ks| == |al| && forall i :: 0 <= i < |al| ==> ks[i] == al[i].0
  {
    seq(|al|, i requires 0 <= i < |al| => al[i].0)
  }

  /** `d[k] = v`: updates the entry for `k` in place, or appends a new one. */
  function Put<K(==), V>(al: seq<(K, V)>, k: K, v: V): (r: seq<(K, V)>)
    ensures k in KeysOf(al) ==> KeysOf(r) == KeysOf(al)
    ensures k !in KeysOf(al) ==> KeysOf(r) == KeysOf(al) + [k]
    ensures forall i :: 0 <= i < |al| && al[i].0 != k ==> r[i] == al[i]
  {
    if al == [] then [(k, v)]
    else if al[0].0 == k then [(k, v)] + al[1..]
    else [al[0]] + Put(al[1..], k, v)
  }

  /** `d.get(k)`: the value stored under `k`, if any. */
  function Find<K(==), V>(al: seq<(K, V)>, k: K): (r: Option<V>)
    ensures r.Some? <==> k in KeysOf(al)
    ensures r.Some? ==> exists i :: 0 <= i < |al| && al[i] == (k, r.value)
  {
    if al == [] then None
    else if al[0].0 == k then Some(al[0].1)
    else
      assert KeysOf(al) == [al[0].0] + KeysOf(al[1..]);
      assert forall i :: 0 <= i < |al[1..]| ==> al[1..][i] == al[i + 1];
      Find(al[1..], k)
  }

  /** With distinct keys, each entry is what its key finds. */
  lemma {:induction false} FindDistinct<K, V>(al: seq<(K, V)>, i: nat)
    requires i < |al| && NoDup(KeysOf(al))
    ensures Find(al, al[i].0) == Some(al[i].1)
  {
    if i > 0 {
      assert KeysOf(al)[0] != KeysOf(al)[i];
      assert al[1..][i - 1] == al[i];
      assert NoDup(KeysOf(al[1..])) by {
        forall a, b | 0 <= a < b < |al| - 1 ensures KeysOf(al[1..])[a] != KeysOf(al[1..])[b] {
          assert KeysOf(al)[a + 1] != KeysOf(al)[b + 1];
        }
      }
      FindDistinct(al[1..], i - 1);
    }
  }

  /** `d.get(k, default)`. */
  function GetOr<K(==), V>(al: seq<(K, V)>, k: K, default: V): V {
    if al == [] then default
    else if al[0].0 == k then al[0].1
    else GetOr(al[1..], k, default)
  }

  lemma {:induction false} GetAfterPut<K, V>(al: seq<(K, V)>, k: K, v: V, j: K, default: V)
    ensures GetOr(Put(al, k, v), j, default) == if j == k then v else GetOr(al, j, default)
  {
    if al != [] && al[0].0 != k {
      GetAfterPut(al[1..], k, v, j, default);
    }
  }

  lemma {:induction false} FindAfterPut<K, V>(al: seq<(K, V)>, k: K, v: V, j: K)
    ensures Find(Put(al, k, v), j) == if j == k then Some(v) else Find(al, j)
  {
    if al != [] && al[0].0 != k {
      FindAfterPut(al[1..], k, v, j);
    }
  }

  /** `d.get(k, default)` is the found value, or the default. */
  lemma {:induction false} GetOrFind<K, V>(al: seq<(K, V)>, k: K, default: V)
    ensures GetOr(al, k, default) == if Find(al, k).Some? then Find(al, k).value else default
  {
    if al != [] && al[0].0 != k {
      GetOrFind(al[1..], k, default);
    }
  }

  /** Writing a key keeps the keys distinct. */
  lemma PutKeepsDistinct<K, V>(al: seq<(K, V)>, k: K, v: V)
    requires NoDup(KeysOf(al))
    ensures NoDup(KeysOf(Put(al, k, v)))
  {
  }

  function SumValues<K>(al: seq<(K, real)>): real {
    if al == [] then 0.0 else al[0].1 + SumValues(al[1..])
  }

  /** `d[k] = d.get(k, 0) + w` raises the sum of the values by exactly `w`. */
  lemma SumCons<K>(a: (K, real), rest: seq<(K, real)>)
    ensures SumValues([a] + rest) == a.1 + SumValues(rest)
  {
    assert ([a] + rest)[1..] == rest;
  }

  /** `d[k] = d.get(k, 0) + w`. */
  function Accumulate<K(==)>(al: seq<(K, real)>, k: K, w: real): seq<(K, real)> {
    Put(al, k, GetOr(al, k, 0.0) + w)
  }

  /** Accumulating raises the sum of the values by exactly `w`. */
  lemma AccumulateAdds<K>(al: seq<(K, real)>, k: K, w: real)
    ensures SumValues(Accumulate(al, k, w)) == SumValues(al) + w
  {
    SumAfterAccumulate(al, k, w);
  }

  /** `d[k] = d.get(k, 0) + w` raises the sum of the values by exactly `w`. */
  lemma {:induction false} SumAfterAccumulate<K>(al: seq<(K, real)>, k: K, w: real)
    ensures SumValues(Put(al, k, GetOr(al, k, 0.0) + w)) == SumValues(al) + w
  {
    if al == [] {
      SumCons((k, w), []);
    } else if al[0].0 == k {
      SumCons((k, al[0].1 + w), al[1..]);
    } else {
      var v := GetOr(al[1..], k, 0.0) + w;
      SumAfterAccumulate(al[1..], k, w);
      SumCons(al[0], Put(al[1..], k, v));
    }
  }

  // ---------------------------------------------------------------------
  // Stable sorting, largest key first

  ghost predicate SortedDesc<T>(s: seq<T>, key: T -> real) {
    forall i, j :: 0 <= i < j < |s| ==> key(s[i]) >= key(s[j])
  }

  /** Places `x` before the first element whose key is not larger, so that
      `x`, coming earlier in the input, precedes its equals. */
  function InsertDesc<T>(x: T, s: seq<T>, key: T -> real): seq<T> {
    if s == [] || key(s[0]) <= key(x) then [x] + s
    else [s[0]] + InsertDesc(x, s[1..], key)
  }

  /** Insertion adds `x` and nothing else, and the new head is `x` or the old one. */
  lemma {:induction false} InsertDescKeeps<T>(x: T, s: seq<T>, key: T -> real)
    ensures multiset(InsertDesc(x, s, key)) == multiset(s) + multiset{x}
    ensures |InsertDesc(x, s, key)| == |s| + 1
    ensures InsertDesc(x, s, key)[0] == x || (s != [] && InsertDesc(x, s, key)[0] == s[0])
  {
    if s != [] && key(s[0]) > key(x) {
      InsertDescKeeps(x, s[1..], key);
      assert [s[0]] + s[1..] == s;
    }
  }

  /** Insertion into a sorted sequence keeps it sorted. */
  lemma {:induction false} InsertDescSorted<T>(x: T, s: seq<T>, key: T -> real)
    requires SortedDesc(s, key)
    ensures SortedDesc(InsertDesc(x, s, key), key)
  {
    var r := InsertDesc(x, s, key);
    if s == [] || key(s[0]) <= key(x) {
      forall i, j | 0 <= i < j < |r| ensures key(r[i]) >= key(r[j]) {
        assert r[j] == s[j - 1];
        if i > 0 {
          assert r[i] == s[i - 1];
        } else if j > 1 {
          assert key(s[0]) >= key(s[j - 1]);
        }
      }
    } else {
      var rest := InsertDesc(x, s[1..], key);
      InsertDescSorted(x, s[1..], key);
      InsertDescKeeps(x, s[1..], key);
      assert key(s[0]) >= key(rest[0]) by {
        if rest[0] != x {
          assert rest[0] == s[1];
        }
      }
      forall i, j | 0 <= i < j < |r| ensures key(r[i]) >= key(r[j]) {
        assert r[j] == rest[j - 1];
        if i > 0 {
          assert r[i] == rest[i - 1];
        } else if j > 1 {
          assert key(rest[0]) >= key(rest[j - 1]);
        }
      }
    }
  }

  /** `sorted(s, key=key, reverse=True)`: Python's sort is stable, and so is
      this insertion sort, which inserts earlier elements in front of equal later ones. */
  function SortDesc<T>(s: seq<T>, key: T -> real): (r: seq<T>)
    ensures multiset(r) == multiset(s)
    ensures |r| == |s|
    ensures SortedDesc(r, key)
  {
    if s == [] then []
    else
      var rest := SortDesc(s[1..], key);
      SortStep(s, rest, key);
      InsertDesc(s[0], rest, key)
  }

  /** Inserting the head into the sorted tail sorts the whole sequence. */
  lemma SortStep<T>(s: seq<T>, rest: seq<T>, key: T -> real)
    requires s != [] && multiset(rest) == multiset(s[1..]) && SortedDesc(rest, key)
    ensures multiset(InsertDesc(s[0], rest, key)) == multiset(s)
    ensures |InsertDesc(s[0], rest, key)| == |s|
    ensures SortedDesc(InsertDesc(s[0], rest, key), key)
  {
    InsertDescKeeps(s[0], rest, key);
    InsertDescSorted(s[0], rest, key);
    assert s == [s[0]] + s[1..];
    assert |rest| == |multiset(rest)| == |s[1..]|;
  }

  /** Sorting keeps exactly the same elements. */
  lemma SortDescMembers<T>(s: seq<T>, key: T -> real)
    ensures forall x :: x in SortDesc(s, key) <==> x in s
  {
    var r := SortDesc(s, key);
    forall x ensures x in r <==> x in s {
      assert x in r <==> x in multiset(r);
      assert x in s <==> x in multiset(s);
    }
  }

  /** The elements of `s` whose key is `k`, in their order in `s`. */
  function KeyRun<T>(s: seq<T>, key: T -> real, k: real): seq<T> {
    if s == [] then []
    else (if key(s[0]) == k then [s[0]] else []) + KeyRun(s[1..], key, k)
  }

  /** Insertion puts `x` ahead of every element with its key, and leaves
      the order among the other keys alone. */
  lemma {:induction false} InsertDescRun<T>(x: T, s: seq<T>, key: T -> real, k: real)
    ensures KeyRun(InsertDesc(x, s, key), key, k) == (if key(x) == k then [x] else []) + KeyRun(s, key, k)
  {
    if s == [] || key(s[0]) <= key(x) {
      assert ([x] + s)[1..] == s;
    } else {
      InsertDescRun(x, s[1..], key, k);
      assert ([s[0]] + InsertDesc(x, s[1..], key))[1..] == InsertDesc(x, s[1..], key);
    }
  }

  /** The sort is stable: for every key, the elements with that key come
      out in the order they went in. */
  lemma {:induction false} SortDescStable<T>(s: seq<T>, key: T -> real, k: real)
    ensures KeyRun(SortDesc(s, key), key, k) == KeyRun(s, key, k)
  {
    if s != [] {
      SortDescStable(s[1..], key, k);
      InsertDescRun(s[0], SortDesc(s[1..], key), key, k);
    }
  }

  /** The first `n` of a descending sort are the `n` largest: they come
      from `s`, there are as many as `n` allows, and nothing left out has a
      larger key than any of them. */
  lemma TopOfSorted<T>(s: seq<T>, key: T -> real, n: nat)
    ensures var t := Take(SortDesc(s, key), n);
      && |t| == (if n < |s| then n else |s|)
      && multiset(t) <= multiset(s)
      && forall x :: x in multiset(s) - multiset(t) ==> forall i :: 0 <= i < |t| ==> key(x) <= key(t[i])
  {
    var sorted := SortDesc(s, key);
    var t := Take(sorted, n);
    var rest := sorted[|t|..];
    assert sorted == t + rest;
    assert multiset(sorted) == multiset(t) + multiset(rest);
    forall x | x in multiset(s) - multiset(t)
      ensures forall i :: 0 <= i < |t| ==> key(x) <= key(t[i])
    {
      assert x in multiset(rest);
      assert x in rest;
      var j :| 0 <= j < |rest| && rest[j] == x;
      assert sorted[|t| + j] == x;
      forall i | 0 <= i < |t| ensures key(x) <= key(t[i]) {
        assert t[i] == sorted[i];
      }
    }
  }

  // ---------------------------------------------------------------------
  // Bounded histories

  /** `h.append(x); h = h[-cap:]`: the newest `cap` entries. */
  function KeepNewest<T>(h: seq<T>, x: T, cap: nat): (r: seq<T>)
    requires cap > 0
    ensures |r| == if |h| + 1 <= cap then |h| + 1 else cap
    ensures r[|r| - 1] == x
    ensures r == (h + [x])[|h| + 1 - |r|..]
  {
    var a := h + [x];
    if |a| > cap then a[|a| - cap..] else a
  }
}
