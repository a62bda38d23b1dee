/** Insertion-ordered counters (a `defaultdict(int)` filled by `+=`) and the stable
    descending sort that `sorted(..., key=..., reverse=True)` performs. */
module Tally {

  /** One key of a counter with its count. */
  datatype Entry = Entry(key: string, count: int)

  /** A dictionary from names to counts, in insertion order. */
  type Counter = seq<Entry>

  function Keys(c: Counter): (r: seq<string>)
    ensures |r| == |c| && forall i :: 0 <= i < |c| ==> r[i] == c[i].key
  {
    seq(|c|, i requires 0 <= i < |c| => c[i].key)
  }

  lemma KeysAppend(a: Counter, b: Counter)
    ensures Keys(a + b) == Keys(a) + Keys(b)
  {
  }

  /** No key appears twice. */
  predicate DistinctKeys(c: Counter) {
    forall i, j :: 0 <= i < j < |c| ==> c[i].key != c[j].key
  }

  /** `c[k]` on a `defaultdict(int)`: 0 for a missing key. */
  function Get(c: Counter, k: string): int
    decreases |c|
  {
    if c == [] then 0 else if c[0].key == k then c[0].count else Get(c[1..], k)
  }

  /** The value of a key appears at its index. */
  lemma {:induction false} GetAt(c: Counter, i: nat)
    requires DistinctKeys(c) && i < |c|
    ensures Get(c, c[i].key) == c[i].count
    decreases i
  {
    if i > 0 {
      GetAt(c[1..], i - 1);
    }
  }

  lemma {:induction false} GetAbsent(c: Counter, k: string)
    requires k !in Keys(c)
    ensures Get(c, k) == 0
    decreases |c|
  {
    if c != [] {
      assert Keys(c[1..]) == Keys(c)[1..];
      GetAbsent(c[1..], k);
    }
  }

  /** `c[k] += n`: a new key goes to the end, an existing one keeps its place. */
  function Bump(c: Counter, k: string, n: int): (r: Counter)
    ensures |r| == |c| + (if k in Keys(c) then 0 else 1)
    ensures forall j :: 0 <= j < |c| ==> r[j].key == c[j].key
    ensures k !in Keys(c) ==> r == c + [Entry(k, n)]
    ensures Get(r, k) == Get(c, k) + n
    ensures forall k' :: k' != k ==> Get(r, k') == Get(c, k')
    decreases |c|
  {
    if c == [] then [Entry(k, n)]
    else if c[0].key == k then [Entry(k, c[0].count + n)] + c[1..]
    else
      assert Keys(c[1..]) == Keys(c)[1..];
      [c[0]] + Bump(c[1..], k, n)
  }

  lemma BumpKeepsDistinct(c: Counter, k: string, n: int)
    requires DistinctKeys(c)
    ensures DistinctKeys(Bump(c, k, n))
    ensures Keys(Bump(c, k, n)) == if k in Keys(c) then Keys(c) else Keys(c) + [k]
  {
    var r := Bump(c, k, n);
    if k in Keys(c) {
      forall i, j | 0 <= i < j < |r| ensures r[i].key != r[j].key {
        assert r[i].key == c[i].key && r[j].key == c[j].key;
      }
      assert Keys(r) == Keys(c);
    } else {
      forall i, j | 0 <= i < j < |r| ensures r[i].key != r[j].key {
        if j == |c| {
          assert r[i].key == Keys(c)[i];
        } else {
          assert r[i] == c[i] && r[j] == c[j];
        }
      }
      KeysAppend(c, [Entry(k, n)]);
    }
  }


  /** Counting each element of `xs` once, in order. */
  function TallyOf(xs: seq<string>): (c: Counter)
    decreases |xs|
  {
    if xs == [] then [] else Bump(TallyOf(xs[..|xs| - 1]), xs[|xs| - 1], 1)
  }

  /** A tally counts every element exactly as often as it occurs, lists each distinct
      element once, and lists nothing else. */
  lemma TallyCounts(xs: seq<string>)
    ensures DistinctKeys(TallyOf(xs))
    ensures forall k :: Get(TallyOf(xs), k) == multiset(xs)[k]
    ensures forall k :: k in Keys(TallyOf(xs)) <==> k in xs
  {
    TallyDistinct(xs);
    TallyGet(xs);
  }

  lemma {:induction false} TallyDistinct(xs: seq<string>)
    ensures DistinctKeys(TallyOf(xs))
    ensures forall k :: k in Keys(TallyOf(xs)) <==> k in xs
    decreases |xs|
  {
    if xs != [] {
      var init, x := xs[..|xs| - 1], xs[|xs| - 1];
      TallyDistinct(init);
      BumpKeepsDistinct(TallyOf(init), x, 1);
      assert xs == init + [x];
    }
  }

  lemma {:induction false} TallyGet(xs: seq<string>)
    ensures forall k :: Get(TallyOf(xs), k) == multiset(xs)[k]
    decreases |xs|
  {
    if xs != [] {
      var init, x := xs[..|xs| - 1], xs[|xs| - 1];
      TallyGet(init);
      assert xs == init + [x];
      assert multiset(xs) == multiset(init) + multiset{x};
    }
  }

  /** Adds every entry's count to the counter, in order. */
  function AddAll(c: Counter, entries: seq<Entry>): (r: Counter)
    decreases |entries|
  {
    if entries == [] then c
    else Bump(AddAll(c, entries[..|entries| - 1]), entries[|entries| - 1].key, entries[|entries| - 1].count)
  }

  /** Adding entries adds to each key the counts listed for it. */
  lemma {:induction false} AddAllGet(c: Counter, entries: seq<Entry>, k: string)
    ensures Get(AddAll(c, entries), k) == Get(c, k) + SumFor(entries, k)
    decreases |entries|
  {
    if entries != [] {
      AddAllGet(c, entries[..|entries| - 1], k);
    }
  }

  lemma {:induction false} AddAllDistinct(c: Counter, entries: seq<Entry>)
    requires DistinctKeys(c)
    ensures DistinctKeys(AddAll(c, entries))
    decreases |entries|
  {
    if entries != [] {
      var e := entries[|entries| - 1];
      AddAllDistinct(c, entries[..|entries| - 1]);
      BumpKeepsDistinct(AddAll(c, entries[..|entries| - 1]), e.key, e.count);
    }
  }

  /** Bumping a key lists it, and keeps every key already listed. */
  lemma BumpHasKey(c: Counter, k: string, n: int, x: string)
    ensures x in Keys(Bump(c, k, n)) <==> x in Keys(c) || x == k
  {
    var r := Bump(c, k, n);
    if x in Keys(c) {
      var j :| 0 <= j < |c| && Keys(c)[j] == x;
      assert Keys(r)[j] == x;
    }
    if x == k && k !in Keys(c) {
      assert Keys(r)[|c|] == k;
    }
    if x in Keys(r) {
      var j :| 0 <= j < |r| && Keys(r)[j] == x;
      if j < |c| {
        assert Keys(c)[j] == x;
      }
    }
  }

  /** Adding entries lists exactly the keys already there and the keys added. */
  lemma {:induction false} AddAllKeys(c: Counter, entries: seq<Entry>, k: string)
    ensures k in Keys(AddAll(c, entries)) <==> k in Keys(c) || k in Keys(entries)
    decreases |entries|
  {
    if entries != [] {
      var init := entries[..|entries| - 1];
      var e := entries[|entries| - 1];
      AddAllKeys(c, init, k);
      BumpHasKey(AddAll(c, init), e.key, e.count, k);
      assert entries == init + [e];
      KeysAppend(init, [e]);
      assert Keys(entries) == Keys(init) + [e.key];
    }
  }



  /** The total of the counts listed for one key. */
  function SumFor(entries: seq<Entry>, k: string): int
    decreases |entries|
  {
    if entries == [] then 0
    else SumFor(entries[..|entries| - 1], k) + (if entries[|entries| - 1].key == k then entries[|entries| - 1].count else 0)
  }

  /** Looking up a key after appending an entry. */
  lemma {:induction false} GetSnoc(c: Counter, e: Entry, k: string)
    ensures Get(c + [e], k) == if k in Keys(c) then Get(c, k) else if e.key == k then e.count else 0
    decreases |c|
  {
    if c != [] {
      assert (c + [e])[1..] == c[1..] + [e];
      assert Keys(c[1..]) == Keys(c)[1..];
      GetSnoc(c[1..], e, k);
    }
  }

  /** In a counter without repeated keys, the counts listed for a key are its value. */
  lemma {:induction false} SumForDistinct(c: Counter, k: string)
    requires DistinctKeys(c)
    ensures SumFor(c, k) == Get(c, k)
    decreases |c|
  {
    if c != [] {
      var init, last := c[..|c| - 1], c[|c| - 1];
      SumForDistinct(init, k);
      assert c == init + [last];
      GetSnoc(init, last, k);
      if k !in Keys(init) {
        GetAbsent(init, k);
      } else {
        var j :| 0 <= j < |init| && Keys(init)[j] == k;
        assert c[j].key == k;
      }
    }
  }

  lemma {:induction false} SumForAppend(a: seq<Entry>, b: seq<Entry>, k: string)
    ensures SumFor(a + b, k) == SumFor(a, k) + SumFor(b, k)
    decreases |b|
  {
    if b != [] {
      var ab := a + b;
      assert ab != [] && ab[|ab| - 1] == b[|b| - 1];
      assert ab[..|ab| - 1] == a + b[..|b| - 1];
      SumForAppend(a, b[..|b| - 1], k);
    } else {
      assert a + b == a;
    }
  }

  /** The total of all counts. */
  function Total(c: Counter): int
    decreases |c|
  {
    if c == [] then 0 else Total(c[..|c| - 1]) + c[|c| - 1].count
  }

  lemma {:induction false} TotalOfNonNegative(c: Counter)
    requires forall i :: 0 <= i < |c| ==> c[i].count >= 0
    ensures Total(c) >= 0
    ensures Total(c) == 0 ==> forall i :: 0 <= i < |c| ==> c[i].count == 0
    decreases |c|
  {
    if c != [] {
      TotalOfNonNegative(c[..|c| - 1]);
    }
  }

  // ---------------------------------------------------------------------------
  // Stable descending sort

  /** `r` is ordered by non-increasing key. */
  predicate SortedDesc<T>(r: seq<T>, key: T -> real) {
    forall i, j :: 0 <= i < j < |r| ==> key(r[i]) >= key(r[j])
  }

  /** Places `x` before the first element whose key is not larger than its own. */
  function Insert<T>(x: T, s: seq<T>, key: T -> real): (r: seq<T>)
    ensures |r| == |s| + 1
    decreases |s|
  {
    if s == [] || key(s[0]) <= key(x) then [x] + s else [s[0]] + Insert(x, s[1..], key)
  }

  /** Inserting adds the one element and loses none. */
  lemma {:induction false} InsertPerm<T>(x: T, s: seq<T>, key: T -> real)
    ensures multiset(Insert(x, s, key)) == multiset(s) + multiset{x}
    decreases |s|
  {
    if !(s == [] || key(s[0]) <= key(x)) {
      InsertPerm(x, s[1..], key);
      assert s == [s[0]] + s[1..];
    }
  }

  /** Inserting into a sorted sequence keeps it sorted. */
  lemma {:induction false} InsertSorted<T>(x: T, s: seq<T>, key: T -> real)
    requires SortedDesc(s, key)
    ensures SortedDesc(Insert(x, s, key), key)
    decreases |s|
  {
    if s == [] || key(s[0]) <= key(x) {
      SortedCons(x, s, key);
    } else {
      InsertSorted(x, s[1..], key);
      InsertBelow(x, s[1..], key, key(s[0]));
      SortedCons(s[0], Insert(x, s[1..], key), key);
    }
  }

  /** An element in front of a sorted sequence whose keys do not exceed its own. */
  lemma SortedCons<T>(h: T, s: seq<T>, key: T -> real)
    requires SortedDesc(s, key) && forall i :: 0 <= i < |s| ==> key(s[i]) <= key(h)
    ensures SortedDesc([h] + s, key)
  {
    var r := [h] + s;
    forall i, j | 0 <= i < j < |r| ensures key(r[i]) >= key(r[j]) {
      assert r[j] == s[j - 1];
      if i > 0 {
        assert r[i] == s[i - 1];
      }
    }
  }

  /** Inserting an element whose key is at most `b` among elements whose keys are
      at most `b` keeps every key at most `b`. */
  lemma {:induction false} InsertBelow<T>(x: T, s: seq<T>, key: T -> real, b: real)
    requires key(x) <= b && forall i :: 0 <= i < |s| ==> key(s[i]) <= b
    ensures forall i :: 0 <= i < |Insert(x, s, key)| ==> key(Insert(x, s, key)[i]) <= b
    decreases |s|
  {
    var r := Insert(x, s, key);
    if s == [] || key(s[0]) <= key(x) {
      forall i | 0 < i < |r| ensures key(r[i]) <= b {
        assert r[i] == s[i - 1];
      }
    } else {
      var rest := Insert(x, s[1..], key);
      InsertBelow(x, s[1..], key, b);
      forall i | 0 < i < |r| ensures key(r[i]) <= b {
        assert r[i] == rest[i - 1];
      }
    }
  }

  /** `sorted(s, key=key, reverse=True)`: ordered by non-increasing key, elements
      with equal keys in their original order. */
  function SortDesc<T>(s: seq<T>, key: T -> real): (r: seq<T>)
    ensures |r| == |s| && multiset(r) == multiset(s)
    ensures SortedDesc(r, key)
    decreases |s|
  {
    if s == [] then []
    else
      assert s == [s[0]] + s[1..];
      InsertSorted(s[0], SortDesc(s[1..], key), key);
      InsertPerm(s[0], SortDesc(s[1..], key), key);
      Insert(s[0], SortDesc(s[1..], key), key)
  }

  /** The elements with one given key, in order. */
  function WithKey<T>(s: seq<T>, key: T -> real, v: real): seq<T>
    decreases |s|
  {
    if s == [] then [] else (if key(s[0]) == v then [s[0]] else []) + WithKey(s[1..], key, v)
  }

  lemma {:induction false} InsertWithKey<T>(x: T, s: seq<T>, key: T -> real, v: real)
    ensures WithKey(Insert(x, s, key), key, v) == (if key(x) == v then [x] else []) + WithKey(s, key, v)
    decreases |s|
  {
    if s == [] || key(s[0]) <= key(x) {
      WithKeyCons(x, s, key, v);
    } else {
      var rest := Insert(x, s[1..], key);
      InsertWithKey(x, s[1..], key, v);
      WithKeyCons(s[0], rest, key, v);
      WithKeyCons(s[0], s[1..], key, v);
      assert [s[0]] + s[1..] == s;
      SwapEmpty(if key(s[0]) == v then [s[0]] else [], if key(x) == v then [x] else [], WithKey(s[1..], key, v));
    }
  }

  lemma SwapEmpty<T>(a: seq<T>, b: seq<T>, c: seq<T>)
    requires a == [] || b == []
    ensures a + (b + c) == b + (a + c)
  {
  }

  lemma WithKeyCons<T>(h: T, s: seq<T>, key: T -> real, v: real)
    ensures WithKey([h] + s, key, v) == (if key(h) == v then [h] else []) + WithKey(s, key, v)
  {
    assert ([h] + s)[1..] == s;
  }

  /** The sort is stable: the elements sharing any one key keep their order. */
  lemma {:induction false} SortStable<T>(s: seq<T>, key: T -> real, v: real)
    ensures WithKey(SortDesc(s, key), key, v) == WithKey(s, key, v)
    decreases |s|
  {
    if s != [] {
      SortStable(s[1..], key, v);
      InsertWithKey(s[0], SortDesc(s[1..], key), key, v);
    }
  }

  /** `s[:n]`. */
  function Take<T>(s: seq<T>, n: nat): (r: seq<T>)
    ensures |r| == if |s| < n then |s| else n
    ensures r == s[..|r|]
  {
    if |s| <= n then s else s[..n]
  }

  /** The first `n` of a sorted sequence are sorted and none of the rest outranks
      any of them. */
  lemma TakeTop<T>(s: seq<T>, key: T -> real, n: nat)
    requires SortedDesc(s, key)
    ensures SortedDesc(Take(s, n), key)
    ensures forall i, j :: 0 <= i < |Take(s, n)| <= j < |s| ==> key(s[i]) >= key(s[j])
  {
  }

  /** An entry's count as a sort key. */
  function CountKey(e: Entry): real {
    e.count as real
  }

  /** Sorting a counter keeps its keys distinct. */
  /** Sorting a counter lists each of its keys with its count, and nothing else. */
  lemma SortedEntry(c: Counter, e: Entry)
    requires DistinctKeys(c) && e in SortDesc(c, CountKey)
    ensures e.key in Keys(c) && Get(c, e.key) == e.count
  {
    assert e in multiset(c);
    var j :| 0 <= j < |c| && c[j] == e;
    GetAt(c, j);
    assert Keys(c)[j] == e.key;
  }

  lemma SortedFound(c: Counter, k: string)
    requires DistinctKeys(c) && k in Keys(c)
    ensures Entry(k, Get(c, k)) in SortDesc(c, CountKey)
  {
    var j :| 0 <= j < |c| && Keys(c)[j] == k;
    GetAt(c, j);
    assert c[j] in multiset(SortDesc(c, CountKey));
  }

  lemma {:induction false} SortKeepsDistinct(c: Counter)
    requires DistinctKeys(c)
    ensures DistinctKeys(SortDesc(c, CountKey))
    decreases |c|
  {
    if c != [] {
      var rest := SortDesc(c[1..], CountKey);
      SortKeepsDistinct(c[1..]);
      forall i | 0 <= i < |rest| ensures rest[i].key != c[0].key {
        assert rest[i] in multiset(c[1..]);
        var j :| 0 <= j < |c[1..]| && c[1..][j] == rest[i];
        assert c[j + 1] == rest[i];
      }
      InsertDistinct(c[0], rest);
    }
  }

  lemma {:induction false} InsertDistinct(x: Entry, s: Counter)
    requires DistinctKeys(s) && forall i :: 0 <= i < |s| ==> s[i].key != x.key
    ensures DistinctKeys(Insert(x, s, CountKey))
    decreases |s|
  {
    var r := Insert(x, s, CountKey);
    if !(s == [] || CountKey(s[0]) <= CountKey(x)) {
      var rest := Insert(x, s[1..], CountKey);
      InsertDistinct(x, s[1..]);
      InsertAvoids(x, s[1..], s[0].key);
      forall i, j | 0 <= i < j < |r| ensures r[i].key != r[j].key {
        assert r[j] == rest[j - 1];
        if i > 0 {
          assert r[i] == rest[i - 1];
        }
      }
    } else {
      forall i, j | 0 <= i < j < |r| ensures r[i].key != r[j].key {
        assert r[j] == s[j - 1];
        if i > 0 {
          assert r[i] == s[i - 1];
        }
      }
    }
  }

  /** Inserting an entry whose key is not `k` among entries whose keys are not `k`
      adds no entry with key `k`. */
  lemma {:induction false} InsertAvoids(x: Entry, s: Counter, k: string)
    requires x.key != k && forall i :: 0 <= i < |s| ==> s[i].key != k
    ensures forall i :: 0 <= i < |Insert(x, s, CountKey)| ==> Insert(x, s, CountKey)[i].key != k
    decreases |s|
  {
    var r := Insert(x, s, CountKey);
    if s == [] || CountKey(s[0]) <= CountKey(x) {
      forall i | 0 < i < |r| ensures r[i].key != k {
        assert r[i] == s[i - 1];
      }
    } else {
      var rest := Insert(x, s[1..], CountKey);
      InsertAvoids(x, s[1..], k);
      forall i | 0 < i < |r| ensures r[i].key != k {
        assert r[i] == rest[i - 1];
      }
    }
  }
}
