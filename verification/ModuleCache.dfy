/** The cache of compiled modules: least recently used first, under a count limit and a byte budget. */
module ModuleCache {
  import opened Wrappers

  datatype Entry<K, M> = Entry(key: K, image: M, size: nat)

  datatype Limits = Limits(maxBytes: nat, maxModules: nat)

  // ---- The specification ----

  predicate Has<K(==), M>(es: seq<Entry<K, M>>, key: K) {
    exists i :: 0 <= i < |es| && es[i].key == key
  }

  ghost predicate Unique<K, M>(es: seq<Entry<K, M>>) {
    forall i, j :: 0 <= i < j < |es| ==> es[i].key != es[j].key
  }

  function Total<K, M>(es: seq<Entry<K, M>>): nat {
    if es == [] then 0 else es[0].size + Total(es[1..])
  }

  /** What every operation keeps. */
  ghost predicate Sound<K, M>(l: Limits, es: seq<Entry<K, M>>) {
    Unique(es) && Total(es) <= l.maxBytes && |es| <= l.maxModules
  }

  function Without<K(==), M>(es: seq<Entry<K, M>>, key: K): (r: seq<Entry<K, M>>)
    ensures Has(es, key) ==> |r| == |es| - 1
  {
    if es == [] then []
    else if es[0].key == key then es[1..]
    else
      assert Has(es, key) ==> Has(es[1..], key) by {
        if i :| 0 <= i < |es| && es[i].key == key {
          assert es[1..][i - 1].key == key;
        }
      }
      [es[0]] + Without(es[1..], key)
  }

  function Find<K(==), M>(es: seq<Entry<K, M>>, key: K): (r: Option<Entry<K, M>>)
    ensures r.Some? <==> Has(es, key)
    ensures r.Some? ==> r.value in es && r.value.key == key
  {
    if es == [] then None
    else if es[0].key == key then Some(es[0])
    else
      assert Has(es, key) <==> Has(es[1..], key) by {
        if i :| 0 <= i < |es| && es[i].key == key {
          assert es[1..][i - 1].key == key;
        }
      }
      Find(es[1..], key)
  }

  /** A lookup moves what it finds to the back. */
  function Touched<K(==), M>(es: seq<Entry<K, M>>, key: K): seq<Entry<K, M>> {
    match Find(es, key)
    case None => es
    case Some(e) => Without(es, key) + [e]
  }

  /** Whether an entry of `size` can be appended to `es`. */
  predicate Fits<K, M>(l: Limits, es: seq<Entry<K, M>>, size: nat) {
    |es| < l.maxModules && Total(es) + size <= l.maxBytes
  }

  predicate Cacheable(l: Limits, size: nat) {
    size <= l.maxBytes && l.maxModules > 0
  }

  /** How many entries have to go from the front. */
  function Evictions<K, M>(l: Limits, es: seq<Entry<K, M>>, size: nat): (n: nat)
    ensures n <= |es|
  {
    if es == [] || Fits(l, es, size) then 0 else 1 + Evictions(l, es[1..], size)
  }

  function Inserted<K(==), M>(l: Limits, es: seq<Entry<K, M>>, e: Entry<K, M>): seq<Entry<K, M>> {
    if !Cacheable(l, e.size) || Has(es, e.key) then es
    else es[Evictions(l, es, e.size)..] + [e]
  }

  // ---- Sequences ----

  lemma {:induction false} TotalConcat<K, M>(a: seq<Entry<K, M>>, b: seq<Entry<K, M>>)
    ensures Total(a + b) == Total(a) + Total(b)
  {
    if a == [] {
      assert a + b == b;
    } else {
      assert (a + b)[0] == a[0] && (a + b)[1..] == a[1..] + b;
      TotalConcat(a[1..], b);
    }
  }

  /** Removing and finding an entry, given where it is. */
  lemma {:induction false} WithoutAt<K, M>(es: seq<Entry<K, M>>, i: nat)
    requires Unique(es) && i < |es|
    ensures Without(es, es[i].key) == es[..i] + es[i + 1..]
    ensures Find(es, es[i].key) == Some(es[i])
  {
    if i > 0 {
      assert es[0].key != es[i].key;
      WithoutAt(es[1..], i - 1);
      assert es[1..][i - 1] == es[i];
      assert es[..i] + es[i + 1..] == [es[0]] + (es[1..][..i - 1] + es[1..][i..]);
    } else {
      assert es[..0] + es[1..] == es[1..];
    }
  }

  lemma {:induction false} WithoutAbsent<K, M>(es: seq<Entry<K, M>>, key: K)
    requires !Has(es, key)
    ensures Without(es, key) == es
  {
    if es != [] {
      assert es[0].key != key;
      forall i | 0 <= i < |es[1..]| ensures es[1..][i].key != key {
        assert es[1..][i] == es[i + 1];
      }
      WithoutAbsent(es[1..], key);
    }
  }

  /** The evicted prefix is the shortest one that makes room. */
  lemma {:induction false} EvictionsAreShortest<K, M>(l: Limits, es: seq<Entry<K, M>>, size: nat)
    requires Cacheable(l, size)
    ensures var n := Evictions(l, es, size);
            Fits(l, es[n..], size) && forall m :: 0 <= m < n ==> !Fits(l, es[m..], size)
  {
    assert es[0..] == es;
    if es != [] && !Fits(l, es, size) {
      EvictionsAreShortest(l, es[1..], size);
      var n := Evictions(l, es[1..], size);
      assert es[1..][n..] == es[n + 1..];
      forall m | 0 <= m < n + 1 ensures !Fits(l, es[m..], size) {
        if m > 0 {
          assert es[1..][m - 1..] == es[m..];
        }
      }
    }
  }

  lemma TouchedKeepsSound<K, M>(l: Limits, es: seq<Entry<K, M>>, key: K)
    requires Sound(l, es)
    ensures Sound(l, Touched(es, key)) && Total(Touched(es, key)) == Total(es)
  {
    if Has(es, key) {
      var i :| 0 <= i < |es| && es[i].key == key;
      WithoutAt(es, i);
      MoveKeeps(es, i);
    }
  }

  lemma MoveKeeps<K, M>(es: seq<Entry<K, M>>, i: nat)
    requires Unique(es) && i < |es|
    ensures var after := es[..i] + es[i + 1..] + [es[i]];
            Unique(after) && Total(after) == Total(es)
  {
    TotalConcat(es[..i], es[i..]);
    assert es == es[..i] + es[i..];
    assert es[i..][1..] == es[i + 1..];
    TotalConcat(es[..i] + es[i + 1..], [es[i]]);
    TotalConcat(es[..i], es[i + 1..]);
    assert [es[i]][1..] == [];
  }

  lemma InsertedKeepsSound<K, M>(l: Limits, es: seq<Entry<K, M>>, e: Entry<K, M>)
    requires Sound(l, es)
    ensures Sound(l, Inserted(l, es, e))
  {
    if Cacheable(l, e.size) && !Has(es, e.key) {
      EvictionsAreShortest(l, es, e.size);
      var kept := es[Evictions(l, es, e.size)..];
      TotalConcat(kept, [e]);
      assert [e][1..] == [];
    }
  }

  /** A round of the eviction loop. */
  lemma Pop<K, M>(l: Limits, es: seq<Entry<K, M>>, size: nat)
    requires Cacheable(l, size) && Total(es) <= l.maxBytes && !Fits(l, es, size)
    ensures es != [] && Total(es) == es[0].size + Total(es[1..])
    ensures Evictions(l, es, size) == 1 + Evictions(l, es[1..], size)
  {
  }

  /** The end of the eviction loop. */
  lemma Push<K, M>(l: Limits, es: seq<Entry<K, M>>, e: Entry<K, M>)
    requires Fits(l, es, e.size)
    ensures Total(es + [e]) == Total(es) + e.size && Evictions(l, es, e.size) == 0
  {
    TotalConcat(es, [e]);
    assert [e][1..] == [];
  }

  lemma InsertedCases<K, M>(l: Limits, es: seq<Entry<K, M>>, e: Entry<K, M>)
    requires Sound(l, es)
    ensures Total(es) <= l.maxBytes
    ensures Inserted(l, es, e)
         == if !Cacheable(l, e.size) || Has(es, e.key) then es else es[Evictions(l, es, e.size)..] + [e]
  {
  }

  // ---- The cache ----

  class Cache<K(==), M> {
    var entries: seq<Entry<K, M>>
    var bytes: nat
    var hits: nat
    const limits: Limits

    constructor (limits: Limits)
      ensures Valid() && entries == [] && hits == 0 && this.limits == limits
    {
      entries, bytes, hits := [], 0, 0;
      this.limits := limits;
    }

    /** The byte counter is the total of the entry sizes and within its budget. */
    ghost predicate Valid()
      reads this
    {
      Sound(limits, entries) && bytes == Total(entries)
    }

    method Get(key: K) returns (image: Option<M>)
      requires Valid()
      modifies this
      ensures Valid() && entries == Touched(old(entries), key)
      ensures match Find(old(entries), key)
              case Some(e) => image == Some(e.image) && hits == old(hits) + 1
              case None => image == None && hits == old(hits)
    {
      TouchedKeepsSound(limits, entries, key);
      var index := 0;
      while index < |entries| && entries[index].key != key
        invariant 0 <= index <= |entries| && forall i :: 0 <= i < index ==> entries[i].key != key
      {
        index := index + 1;
      }
      if index == |entries| {
        return None;
      }
      WithoutAt(entries, index);
      var entry := entries[index];
      entries := entries[..index] + entries[index + 1..];
      entries := entries + [entry];
      hits := hits + 1;
      return Some(entry.image);
    }

    /** Neither subtraction underflows, and the queue is never empty when an entry is popped. */
    method Insert(key: K, image: M, size: nat)
      requires Valid()
      modifies this
      ensures Valid() && hits == old(hits) && entries == Inserted(limits, old(entries), Entry(key, image, size))
    {
      hide Total, Evictions, Sound, Inserted, Has;
      InsertedKeepsSound(limits, entries, Entry(key, image, size));
      InsertedCases(limits, entries, Entry(key, image, size));
      if size > limits.maxBytes || limits.maxModules == 0 {
        return;
      }
      if Has(entries, key) {
        return;
      }
      ghost var all, n := entries, 0;
      assert all[0..] == all;
      while |entries| >= limits.maxModules || size > limits.maxBytes - bytes
        invariant hits == old(hits)
        invariant n <= |all| && entries == all[n..] && bytes == Total(entries) <= limits.maxBytes
        invariant Evictions(limits, all, size) == n + Evictions(limits, entries, size)
        decreases |entries|
      {
        Pop(limits, entries, size);
        var evicted := entries[0];
        entries := entries[1..];
        bytes := bytes - evicted.size;
        n := n + 1;
        assert all[n - 1..][1..] == all[n..];
      }
      Push(limits, entries, Entry(key, image, size));
      bytes := bytes + size;
      entries := entries + [Entry(key, image, size)];
    }
  }

  // ---- Lookups that insert what they miss ----

  /** One lookup; on a miss the module is compiled and inserted. */
  function Access<K(==), M>(l: Limits, es: seq<Entry<K, M>>, e: Entry<K, M>): seq<Entry<K, M>> {
    if Has(es, e.key) then Touched(es, e.key) else Inserted(l, es, e)
  }

  /** The cache after a history of lookups. */
  function Cached<K(==), M>(l: Limits, h: seq<Entry<K, M>>): seq<Entry<K, M>> {
    if h == [] then [] else Access(l, Cached(l, h[..|h| - 1]), h[|h| - 1])
  }

  function Hits<K(==), M>(l: Limits, h: seq<Entry<K, M>>): nat {
    if h == [] then 0
    else
      var init := h[..|h| - 1];
      Hits(l, init) + (if Has(Cached(l, init), h[|h| - 1].key) then 1 else 0)
  }

  /** The distinct cacheable entries of a history, least recently used first. */
  function Recency<K(==), M>(l: Limits, h: seq<Entry<K, M>>): seq<Entry<K, M>> {
    if h == [] then []
    else
      var before := Recency(l, h[..|h| - 1]);
      var e := h[|h| - 1];
      if Cacheable(l, e.size) then Without(before, e.key) + [e] else before
  }

  /** Compiling is a function of the key: one key, one entry. */
  ghost predicate Consistent<K, M>(h: seq<Entry<K, M>>) {
    forall i, j :: 0 <= i < |h| && 0 <= j < |h| && h[i].key == h[j].key ==> h[i] == h[j]
  }

  ghost predicate Suffix<K, M>(s: seq<Entry<K, M>>, t: seq<Entry<K, M>>) {
    |s| <= |t| && t[|t| - |s|..] == s
  }

  lemma SuffixUnique<K, M>(s: seq<Entry<K, M>>, t: seq<Entry<K, M>>)
    requires Suffix(s, t) && Unique(t)
    ensures Unique(s)
  {
    forall i, j | 0 <= i < j < |s| ensures s[i].key != s[j].key {
      assert s[i] == t[|t| - |s| + i] && s[j] == t[|t| - |s| + j];
    }
  }

  function Removed<K, M>(s: seq<Entry<K, M>>, i: nat): seq<Entry<K, M>>
    requires i < |s|
  {
    s[..i] + s[i + 1..]
  }

  lemma RemovedAt<K, M>(s: seq<Entry<K, M>>, i: nat)
    requires i < |s|
    ensures var r := Removed(s, i);
            |r| == |s| - 1 && forall j :: 0 <= j < |r| ==> r[j] == (if j < i then s[j] else s[j + 1])
  {
  }

  lemma WithoutUnique<K, M>(t: seq<Entry<K, M>>, key: K)
    requires Unique(t)
    ensures Unique(Without(t, key)) && !Has(Without(t, key), key)
    ensures forall e :: e in Without(t, key) ==> e in t
  {
    if Has(t, key) {
      var i :| 0 <= i < |t| && t[i].key == key;
      WithoutAt(t, i);
      hide Without;
      RemovedUnique(t, i);
    } else {
      WithoutAbsent(t, key);
    }
  }

  lemma RemovedUnique<K, M>(t: seq<Entry<K, M>>, i: nat)
    requires Unique(t) && i < |t|
    ensures Unique(Removed(t, i)) && !Has(Removed(t, i), t[i].key)
    ensures forall e :: e in Removed(t, i) ==> e in t
  {
    RemovedAt(t, i);
    hide Removed;
    var r := Removed(t, i);
    forall j, k | 0 <= j < k < |r| ensures r[j].key != r[k].key {
      assert t[if j < i then j else j + 1].key != t[if k < i then k else k + 1].key;
    }
    forall j | 0 <= j < |r| ensures r[j].key != t[i].key {
      if j < i {
        assert t[j].key != t[i].key;
      } else {
        assert t[i].key != t[j + 1].key;
      }
    }
  }

  lemma RemovedSuffix<K, M>(s: seq<Entry<K, M>>, t: seq<Entry<K, M>>, i: nat)
    requires Suffix(s, t) && i < |s|
    ensures t[|t| - |s| + i] == s[i] && Suffix(Removed(s, i), Removed(t, |t| - |s| + i))
  {
    var d := |t| - |s|;
    assert forall j :: 0 <= j < |s| ==> t[d + j] == s[j];
    hide Removed;
    RemovedAt(t, d + i);
    RemovedAt(s, i);
    var u, v := Removed(t, d + i), Removed(s, i);
    assert |u| - |v| == d;
    assert forall j :: 0 <= j < |v| ==> u[d + j] == v[j];
  }

  lemma RemovedBefore<K, M>(s: seq<Entry<K, M>>, t: seq<Entry<K, M>>, i: nat)
    requires Suffix(s, t) && i < |t| - |s|
    ensures Suffix(s, Removed(t, i))
  {
    hide Removed;
    var d := |t| - |s|;
    assert forall j :: 0 <= j < |s| ==> t[d + j] == s[j];
    RemovedAt(t, i);
    var u := Removed(t, i);
    assert forall j :: 0 <= j < |s| ==> u[d - 1 + j] == s[j];
  }

  lemma InSuffix<K, M>(s: seq<Entry<K, M>>, t: seq<Entry<K, M>>, i: nat)
    requires Suffix(s, t) && |t| - |s| <= i < |t|
    ensures Has(s, t[i].key)
  {
    assert s[i - (|t| - |s|)] == t[i];
  }

  lemma WithoutIsRemoved<K, M>(es: seq<Entry<K, M>>, i: nat)
    requires Unique(es) && i < |es|
    ensures Without(es, es[i].key) == Removed(es, i)
  {
    WithoutAt(es, i);
  }

  lemma WithoutSuffixAt<K, M>(s: seq<Entry<K, M>>, t: seq<Entry<K, M>>, i: nat)
    requires Suffix(s, t) && Unique(t) && Unique(s) && i < |s|
    ensures Suffix(Without(s, s[i].key), Without(t, s[i].key))
  {
    hide Without, Unique, Removed;
    RemovedSuffix(s, t, i);
    WithoutIsRemoved(s, i);
    WithoutIsRemoved(t, |t| - |s| + i);
  }

  lemma WithoutBeforeSuffix<K, M>(s: seq<Entry<K, M>>, t: seq<Entry<K, M>>, i: nat)
    requires Suffix(s, t) && Unique(t) && i < |t| && !Has(s, t[i].key)
    ensures Suffix(s, Without(t, t[i].key))
  {
    hide Without, Unique, Removed, Has;
    if i < |t| - |s| {
      RemovedBefore(s, t, i);
      WithoutIsRemoved(t, i);
    } else {
      InSuffix(s, t, i);
    }
  }

  /** Removing a key from a list removes it from a suffix that has it and leaves one that has not. */
  lemma WithoutSuffix<K, M>(s: seq<Entry<K, M>>, t: seq<Entry<K, M>>, key: K)
    requires Suffix(s, t) && Unique(t)
    ensures Has(s, key) ==> Suffix(Without(s, key), Without(t, key))
    ensures !Has(s, key) ==> Suffix(s, Without(t, key))
  {
    hide Without, Unique, Removed, Suffix;
    SuffixUnique(s, t);
    if Has(s, key) {
      var i :| 0 <= i < |s| && s[i].key == key;
      WithoutSuffixAt(s, t, i);
    } else if Has(t, key) {
      var i :| 0 <= i < |t| && t[i].key == key;
      WithoutBeforeSuffix(s, t, i);
    } else {
      WithoutAbsent(t, key);
    }
  }

  lemma SuffixAppend<K, M>(s: seq<Entry<K, M>>, n: nat, t: seq<Entry<K, M>>, e: Entry<K, M>)
    requires Suffix(s, t) && n <= |s|
    ensures Suffix(s[n..] + [e], t + [e])
  {
    var u := t + [e];
    assert u[|u| - (|s| - n + 1)..] == t[|t| - |s|..][n..] + [e];
  }

  lemma {:induction false} RecencyIsUnique<K, M>(l: Limits, h: seq<Entry<K, M>>)
    ensures Unique(Recency(l, h))
    ensures forall e :: e in Recency(l, h) ==> e in h && Cacheable(l, e.size)
    decreases |h|
  {
    if h != [] {
      var init, e := h[..|h| - 1], h[|h| - 1];
      RecencyIsUnique(l, init);
      var before := Recency(l, init);
      WithoutUnique(before, e.key);
      var without := Without(before, e.key);
      assert Cacheable(l, e.size) ==> forall j :: 0 <= j < |without| ==> without[j].key != e.key;
      assert h == init + [e];
    }
  }

  /** One access moves a suffix of the recency order to a suffix of the new one. */
  lemma AccessKeepsSuffix<K, M>(l: Limits, es: seq<Entry<K, M>>, t: seq<Entry<K, M>>, e: Entry<K, M>)
    requires Suffix(es, t) && Unique(t)
    requires forall x :: x in es && x.key == e.key ==> x == e && Cacheable(l, e.size)
    ensures Suffix(Access(l, es, e), if Cacheable(l, e.size) then Without(t, e.key) + [e] else t)
  {
    WithoutSuffix(es, t, e.key);
    if Has(es, e.key) {
      var found := Find(es, e.key).value;
      assert found == e;
      var rest := Without(es, e.key);
      SuffixAppend(rest, 0, Without(t, e.key), e);
      assert rest[0..] == rest;
    } else if Cacheable(l, e.size) {
      SuffixAppend(es, Evictions(l, es, e.size), Without(t, e.key), e);
    }
  }

  /** The cache is truly LRU: after any history it holds the most recent of the cacheable keys. */
  lemma {:induction false} CacheIsSuffixOfRecency<K, M>(l: Limits, h: seq<Entry<K, M>>)
    requires Consistent(h)
    ensures Suffix(Cached(l, h), Recency(l, h)) && Sound(l, Cached(l, h))
    decreases |h|
  {
    if h != [] {
      var init, e := h[..|h| - 1], h[|h| - 1];
      CacheIsSuffixOfRecency(l, init);
      RecencyIsUnique(l, init);
      var es, t := Cached(l, init), Recency(l, init);
      forall x | x in es && x.key == e.key ensures x == e && Cacheable(l, e.size) {
        SuffixElements(es, t, x);
        assert x in init;
      }
      AccessKeepsSuffix(l, es, t, e);
      if Has(es, e.key) {
        TouchedKeepsSound(l, es, e.key);
      } else {
        InsertedKeepsSound(l, es, e);
      }
    }
  }

  lemma SuffixElements<K, M>(s: seq<Entry<K, M>>, t: seq<Entry<K, M>>, x: Entry<K, M>)
    requires Suffix(s, t) && x in s
    ensures x in t
  {
    var i :| 0 <= i < |s| && s[i] == x;
    assert t[|t| - |s| + i] == x;
  }

  // ---- Count limits ----

  lemma SuffixOfSuffix<K, M>(a: seq<Entry<K, M>>, b: seq<Entry<K, M>>, t: seq<Entry<K, M>>)
    requires Suffix(a, t) && Suffix(b, t) && |a| <= |b|
    ensures Suffix(a, b)
  {
  }

  /** A longer suffix keeps at least as much when both make room for the same entry under the same
      byte budget and the longer one has the larger count limit. */
  lemma EvictionsKeepOrder<K, M>(small: Limits, large: Limits, a: seq<Entry<K, M>>, b: seq<Entry<K, M>>, size: nat)
    requires small.maxBytes <= large.maxBytes && small.maxModules <= large.maxModules
    requires Suffix(a, b) && Cacheable(small, size)
    ensures |a| - Evictions(small, a, size) <= |b| - Evictions(large, b, size)
  {
    var m, n := Evictions(small, a, size), Evictions(large, b, size);
    EvictionsAreShortest(small, a, size);
    EvictionsAreShortest(large, b, size);
    var d := |b| - |a|;
    assert b[d..][m..] == b[d + m..];
    assert Fits(large, b[d + m..], size);
  }

  /** One access keeps a cache within a larger one, over the same recency order. */
  lemma AccessKeepsInclusion<K, M>(small: Limits, large: Limits, a: seq<Entry<K, M>>, b: seq<Entry<K, M>>,
                                   t: seq<Entry<K, M>>, e: Entry<K, M>)
    requires small.maxBytes <= large.maxBytes && small.maxModules <= large.maxModules
    requires Cacheable(large, e.size) ==> small.maxModules == 0 || Cacheable(small, e.size)
    requires small.maxModules == 0 ==> a == []
    requires Suffix(a, t) && Suffix(b, t) && |a| <= |b|
    ensures Has(a, e.key) ==> Has(b, e.key)
    ensures |Access(small, a, e)| <= |Access(large, b, e)|
  {
    SuffixOfSuffix(a, b, t);
    if Has(a, e.key) {
      var i :| 0 <= i < |a| && a[i].key == e.key;
      assert b[|b| - |a| + i] == a[i];
    } else if Has(b, e.key) {
      if |a| == |b| {
        FullSuffix(a, b);
      }
    } else if Cacheable(small, e.size) {
      EvictionsKeepOrder(small, large, a, b, e.size);
    }
  }

  lemma FullSuffix<K, M>(a: seq<Entry<K, M>>, b: seq<Entry<K, M>>)
    requires Suffix(a, b) && |a| == |b|
    ensures a == b
  {
  }

  /** No key's image is too large for the smaller byte budget and yet fits the larger. */
  ghost predicate NoneBetween<K, M>(small: nat, large: nat, h: seq<Entry<K, M>>) {
    forall i :: 0 <= i < |h| ==> h[i].size <= small || h[i].size > large
  }

  lemma {:induction false} SameRecency<K, M>(small: Limits, large: Limits, h: seq<Entry<K, M>>)
    requires small.maxBytes <= large.maxBytes && 0 < small.maxModules <= large.maxModules
    requires NoneBetween(small.maxBytes, large.maxBytes, h)
    ensures Recency(small, h) == Recency(large, h)
    decreases |h|
  {
    if h != [] {
      assert h[|h| - 1].size <= small.maxBytes || h[|h| - 1].size > large.maxBytes;
      SameRecency(small, large, h[..|h| - 1]);
    }
  }

  /** LRU has no Belady anomaly in the number of entries: a larger count limit, or a larger byte
      budget that makes no further key of the history cacheable, never evicts what the smaller cache
      keeps and never has fewer hits. */
  lemma {:induction false} LargerCacheIncludes<K, M>(small: Limits, large: Limits, h: seq<Entry<K, M>>)
    requires small.maxBytes <= large.maxBytes && small.maxModules <= large.maxModules
    requires Consistent(h) && NoneBetween(small.maxBytes, large.maxBytes, h)
    ensures Suffix(Cached(small, h), Cached(large, h)) && Hits(small, h) <= Hits(large, h)
    decreases |h|
  {
    CacheIsSuffixOfRecency(small, h);
    CacheIsSuffixOfRecency(large, h);
    if h != [] {
      var init, e := h[..|h| - 1], h[|h| - 1];
      LargerCacheIncludes(small, large, init);
      CacheIsSuffixOfRecency(small, init);
      CacheIsSuffixOfRecency(large, init);
      assert h[|h| - 1].size <= small.maxBytes || h[|h| - 1].size > large.maxBytes;
      hide Access, Recency, Suffix, Consistent, NoneBetween;
      SuffixLength(Cached(small, init), Cached(large, init));
      if small.maxModules > 0 {
        SameRecency(small, large, h);
        SameRecency(small, large, init);
        AccessKeepsInclusion(small, large, Cached(small, init), Cached(large, init), Recency(large, init), e);
        SuffixOfSuffix(Cached(small, h), Cached(large, h), Recency(large, h));
      } else {
        assert Cached(small, h) == [] && Cached(small, init) == [];
        EmptySuffix(Cached(large, h));
      }
    }
  }

  lemma SuffixLength<K, M>(a: seq<Entry<K, M>>, b: seq<Entry<K, M>>)
    requires Suffix(a, b)
    ensures |a| <= |b|
  {
  }

  lemma EmptySuffix<K, M>(b: seq<Entry<K, M>>)
    ensures Suffix([], b)
  {
  }

  // ---- When the byte budget does not bind ----

  function Min(a: nat, b: nat): nat { if a <= b then a else b }

  /** The most recent keys, as many as the count limit allows. */
  function MostRecent<K(==), M>(l: Limits, h: seq<Entry<K, M>>): seq<Entry<K, M>> {
    var t := Recency(l, h);
    t[|t| - Min(l.maxModules, |t|)..]
  }

  /** At every point of the history the most recent keys fit the byte budget. */
  ghost predicate Roomy<K, M>(l: Limits, h: seq<Entry<K, M>>) {
    forall n :: 0 <= n <= |h| ==> Total(MostRecent(l, h[..n])) <= l.maxBytes
  }

  lemma RoomyBefore<K, M>(l: Limits, h: seq<Entry<K, M>>)
    requires h != [] && Roomy(l, h)
    ensures Roomy(l, h[..|h| - 1]) && Total(MostRecent(l, h)) <= l.maxBytes
  {
    var init := h[..|h| - 1];
    assert h[..|h|] == h;
    forall n | 0 <= n <= |init| ensures Total(MostRecent(l, init[..n])) <= l.maxBytes {
      assert init[..n] == h[..n];
    }
  }

  lemma EvictionsForCount<K, M>(l: Limits, es: seq<Entry<K, M>>, m: nat, size: nat)
    requires Cacheable(l, size) && m <= |es| <= l.maxModules
    requires m == (if |es| == l.maxModules then 1 else 0)
    requires Total(es[m..]) + size <= l.maxBytes
    ensures Evictions(l, es, size) == m
  {
    EvictionsAreShortest(l, es, size);
    assert Fits(l, es[m..], size);
    assert es[0..] == es;
  }

  /** A miss evicts only for the count limit when the most recent keys fit. */
  lemma MissKeepsMostRecent<K, M>(l: Limits, es: seq<Entry<K, M>>, rest: seq<Entry<K, M>>, e: Entry<K, M>)
    requires Suffix(es, rest) && |es| <= l.maxModules && (|es| == l.maxModules || |es| == |rest|)
    requires Cacheable(l, e.size) && !Has(es, e.key)
    requires var after := rest + [e];
             Total(after[|after| - Min(l.maxModules, |after|)..]) <= l.maxBytes
    ensures |Inserted(l, es, e)| == Min(l.maxModules, |rest + [e]|)
  {
    hide Total, Evictions;
    var after := rest + [e];
    var m := if |es| == l.maxModules then 1 else 0;
    SuffixAppend(es, m, rest, e);
    var last := es[m..] + [e];
    assert |last| == Min(l.maxModules, |after|);
    assert after[|after| - |last|..] == last;
    AppendTotal(es[m..], e);
    EvictionsForCount(l, es, m, e.size);
  }

  lemma AppendTotal<K, M>(es: seq<Entry<K, M>>, e: Entry<K, M>)
    ensures Total(es + [e]) == Total(es) + e.size
  {
    TotalConcat(es, [e]);
    assert [e][1..] == [];
  }

  /** When the byte budget does not bind, the cache is exactly the most recent keys. */
  lemma {:induction false} CacheIsMostRecent<K, M>(l: Limits, h: seq<Entry<K, M>>)
    requires Consistent(h) && Roomy(l, h)
    ensures Cached(l, h) == MostRecent(l, h)
    decreases |h|
  {
    hide Roomy, Unique, Access, Suffix, Without, Total;
    CacheIsSuffixOfRecency(l, h);
    SuffixIs(Cached(l, h), Recency(l, h));
    if h != [] {
      var init, e := h[..|h| - 1], h[|h| - 1];
      RoomyBefore(l, h);
      assert h == init + [e];
      FoundIsCacheable(l, init, e);
      CacheIsMostRecent(l, init);
      CacheIsSuffixOfRecency(l, init);
      RecencyIsUnique(l, init);
      hide Consistent;
      MostRecentStep(l, Cached(l, init), Recency(l, init), e, Recency(l, h));
    }
  }

  lemma SuffixIs<K, M>(s: seq<Entry<K, M>>, t: seq<Entry<K, M>>)
    requires Suffix(s, t)
    ensures |s| <= |t| && s == t[|t| - |s|..]
  {
  }

  lemma FoundIsCacheable<K, M>(l: Limits, init: seq<Entry<K, M>>, e: Entry<K, M>)
    requires Consistent(init + [e])
    ensures Has(Cached(l, init), e.key) ==> Cacheable(l, e.size)
  {
    var h := init + [e];
    assert forall i :: 0 <= i < |init| ==> init[i] == h[i];
    assert Consistent(init);
    CacheIsSuffixOfRecency(l, init);
    RecencyIsUnique(l, init);
    var es, t := Cached(l, init), Recency(l, init);
    if i :| 0 <= i < |es| && es[i].key == e.key {
      SuffixElements(es, t, es[i]);
      var j :| 0 <= j < |init| && init[j] == es[i];
      assert h[j] == es[i] && h[|init|] == e;
    }
  }

  lemma MostRecentStep<K, M>(l: Limits, es: seq<Entry<K, M>>, t: seq<Entry<K, M>>, e: Entry<K, M>,
                             after: seq<Entry<K, M>>)
    requires Unique(t) && Suffix(es, t) && |es| == Min(l.maxModules, |t|)
    requires after == if Cacheable(l, e.size) then Without(t, e.key) + [e] else t
    requires Has(es, e.key) ==> Cacheable(l, e.size)
    requires Total(after[|after| - Min(l.maxModules, |after|)..]) <= l.maxBytes
    ensures |Access(l, es, e)| == Min(l.maxModules, |after|)
  {
    hide Without, Inserted, Has, Suffix, Unique, Total, Access, Touched;
    WithoutLength(t, e.key);
    if Has(es, e.key) {
      HasInSuffix(es, t, e.key);
      HitLength(l, es, e);
    } else if Cacheable(l, e.size) {
      WithoutSuffix(es, t, e.key);
      SuffixLength(es, t);
      if |es| == |t| {
        FullSuffix(es, t);
      }
      MissLength(l, es, e);
      MissKeepsMostRecent(l, es, Without(t, e.key), e);
    } else {
      MissLength(l, es, e);
      NotInserted(l, es, e);
    }
  }

  lemma WithoutLength<K, M>(t: seq<Entry<K, M>>, key: K)
    ensures |Without(t, key)| == if Has(t, key) then |t| - 1 else |t|
  {
    if !Has(t, key) {
      WithoutAbsent(t, key);
    }
  }

  lemma HitLength<K, M>(l: Limits, es: seq<Entry<K, M>>, e: Entry<K, M>)
    requires Has(es, e.key)
    ensures |Access(l, es, e)| == |es|
  {
  }

  lemma MissLength<K, M>(l: Limits, es: seq<Entry<K, M>>, e: Entry<K, M>)
    requires !Has(es, e.key)
    ensures Access(l, es, e) == Inserted(l, es, e)
  {
  }

  lemma NotInserted<K, M>(l: Limits, es: seq<Entry<K, M>>, e: Entry<K, M>)
    requires !Cacheable(l, e.size)
    ensures Inserted(l, es, e) == es
  {
  }

  lemma HasInSuffix<K, M>(s: seq<Entry<K, M>>, t: seq<Entry<K, M>>, key: K)
    requires Suffix(s, t) && Has(s, key)
    ensures Has(t, key)
  {
    var i :| 0 <= i < |s| && s[i].key == key;
    assert t[|t| - |s| + i] == s[i];
  }

  // ---- Byte budgets ----

  /** No image is empty. */
  ghost predicate Positive<K, M>(h: seq<Entry<K, M>>) {
    forall i :: 0 <= i < |h| ==> h[i].size > 0
  }

  /** A larger byte budget can do worse: it caches a module that the smaller one ignores, and pays
      for it with one that both would have kept. */
  lemma LargerBudgetCanLose(maxModules: nat, small: nat, large: nat) returns (h: seq<Entry<nat, nat>>)
    requires maxModules >= 1 && 1 <= small < large
    ensures Consistent(h) && Positive(h)
    ensures Hits(Limits(small, maxModules), h) == 1 && Hits(Limits(large, maxModules), h) == 0
  {
    var a, x := Entry(0, 0, small), Entry(1, 1, large);
    h := [a, x, a];
    var tight, wide := Limits(small, maxModules), Limits(large, maxModules);
    assert Consistent(h) && Positive(h);
    hide Cached, Hits, Access, Total, Has, Consistent, Positive;
    assert [] + [a] == [a] && [a] + [x] == [a, x] && [a, x] + [a] == h;
    CachedStep(tight, [], a);
    CachedStep(tight, [a], x);
    CachedStep(tight, [a, x], a);
    CachedStep(wide, [], a);
    CachedStep(wide, [a], x);
    CachedStep(wide, [a, x], a);
    AccessOne(tight, a, x);
    AccessOne(wide, a, x);
    NothingCached(tight);
    NothingCached(wide);
  }

  lemma NothingCached(l: Limits)
    ensures Cached<nat, nat>(l, []) == [] && Hits<nat, nat>(l, []) == 0
  {
  }

  lemma CachedStep(l: Limits, h: seq<Entry<nat, nat>>, e: Entry<nat, nat>)
    ensures Cached(l, h + [e]) == Access(l, Cached(l, h), e)
    ensures Hits(l, h + [e]) == Hits(l, h) + (if Has(Cached(l, h), e.key) then 1 else 0)
  {
    assert (h + [e])[..|h|] == h;
  }

  /** Two entries of which the second fits only alone, or not at all. */
  lemma AccessOne(l: Limits, a: Entry<nat, nat>, x: Entry<nat, nat>)
    requires a.key != x.key && Cacheable(l, a.size) && a.size >= 1 && x.size >= l.maxBytes
    ensures !Has<nat, nat>([], a.key) && Has([a], a.key) && !Has([a], x.key) && !Has([x], a.key)
    ensures Access(l, [], a) == [a]
    ensures Access(l, [a], x) == if x.size == l.maxBytes then [x] else [a]
  {
    assert [a][0].key == a.key;
    assert [a][1..] == [] && Total([a]) == a.size;
    assert x.size == l.maxBytes ==> Evictions(l, [a], x.size) == 1;
  }

  /** A limit of zero disables the cache. */
  lemma {:induction false} DisabledNeverHits<K, M>(l: Limits, h: seq<Entry<K, M>>)
    requires Positive(h) && (l.maxModules == 0 || l.maxBytes == 0)
    ensures Cached(l, h) == [] && Hits(l, h) == 0
    decreases |h|
  {
    if h != [] {
      assert h[|h| - 1].size > 0;
      DisabledNeverHits(l, h[..|h| - 1]);
    }
  }

  /** So more bytes never cost a hit exactly when there are no more bytes, or when the smaller cache is
      disabled. */
  lemma MoreBytesNeverLoseExactly(maxModules: nat, small: nat, large: nat)
    requires small <= large
    ensures (forall h: seq<Entry<nat, nat>> :: Consistent(h) && Positive(h) ==>
               Hits(Limits(small, maxModules), h) <= Hits(Limits(large, maxModules), h))
            <==> small == large || small == 0 || maxModules == 0
  {
    if small == 0 || maxModules == 0 {
      forall h: seq<Entry<nat, nat>> | Positive(h) ensures Hits(Limits(small, maxModules), h) == 0 {
        DisabledNeverHits(Limits(small, maxModules), h);
      }
    } else if small < large {
      var h := LargerBudgetCanLose(maxModules, small, large);
    }
  }

  // ---- Concurrent executions ----

  /** Executions look a module up and, after compiling a miss, store it; the lock is held for each
      operation and not between them, so the operations of several executions interleave freely. */
  datatype Operation<W> = Look(wasm: W) | Store(wasm: W)

  /** How a module is keyed, compiled and measured. */
  datatype Compiler<!W, !K, !M> = Compiler(hash: W -> K, compile: W -> M, size: M -> nat)

  function EntryOf<W, K, M>(c: Compiler<W, K, M>, wasm: W): Entry<K, M> {
    Entry(c.hash(wasm), c.compile(wasm), c.size(c.compile(wasm)))
  }

  function Operate<W, K(==), M>(c: Compiler<W, K, M>, l: Limits, es: seq<Entry<K, M>>,
                                op: Operation<W>): seq<Entry<K, M>>
  {
    match op
    case Look(wasm) => Touched(es, c.hash(wasm))
    case Store(wasm) => Inserted(l, es, EntryOf(c, wasm))
  }

  function Operated<W, K(==), M>(c: Compiler<W, K, M>, l: Limits, ops: seq<Operation<W>>): seq<Entry<K, M>> {
    if ops == [] then [] else Operate(c, l, Operated(c, l, ops[..|ops| - 1]), ops[|ops| - 1])
  }

  ghost predicate Genuine<W(!new), K, M>(c: Compiler<W, K, M>, es: seq<Entry<K, M>>) {
    forall e :: e in es ==> exists w :: e == EntryOf(c, w)
  }

  ghost predicate Injective<W(!new), K(!new)>(hash: W -> K) {
    forall a, b :: hash(a) == hash(b) ==> a == b
  }

  lemma OperateKeepsGenuine<W(!new), K, M>(c: Compiler<W, K, M>, l: Limits, es: seq<Entry<K, M>>, op: Operation<W>)
    requires Sound(l, es) && Genuine(c, es)
    ensures Sound(l, Operate(c, l, es, op)) && Genuine(c, Operate(c, l, es, op))
  {
    match op
    case Look(wasm) =>
      TouchedKeepsSound(l, es, c.hash(wasm));
      WithoutUnique(es, c.hash(wasm));
      hide Without, EntryOf;
    case Store(wasm) =>
      InsertedKeepsSound(l, es, EntryOf(c, wasm));
      hide Evictions, EntryOf;
      var after := Inserted(l, es, EntryOf(c, wasm));
      forall e | e in after ensures exists w :: e == EntryOf(c, w) {
        if e !in es {
          assert e == EntryOf(c, wasm);
        }
      }
  }

  lemma {:induction false} OperationsKeepGenuine<W(!new), K, M>(c: Compiler<W, K, M>, l: Limits, ops: seq<Operation<W>>)
    ensures Sound(l, Operated(c, l, ops)) && Genuine(c, Operated(c, l, ops))
    decreases |ops|
  {
    if ops != [] {
      OperationsKeepGenuine(c, l, ops[..|ops| - 1]);
      OperateKeepsGenuine(c, l, Operated(c, l, ops[..|ops| - 1]), ops[|ops| - 1]);
    }
  }

  /** The cache is transparent: after any interleaving, a lookup finds nothing or what compiling the
      same Wasm would make, provided that the hash does not collide. */
  lemma LookupsAreCompiles<W(!new), K(!new), M>(c: Compiler<W, K, M>, l: Limits, ops: seq<Operation<W>>, wasm: W)
    requires Injective(c.hash)
    ensures var found := Find(Operated(c, l, ops), c.hash(wasm));
            found.Some? ==> found.value.image == c.compile(wasm)
  {
    OperationsKeepGenuine(c, l, ops);
    hide Operated, Sound;
    var es := Operated(c, l, ops);
    var found := Find(es, c.hash(wasm));
    if found.Some? {
      var w :| found.value == EntryOf(c, w);
      assert c.hash(w) == c.hash(wasm);
    }
  }

  // ---- Recency of interleaved operations ----

  /** An operation uses a module if it finds it, or stores it where it was absent; storing it again,
      after a race between two compilations, does not count. */
  ghost predicate Uses<W, K, M>(c: Compiler<W, K, M>, l: Limits, es: seq<Entry<K, M>>, op: Operation<W>, key: K) {
    && key == c.hash(op.wasm)
    && if op.Look? then Has(es, key) else !Has(es, key) && Cacheable(l, EntryOf(c, op.wasm).size)
  }

  /** The index of the last operation that used a key. */
  ghost function LastUse<W, K, M>(c: Compiler<W, K, M>, l: Limits, ops: seq<Operation<W>>, key: K): (r: int)
    ensures -1 <= r < |ops|
  {
    if ops == [] then -1
    else
      var init := ops[..|ops| - 1];
      if Uses(c, l, Operated(c, l, init), ops[|ops| - 1], key) then |init| else LastUse(c, l, init, key)
  }

  /** The entries are in the order of their last uses, and no other key was used after any of them. */
  ghost predicate InOrder<K(!new), M>(es: seq<Entry<K, M>>, last: K -> int) {
    && (forall i, j :: 0 <= i < j < |es| ==> last(es[i].key) < last(es[j].key))
    && (forall key, i :: 0 <= i < |es| && !Has(es, key) ==> last(key) < last(es[i].key))
  }

  lemma UseMovesToBack<K(!new), M>(es: seq<Entry<K, M>>, i: nat, last: K -> int, after: K -> int)
    requires Unique(es) && InOrder(es, last) && i < |es|
    requires forall key :: key != es[i].key ==> after(key) == last(key) < after(es[i].key)
    ensures InOrder(Removed(es, i) + [es[i]], after)
  {
    var all, n := Removed(es, i) + [es[i]], |es| - 1;
    assert Moved(es, i, all) && all[n] == es[i] && |all| == n + 1;
    hide Removed, Moved, Has, Unique;
    forall j, k | 0 <= j < k < |all| ensures after(all[j].key) < after(all[k].key) {
      MovedPair(es, i, all, j, k, last, after);
    }
    forall key, k | 0 <= k < |all| && !Has(all, key) ensures after(key) < after(all[k].key) {
      MovedElsewhere(es, i, all, key);
      if k < n {
        MovedFrom(es, i, all, k);
      }
    }
  }

  lemma MovedPair<K(!new), M>(es: seq<Entry<K, M>>, i: nat, all: seq<Entry<K, M>>, j: nat, k: nat,
                              last: K -> int, after: K -> int)
    requires i < |es| && Moved(es, i, all) && Unique(es) && InOrder(es, last) && j < k < |es| == |all|
    requires forall key :: key != es[i].key ==> after(key) == last(key) < after(es[i].key)
    ensures after(all[j].key) < after(all[k].key)
  {
    assert all[|es| - 1] == es[i];
    hide Moved, Unique, Has;
    MovedFrom(es, i, all, j);
    if k < |es| - 1 {
      MovedFrom(es, i, all, k);
    }
  }

  lemma MovedElsewhere<K, M>(es: seq<Entry<K, M>>, i: nat, all: seq<Entry<K, M>>, key: K)
    requires i < |es| && Moved(es, i, all) && !Has(all, key)
    ensures !Has(es, key) && key != es[i].key
  {
    forall j | 0 <= j < |es| ensures es[j].key != key {
      assert es[j] == all[if j < i then j else if j == i then |es| - 1 else j - 1];
    }
  }

  ghost predicate Moved<K, M>(es: seq<Entry<K, M>>, i: nat, all: seq<Entry<K, M>>)
    requires i < |es|
  {
    && |all| == |es| && all[|es| - 1] == es[i]
    && (forall j :: 0 <= j < i ==> all[j] == es[j])
    && (forall j :: i < j < |es| ==> all[j - 1] == es[j])
  }

  lemma MovedFrom<K, M>(es: seq<Entry<K, M>>, i: nat, all: seq<Entry<K, M>>, k: nat)
    requires Unique(es) && i < |es| && Moved(es, i, all) && k < |es| - 1
    ensures var j := if k < i then k else k + 1;
            all[k] == es[j] && es[j].key != es[i].key
  {
    assert k >= i ==> all[k + 1 - 1] == es[k + 1];
  }

  lemma StoreEvictsOldest<K(!new), M>(es: seq<Entry<K, M>>, n: nat, e: Entry<K, M>, last: K -> int, after: K -> int)
    requires InOrder(es, last) && n <= |es| && !Has(es, e.key)
    requires forall key :: key != e.key ==> after(key) == last(key) < after(e.key)
    ensures InOrder(es[n..] + [e], after)
  {
    var all := es[n..] + [e];
    forall key, i | 0 <= i < |all| && !Has(all, key) ensures after(key) < after(all[i].key) {
      assert all[|all| - 1] == e;
      if i < |all| - 1 {
        assert all[i] == es[n + i];
        forall j | n <= j < |es| ensures es[j].key != key {
          assert all[j - n] == es[j];
        }
        if j :| 0 <= j < |es| && es[j].key == key {
          assert last(es[j].key) < last(es[n + i].key);
        }
      }
    }
  }

  /** Least recently used, for concurrent executions: after any interleaving of lookups and stores the
      cache holds its keys in the order of their last uses, and every key it does not hold was last
      used before all of those. */
  lemma {:induction false} CacheHoldsLastUsed<W, K(!new), M>(c: Compiler<W, K, M>, l: Limits, ops: seq<Operation<W>>)
    ensures InOrder(Operated(c, l, ops), key => LastUse(c, l, ops, key)) && Unique(Operated(c, l, ops))
    decreases |ops|
  {
    if ops != [] {
      var init, op := ops[..|ops| - 1], ops[|ops| - 1];
      CacheHoldsLastUsed(c, l, init);
      var es, key := Operated(c, l, init), c.hash(op.wasm);
      var last, after := (k: K) => LastUse(c, l, init, k), (k: K) => LastUse(c, l, ops, k);
      assert forall k :: k != key || !Uses(c, l, es, op, key) ==> after(k) == last(k);
      assert Uses(c, l, es, op, key) ==> after(key) == |init|;
      OperateKeepsOrder(c, l, es, op, last, after);
    }
  }

  lemma OperateKeepsOrder<W, K(!new), M>(c: Compiler<W, K, M>, l: Limits, es: seq<Entry<K, M>>, op: Operation<W>,
                                         last: K -> int, after: K -> int)
    requires InOrder(es, last) && Unique(es)
    requires var key := c.hash(op.wasm);
             if Uses(c, l, es, op, key) then forall k :: k != key ==> after(k) == last(k) < after(key)
             else forall k :: after(k) == last(k)
    ensures InOrder(Operate(c, l, es, op), after) && Unique(Operate(c, l, es, op))
  {
    var key := c.hash(op.wasm);
    if op.Look? {
      if Has(es, key) {
        var i :| 0 <= i < |es| && es[i].key == key;
        UseMovesToBack(es, i, last, after);
        WithoutIsRemoved(es, i);
        WithoutAt(es, i);
        MoveKeeps(es, i);
      }
    } else if Uses(c, l, es, op, key) {
      StoreEvictsOldest(es, Evictions(l, es, EntryOf(c, op.wasm).size), EntryOf(c, op.wasm), last, after);
    }
  }
}
