/**
 The bounded queryId -> backend cache (internal/routing/cache.go) and what a
 recency-ordered map of bounded size remembers.

 The cache is a list of entries, most recently used first. `Put` and `Touch` are
 the two effects the cache has; the class performs them in place. `Recent` is an
 independent description of the same order, computed from the log of ids that
 were written or hit.
 */
module QueryCache {
  import opened Basics

  const DEFAULT_CACHE_SIZE: nat := 4096

  datatype Entry = Entry(key: string, val: string)

  function Keys(es: seq<Entry>): (ks: seq<string>)
    ensures |ks| == |es|
    ensures forall i :: 0 <= i < |es| ==> ks[i] == es[i].key
  {
    seq(|es|, i requires 0 <= i < |es| => es[i].key)
  }

  function Find(es: seq<Entry>, k: string): (r: Option<string>)
    ensures r.Some? <==> k in Keys(es)
    ensures r.Some? ==> Entry(k, r.value) in es
  {
    if es == [] then None
    else if es[0].key == k then assert Keys(es)[0] == k; Some(es[0].val)
    else
      assert Keys(es) == [es[0].key] + Keys(es[1..]);
      Find(es[1..], k)
  }

  function Without(es: seq<Entry>, k: string): seq<Entry> {
    if es == [] then []
    else if es[0].key == k then Without(es[1..], k)
    else [es[0]] + Without(es[1..], k)
  }

  function Take<T>(s: seq<T>, n: nat): seq<T> {
    if |s| <= n then s else s[..n]
  }

  /** Add: write and move to the front, dropping the oldest entry when over capacity. */
  function Put(es: seq<Entry>, k: string, v: string, capacity: nat): seq<Entry> {
    Take([Entry(k, v)] + Without(es, k), capacity)
  }

  /** Get: a hit moves the entry to the front, a miss changes nothing. */
  function Touch(es: seq<Entry>, k: string): seq<Entry> {
    match Find(es, k)
    case Some(v) => [Entry(k, v)] + Without(es, k)
    case None => es
  }

  ghost predicate Distinct<T>(s: seq<T>) {
    forall i, j :: 0 <= i < j < |s| ==> s[i] != s[j]
  }

  // ---------- The order as a function of the log of touched ids ----------

  function Remove(s: seq<string>, k: string): seq<string> {
    if s == [] then []
    else if s[0] == k then Remove(s[1..], k)
    else [s[0]] + Remove(s[1..], k)
  }

  /** The distinct ids of a log, most recently touched first. */
  function Recent(log: seq<string>): seq<string> {
    if log == [] then []
    else var q := log[|log| - 1]; [q] + Remove(Recent(log[..|log| - 1]), q)
  }

  /** The other ids touched after the last time `q` was. */
  function OthersSince(log: seq<string>, q: string): set<string> {
    if log == [] || log[|log| - 1] == q then {}
    else OthersSince(log[..|log| - 1], q) + {log[|log| - 1]}
  }

  lemma {:induction false} RemoveDistinct(s: seq<string>, k: string)
    requires Distinct(s)
    ensures Distinct(Remove(s, k)) && k !in Remove(s, k)
    ensures forall x :: x in Remove(s, k) <==> x in s && x != k
  {
    if s != [] {
      assert forall i, j :: 0 <= i < j < |s[1..]| ==> s[1..][i] == s[i + 1] && s[1..][j] == s[j + 1];
      RemoveDistinct(s[1..], k);
      assert s == [s[0]] + s[1..];
      assert s[0] !in s[1..];
    }
  }

  lemma {:induction false} RecentDistinct(log: seq<string>)
    ensures Distinct(Recent(log))
    ensures forall x :: x in Recent(log) <==> x in log
  {
    if log != [] {
      var n := |log| - 1;
      RecentDistinct(log[..n]);
      RemoveDistinct(Recent(log[..n]), log[n]);
      assert log == log[..n] + [log[n]];
    }
  }

  lemma {:induction false} RemoveLength(s: seq<string>, k: string)
    requires Distinct(s)
    ensures |Remove(s, k)| == |s| - if k in s then 1 else 0
  {
    if s != [] {
      assert s == [s[0]] + s[1..];
      assert Distinct(s[1..]);
      RemoveLength(s[1..], k);
      assert s[0] !in s[1..];
    }
  }

  /** Removing from a prefix gives a prefix. */
  lemma RemoveTake(s: seq<string>, k: string, n: nat)
    requires Distinct(s)
    ensures Remove(Take(s, n), k) <= Remove(s, k)
    ensures |Remove(Take(s, n), k)| == |Take(s, n)| - if k in Take(s, n) then 1 else 0
  {
    var t := Take(s, n);
    assert s == t + s[|t|..];
    RemoveSplit(t, s[|t|..], k);
    RemoveLength(t, k);
  }

  lemma {:induction false} KeysWithout(es: seq<Entry>, k: string)
    ensures Keys(Without(es, k)) == Remove(Keys(es), k)
  {
    if es != [] {
      KeysWithout(es[1..], k);
      assert Keys(es)[1..] == Keys(es[1..]);
    }
  }

  lemma KeysTake(es: seq<Entry>, n: nat)
    ensures Keys(Take(es, n)) == Take(Keys(es), n)
  {
  }

  /** The first `capacity` of the most recent ids after one more touch of `q`. */
  lemma TakeRecentStep(log: seq<string>, q: string, capacity: nat)
    requires capacity > 0
    ensures Take(Recent(log + [q]), capacity) == Take([q] + Remove(Take(Recent(log), capacity), q), capacity)
  {
    var r := Recent(log);
    assert (log + [q])[..|log|] == log;
    RecentDistinct(log);
    RemoveTake(r, q, capacity);
    var t := Take(r, capacity);
    assert Take([q] + Remove(r, q), capacity) == [q] + Take(Remove(r, q), capacity - 1);
    assert Take([q] + Remove(t, q), capacity) == [q] + Take(Remove(t, q), capacity - 1);
  }

  /** Writing keeps the cache equal to the most recent ids, newest first. */
  lemma PutKeepsRecent(es: seq<Entry>, log: seq<string>, k: string, v: string, capacity: nat)
    requires capacity > 0 && Keys(es) == Take(Recent(log), capacity)
    ensures Keys(Put(es, k, v, capacity)) == Take(Recent(log + [k]), capacity)
  {
    KeysWithout(es, k);
    var all := [Entry(k, v)] + Without(es, k);
    assert Keys(all) == [k] + Remove(Keys(es), k);
    KeysTake(all, capacity);
    TakeRecentStep(log, k, capacity);
  }

  /** So does a hit. */
  lemma TouchKeepsRecent(es: seq<Entry>, log: seq<string>, k: string, capacity: nat)
    requires capacity > 0 && Keys(es) == Take(Recent(log), capacity)
    requires Find(es, k).Some?
    ensures Keys(Touch(es, k)) == Take(Recent(log + [k]), capacity)
  {
    var v := Find(es, k).value;
    PutKeepsRecent(es, log, k, v, capacity);
    KeysWithout(es, k);
    RecentDistinct(log);
    assert Distinct(Keys(es));
    RemoveTake(Keys(es), k, |es|);
    assert Take(Keys(es), |es|) == Keys(es);
    assert |Without(es, k)| == |Keys(Without(es, k))| == |es| - 1;
  }

  /** The part of an order in front of `q`, and the set of ids in it. */
  ghost predicate Ahead(order: seq<string>, q: string, front: set<string>) {
    && |front| < |order|
    && order[|front|] == q
    && (forall x :: x in order[..|front|] <==> x in front)
  }

  lemma RemoveAround(a: seq<string>, q: string, b: seq<string>, k: string)
    requires q != k
    ensures Remove(a + [q] + b, k) == Remove(a, k) + [q] + Remove(b, k)
  {
    RemoveSplit(a + [q], b, k);
    RemoveSplit(a, [q], k);
  }

  lemma AheadStep(r: seq<string>, q: string, others: set<string>, x: string)
    requires Distinct(r) && Ahead(r, q, others) && x != q
    ensures Ahead([x] + Remove(r, x), q, others + {x})
  {
    var a := r[..|others|];
    var b := r[|others| + 1..];
    assert r == a + [q] + b;
    RemoveAround(a, q, b, x);
    RemoveDistinct(a, x);
    RemoveLength(a, x);
    AheadFrom(Remove(a, x), q, Remove(b, x), others, x);
  }

  lemma AheadFrom(front: seq<string>, q: string, back: seq<string>, others: set<string>, x: string)
    requires forall y :: y in front <==> y in others && y != x
    requires |front| == |others| - if x in others then 1 else 0
    ensures Ahead([x] + (front + [q] + back), q, others + {x})
  {
    var order := [x] + (front + [q] + back);
    if x in others { assert others + {x} == others; }
    assert |others + {x}| == |front| + 1;
    assert order[..|front| + 1] == [x] + front;
  }

  /** An id stands in the recency order behind exactly the others touched since. */
  lemma {:induction false} RecentPosition(log: seq<string>, q: string)
    requires q in log
    ensures Ahead(Recent(log), q, OthersSince(log, q))
  {
    var n := |log| - 1;
    if log[n] != q {
      assert log == log[..n] + [log[n]];
      RecentPosition(log[..n], q);
      RecentDistinct(log[..n]);
      AheadStep(Recent(log[..n]), q, OthersSince(log[..n], q), log[n]);
    }
  }

  lemma {:induction false} RemoveSplit(a: seq<string>, b: seq<string>, k: string)
    ensures Remove(a + b, k) == Remove(a, k) + Remove(b, k)
  {
    if a == [] {
      assert a + b == b;
    } else {
      assert (a + b)[1..] == a[1..] + b;
      RemoveSplit(a[1..], b, k);
    }
  }

  /**
   What the cache remembers: an id that was ever touched is still cached exactly
   when fewer than `capacity` distinct other ids were touched since.
   */
  lemma RetainedIffFewOthers(es: seq<Entry>, log: seq<string>, q: string, capacity: nat)
    requires Keys(es) == Take(Recent(log), capacity) && q in log
    ensures Find(es, q).Some? <==> |OthersSince(log, q)| < capacity
  {
    RecentPosition(log, q);
    RecentDistinct(log);
    var p := |OthersSince(log, q)|;
    if p < capacity { assert Take(Recent(log), capacity)[p] == q; }
  }

  /** Going on touching ids adds no others than the ones touched, and every one while q is left alone. */
  lemma {:induction false} OthersSinceMore(log: seq<string>, more: seq<string>, q: string)
    ensures OthersSince(log + more, q) <= OthersSince(log, q) + (set x | x in more && x != q)
    ensures q !in more ==> OthersSince(log + more, q) == OthersSince(log, q) + (set x | x in more)
  {
    if more == [] {
      assert log + more == log;
    } else {
      var n := |more| - 1;
      assert (log + more)[..|log| + n] == log + more[..n] && more == more[..n] + [more[n]];
      OthersSinceMore(log, more[..n], q);
    }
  }

  lemma {:induction false} FindIn(es: seq<Entry>, e: Entry)
    requires Distinct(Keys(es)) && e in es
    ensures Find(es, e.key) == Some(e.val)
  {
    if es[0] != e {
      assert Keys(es)[1..] == Keys(es[1..]);
      assert e in es[1..];
      FindIn(es[1..], e);
      var i :| 0 <= i < |es[1..]| && es[1..][i] == e;
      assert Keys(es)[i + 1] == e.key && Keys(es)[0] == es[0].key;
    }
  }

  lemma {:induction false} WithoutSubset(es: seq<Entry>, k: string)
    ensures forall e :: e in Without(es, k) <==> e in es && e.key != k
  {
    if es != [] { WithoutSubset(es[1..], k); assert es == [es[0]] + es[1..]; }
  }

  class Cache {
    var entries: seq<Entry>
    const capacity: nat

    ghost predicate Valid()
      reads this
    {
      0 < capacity && |entries| <= capacity && Distinct(Keys(entries))
    }

    /** A non-positive size falls back to the default. */
    constructor (size: int)
      ensures Valid() && entries == []
      ensures capacity == if size <= 0 then 4096 else size
    {
      entries := [];
      capacity := if size <= 0 then DEFAULT_CACHE_SIZE else size;
    }

    /** The position of `k`, or the length when it is absent. */
    method Locate(k: string) returns (i: nat)
      ensures i <= |entries|
      ensures k !in Keys(entries)[..i]
      ensures i < |entries| ==> entries[i].key == k
    {
      i := 0;
      while i < |entries|
        invariant i <= |entries|
        invariant k !in Keys(entries)[..i]
      {
        if entries[i].key == k { return; }
        i := i + 1;
      }
    }

    method Get(k: string) returns (r: Option<string>)
      requires Valid()
      modifies this
      ensures Valid()
      ensures r == Find(old(entries), k)
      ensures entries == Touch(old(entries), k)
    {
      var i := Locate(k);
      if i == |entries| {
        assert Keys(entries)[..i] == Keys(entries);
        return None;
      }
      WithoutAt(entries, i);
      var e := entries[i];
      FindIn(entries, e);
      entries := [e] + entries[..i] + entries[i + 1..];
      assert entries == [e] + Without(old(entries), k);
      MoveToFront(old(entries), i);
      return Some(e.val);
    }

    method Set(k: string, v: string)
      requires Valid()
      modifies this
      ensures Valid()
      ensures entries == Put(old(entries), k, v, capacity)
    {
      var i := Locate(k);
      PutAt(entries, k, v, i, capacity);
      var rest := if i < |entries| then entries[..i] + entries[i + 1..] else entries;
      entries := [Entry(k, v)] + rest;
      if |entries| > capacity {
        entries := entries[..capacity];
      }
    }
  }

  /** Replacing the located entry is Put, and it keeps the keys distinct. */
  lemma PutAt(es: seq<Entry>, k: string, v: string, i: nat, capacity: nat)
    requires Distinct(Keys(es)) && |es| <= capacity
    requires i <= |es| && k !in Keys(es)[..i] && (i < |es| ==> es[i].key == k)
    ensures
      var rest := if i < |es| then es[..i] + es[i + 1..] else es;
      rest == Without(es, k) && |rest| <= capacity && Distinct(Keys([Entry(k, v)] + rest))
  {
    hide Distinct;
    if i < |es| {
      WithoutAt(es, i);
      MoveToFront(es, i);
      SameKeysInFront(es, i, v);
    } else {
      assert Keys(es)[..i] == Keys(es);
      WithoutAbsent(es, k);
      NewKeyInFront(es, k, v);
    }
  }

  lemma SameKeysInFront(es: seq<Entry>, i: nat, v: string)
    requires i < |es|
    ensures Keys([Entry(es[i].key, v)] + (es[..i] + es[i + 1..])) == Keys([es[i]] + es[..i] + es[i + 1..])
  {
    var rest := es[..i] + es[i + 1..];
    assert [es[i]] + es[..i] + es[i + 1..] == [es[i]] + rest;
  }

  lemma NewKeyInFront(es: seq<Entry>, k: string, v: string)
    requires Distinct(Keys(es)) && k !in Keys(es)
    ensures Distinct(Keys([Entry(k, v)] + es))
  {
    assert Keys([Entry(k, v)] + es) == [k] + Keys(es);
  }

  lemma {:induction false} WithoutAbsent(es: seq<Entry>, k: string)
    requires k !in Keys(es)
    ensures Without(es, k) == es
  {
    if es != [] {
      assert Keys(es) == [es[0].key] + Keys(es[1..]);
      WithoutAbsent(es[1..], k);
    }
  }

  lemma {:induction false} WithoutAt(es: seq<Entry>, i: nat)
    requires i < |es| && Distinct(Keys(es))
    ensures Without(es, es[i].key) == es[..i] + es[i + 1..]
  {
    var ks := Keys(es);
    assert ks[1..] == Keys(es[1..]);
    if i == 0 {
      assert es[0].key !in Keys(es[1..]);
      WithoutAbsent(es[1..], es[0].key);
    } else {
      assert ks[0] != ks[i];
      WithoutAt(es[1..], i - 1);
      assert es[1..][..i - 1] == es[1..i] && es[1..][i..] == es[i + 1..];
      assert es[..i] == [es[0]] + es[1..i];
    }
  }

  lemma MoveToFront(es: seq<Entry>, i: nat)
    requires i < |es| && Distinct(Keys(es))
    ensures Distinct(Keys([es[i]] + es[..i] + es[i + 1..]))
  {
    var ks, ms := Keys(es), Keys([es[i]] + es[..i] + es[i + 1..]);
    assert forall j :: 0 <= j < |ms| ==> ms[j] == ks[if j == 0 then i else if j <= i then j - 1 else j];
  }
}
