/**
 The announcement cache of the TTS runtime: a map and a deque of at most 64 phrases.

 `Fetch` and `Put` are what one call does; `CacheState` is the object whose methods do it in place; and
 `AgreesWithHistory` says what the two fields are after any calls, in terms of the calls alone.
 */
module PhraseCache {
  import opened Wrappers

  type Key = string
  type Pcm = seq<int>

  const CACHE_CAPACITY: nat := 64

  datatype Cache = Cache(values: map<Key, Pcm>, order: seq<Key>)

  const EMPTY := Cache(map[], [])

  // ---------------------------------------------------------------- sequences without repetition

  predicate Distinct(s: seq<Key>) {
    forall i, j :: 0 <= i < j < |s| ==> s[i] != s[j]
  }

  /** `s` without its first `k`. */
  function Without(s: seq<Key>, k: Key): seq<Key> {
    if s == [] then [] else if s[0] == k then s[1..] else [s[0]] + Without(s[1..], k)
  }

  lemma {:induction false} WithoutKeeps(s: seq<Key>, k: Key)
    requires Distinct(s)
    ensures Distinct(Without(s, k)) && (forall x :: x in Without(s, k) <==> x in s && x != k)
    ensures |Without(s, k)| == |s| - (if k in s then 1 else 0)
  {
    if s != [] {
      assert s == [s[0]] + s[1..] && s[0] !in s[1..];
      if s[0] != k { WithoutKeeps(s[1..], k); }
    }
  }

  lemma {:induction false} WithoutAbsent(s: seq<Key>, k: Key)
    requires k !in s
    ensures Without(s, k) == s
  {
    if s != [] {
      WithoutAbsent(s[1..], k);
    }
  }

  lemma {:induction false} WithoutAppend(s: seq<Key>, r: seq<Key>, k: Key)
    ensures Without(s + r, k) == if k in s then Without(s, k) + r else s + Without(r, k)
  {
    if s == [] {
      assert s + r == r;
    } else {
      var first, rest := [s[0]], s[1..];
      assert s == first + rest && (s + r)[1..] == rest + r;
      if s[0] != k {
        WithoutAppend(rest, r, k);
        assert k in s <==> k in rest;
        assert first + (Without(rest, k) + r) == (first + Without(rest, k)) + r;
        assert first + (rest + Without(r, k)) == s + Without(r, k);
      }
    }
  }

  lemma {:induction false} WithoutAt(s: seq<Key>, k: Key, pos: nat)
    requires pos < |s| && s[pos] == k && k !in s[..pos]
    ensures Without(s, k) == s[..pos] + s[pos + 1..]
  {
    if pos > 0 {
      assert s[..pos] == [s[0]] + s[1..][..pos - 1];
      WithoutAt(s[1..], k, pos - 1);
    }
  }

  // ---------------------------------------------------------------- what one call does

  /** A hit moves the key to the back; a miss changes nothing. */
  function Fetch(c: Cache, key: Key): Cache {
    if key in c.values then c.(order := Without(c.order, key) + [key]) else c
  }

  /** A new key pushes out the key at the front once the cache is full. */
  function Put(c: Cache, key: Key, value: Pcm): Cache {
    if key in c.values then Cache(c.values[key := value], Without(c.order, key) + [key])
    else if |c.values| >= CACHE_CAPACITY && c.order != []
    then Cache((c.values - {c.order[0]})[key := value], c.order[1..] + [key])
    else Cache(c.values[key := value], c.order + [key])
  }

  // ---------------------------------------------------------------- the object

  class CacheState {
    var values: map<Key, Pcm>
    var order: seq<Key>

    function Contents(): Cache
      reads this
    {
      Cache(values, order)
    }

    constructor ()
      ensures Contents() == EMPTY
    {
      values, order := map[], [];
    }

    method Position(key: Key) returns (pos: Option<nat>)
      ensures pos.None? ==> key !in order
      ensures pos.Some? ==> pos.value < |order| && order[pos.value] == key && key !in order[..pos.value]
    {
      var i := 0;
      while i < |order|
        invariant 0 <= i <= |order|
        invariant key !in order[..i]
      {
        if order[i] == key { return Some(i); }
        i := i + 1;
      }
      return None;
    }

    method MoveToBack(key: Key)
      modifies `order
      ensures order == Without(old(order), key) + [key]
    {
      var pos := Position(key);
      if pos.Some? {
        WithoutAt(order, key, pos.value);
        order := order[..pos.value] + order[pos.value + 1..];
      } else {
        WithoutAbsent(order, key);
      }
      order := order + [key];
    }

    method Get(key: Key) returns (value: Option<Pcm>)
      modifies this
      ensures value == if key in old(values) then Some(old(values)[key]) else None
      ensures Contents() == Fetch(old(Contents()), key)
    {
      if key !in values { return None; }
      value := Some(values[key]);
      MoveToBack(key);
    }

    method Insert(key: Key, value: Pcm)
      modifies this
      ensures Contents() == Put(old(Contents()), key, value)
    {
      if key in values {
        values := values[key := value];
        MoveToBack(key);
        return;
      }
      if |values| >= CACHE_CAPACITY && order != [] {
        var oldest := order[0];
        order := order[1..];
        values := values - {oldest};
      }
      order := order + [key];
      values := values[key := value];
    }
  }

  // ---------------------------------------------------------------- runs

  datatype Call = Get(key: Key) | Insert(key: Key, value: Pcm)

  function Apply(c: Cache, call: Call): Cache {
    match call
    case Get(k) => Fetch(c, k)
    case Insert(k, v) => Put(c, k, v)
  }

  function After(calls: seq<Call>): Cache {
    if calls == [] then EMPTY else Apply(After(calls[..|calls| - 1]), calls[|calls| - 1])
  }

  /** The keys touched, oldest first: every insert, and every get that hit. */
  function Touched(calls: seq<Call>): seq<Key> {
    if calls == [] then [] else
    var before, last := calls[..|calls| - 1], calls[|calls| - 1];
    Touched(before) + if last.Get? && last.key !in After(before).values then [] else [last.key]
  }

  /** The value last inserted for each key. */
  function Inserted(calls: seq<Call>): map<Key, Pcm> {
    if calls == [] then map[] else
    var before, last := Inserted(calls[..|calls| - 1]), calls[|calls| - 1];
    if last.Insert? then before[last.key := last.value] else before
  }

  /** The keys of a history, each once, by their last occurrence. */
  function Recency(history: seq<Key>): seq<Key> {
    if history == [] then [] else
    var last := history[|history| - 1];
    Without(Recency(history[..|history| - 1]), last) + [last]
  }

  function LastOf(s: seq<Key>, n: nat): seq<Key> {
    if |s| <= n then s else s[|s| - n..]
  }

  lemma LastOfIsShort(s: seq<Key>, n: nat)
    ensures |LastOf(s, n)| <= n
  {
  }

  /** `i` is the last place of `k` in the history. */
  predicate LastPlace(history: seq<Key>, k: Key, i: nat) {
    i < |history| && history[i] == k && k !in history[i + 1..]
  }

  /** `Recency` lists exactly the keys of the history, once each ... */
  lemma {:induction false} RecencyIsDistinct(h: seq<Key>)
    ensures Distinct(Recency(h)) && (forall k :: k in Recency(h) <==> k in h)
  {
    if h != [] {
      var before := h[..|h| - 1];
      assert h == before + [h[|h| - 1]];
      RecencyIsDistinct(before);
      WithoutKeeps(Recency(before), h[|h| - 1]);
    }
  }

  lemma {:induction false} WithoutKeepsOrder(s: seq<Key>, k: Key, i: nat, j: nat) returns (a: nat, b: nat)
    requires Distinct(s) && i < j < |Without(s, k)|
    ensures a < b < |s| && s[a] == Without(s, k)[i] && s[b] == Without(s, k)[j]
  {
    if s[0] == k {
      a, b := i + 1, j + 1;
    } else if i == 0 {
      assert Without(s, k)[j] in Without(s[1..], k);
      WithoutKeeps(s[1..], k);
      b :| 0 < b < |s| && s[b] == Without(s, k)[j];
      a := 0;
    } else {
      a, b := WithoutKeepsOrder(s[1..], k, i - 1, j - 1);
      a, b := a + 1, b + 1;
    }
  }

  /** ... in the order of their last places. */
  lemma {:induction false} RecencyFollowsLastPlaces(h: seq<Key>, i: nat, j: nat, p: nat, q: nat)
    requires i < j < |Recency(h)| && LastPlace(h, Recency(h)[i], p) && LastPlace(h, Recency(h)[j], q)
    ensures p < q
  {
    RecencyIsDistinct(h);
    var before, last := h[..|h| - 1], h[|h| - 1];
    var r := Recency(before);
    RecencyIsDistinct(before);
    if j < |Recency(h)| - 1 {
      var a, b := WithoutKeepsOrder(r, last, i, j);
      assert Recency(h)[|Recency(h)| - 1] == last;
      assert LastPlace(before, r[a], p) by { assert h[p + 1..] == before[p + 1..] + [last]; }
      assert LastPlace(before, r[b], q) by { assert h[q + 1..] == before[q + 1..] + [last]; }
      RecencyFollowsLastPlaces(before, a, b, p, q);
    }
  }

  /** A suffix of the full length, or all there is. */
  lemma LastOfSuffix(front: seq<Key>, back: seq<Key>, n: nat)
    requires |back| == n || (front == [] && |back| <= n)
    ensures LastOf(front + back, n) == back
  {
  }

  lemma TouchCached(front: seq<Key>, l: seq<Key>, k: Key, n: nat)
    requires k in l && k !in front && Distinct(l) && (|l| == n || (front == [] && |l| <= n))
    ensures LastOf(Without(front + l, k) + [k], n) == Without(l, k) + [k]
  {
    hide LastOf;
    WithoutAppend(front, l, k);
    WithoutKeeps(l, k);
    assert front + Without(l, k) + [k] == front + (Without(l, k) + [k]);
    LastOfSuffix(front, Without(l, k) + [k], n);
  }

  lemma Regroup(x: seq<Key>, l: seq<Key>, k: Key)
    requires l != []
    ensures x + l + [k] == (x + [l[0]]) + (l[1..] + [k])
  {
  }

  lemma TouchFull(front: seq<Key>, l: seq<Key>, k: Key, n: nat)
    requires k !in l && |l| == n > 0
    ensures LastOf(Without(front + l, k) + [k], n) == l[1..] + [k]
  {
    hide LastOf;
    WithoutAppend(front, l, k);
    WithoutAbsent(l, k);
    var x := if k in front then Without(front, k) else front;
    Regroup(x, l, k);
    LastOfSuffix(x + [l[0]], l[1..] + [k], n);
  }

  /** Touching `k` next keeps the last 64 of the history up to date. */
  lemma TouchKeepsLast(h: seq<Key>, k: Key)
    ensures var l := LastOf(Recency(h), CACHE_CAPACITY);
      LastOf(Recency(h + [k]), CACHE_CAPACITY) ==
        if k in l then Without(l, k) + [k] else if |l| == CACHE_CAPACITY then l[1..] + [k] else l + [k]
  {
    hide Without;
    var r := Recency(h);
    var l := LastOf(r, CACHE_CAPACITY);
    var front := r[..|r| - |l|];
    RecencyIsDistinct(h);
    assert r == front + l;
    assert (h + [k])[..|h|] == h;
    if k in l { TouchCached(front, l, k, CACHE_CAPACITY); }
    else if |l| == CACHE_CAPACITY { TouchFull(front, l, k, CACHE_CAPACITY); }
    else { WithoutAbsent(l, k); }
  }

  /** What the cache is, in terms of the calls made: the last 64 keys touched, each with the value last
      inserted for it. */
  ghost predicate Agrees(c: Cache, touched: seq<Key>, inserted: map<Key, Pcm>) {
    && c.order == LastOf(Recency(touched), 64)
    && Distinct(c.order)
    && (forall k :: k in c.values <==> k in c.order)
    && (forall k :: k in c.values ==> k in inserted && c.values[k] == inserted[k])
  }

  lemma {:induction false} SameSize(keys: set<Key>, s: seq<Key>)
    requires Distinct(s) && (forall k :: k in keys <==> k in s)
    ensures |keys| == |s|
  {
    if s == [] {
      assert keys == {};
    } else {
      assert s == [s[0]] + s[1..];
      SameSize(keys - {s[0]}, s[1..]);
    }
  }

  lemma FetchKeepsAgreement(c: Cache, key: Key, touched: seq<Key>, inserted: map<Key, Pcm>)
    requires Agrees(c, touched, inserted) && key in c.values
    ensures Agrees(Fetch(c, key), touched + [key], inserted)
  {
    hide Recency;
    TouchKeepsLast(touched, key);
    WithoutKeeps(c.order, key);
  }

  lemma PushKeepsKeys(s: seq<Key>, key: Key)
    requires Distinct(s) && key !in s
    ensures Distinct(s + [key]) && forall k :: k in s + [key] <==> k == key || k in s
  {
  }

  lemma PopKeepsKeys(s: seq<Key>)
    requires Distinct(s) && s != []
    ensures Distinct(s[1..]) && forall k :: k in s[1..] <==> k in s && k != s[0]
  {
    assert s == [s[0]] + s[1..];
  }

  lemma PutKeepsAgreement(c: Cache, key: Key, value: Pcm, touched: seq<Key>, inserted: map<Key, Pcm>)
    requires Agrees(c, touched, inserted) && key !in c.values
    ensures Agrees(Put(c, key, value), touched + [key], inserted[key := value])
  {
    hide Recency, Without, LastOf, Distinct;
    LastOfIsShort(Recency(touched), CACHE_CAPACITY);
    TouchKeepsLast(touched, key);
    SameSize(c.values.Keys, c.order);
    if |c.values| >= CACHE_CAPACITY {
      PopKeepsKeys(c.order);
      PushKeepsKeys(c.order[1..], key);
    } else {
      PushKeepsKeys(c.order, key);
    }
  }

  lemma CallKeepsAgreement(c: Cache, call: Call, touched: seq<Key>, inserted: map<Key, Pcm>)
    requires Agrees(c, touched, inserted)
    ensures Agrees(Apply(c, call),
                   touched + (if call.Get? && call.key !in c.values then [] else [call.key]),
                   if call.Insert? then inserted[call.key := call.value] else inserted)
  {
    hide Recency, Without;
    if call.key in c.values {
      FetchKeepsAgreement(c, call.key, touched, inserted);
    } else if call.Insert? {
      PutKeepsAgreement(c, call.key, call.value, touched, inserted);
    } else {
      assert touched + [] == touched;
    }
  }

  /** After any calls at all, the cache agrees with its history. */
  lemma {:induction false} AgreesWithHistory(calls: seq<Call>)
    ensures Agrees(After(calls), Touched(calls), Inserted(calls))
  {
    if calls != [] {
      var before := calls[..|calls| - 1];
      AgreesWithHistory(before);
      CallKeepsAgreement(After(before), calls[|calls| - 1], Touched(before), Inserted(before));
    }
  }

  /** So a key stays cached exactly while fewer than 64 other keys were touched after it. */
  lemma CachedWhileRecent(calls: seq<Call>, i: nat)
    requires i < |Recency(Touched(calls))|
    ensures var r := Recency(Touched(calls)); r[i] in After(calls).values <==> |r| - i <= 64
  {
    AgreesWithHistory(calls);
    var r := Recency(Touched(calls));
    RecencyIsDistinct(Touched(calls));
    var l := LastOf(r, CACHE_CAPACITY);
    if |r| - i <= CACHE_CAPACITY {
      assert r[i] == l[i - (|r| - |l|)];
    }
  }
}
