/**
 The two least-recently-used caches with a time to live: image reviews and query embeddings.

 Both keep an ordered dictionary under a lock and use the same two atomic operations, `Get` and `Put`;
 the embedder runs between them without the lock. So a history is any interleaving of the two.
 */
module LruCaches {
  import opened Collections
  import opened Wrappers

  datatype Entry<V> = Entry(key: string, createdAt: real, value: V)

  predicate Has<V>(entries: seq<Entry<V>>, key: string) {
    exists i :: 0 <= i < |entries| && entries[i].key == key
  }

  function Position<V>(entries: seq<Entry<V>>, key: string): (i: nat)
    requires Has(entries, key)
    ensures i < |entries| && entries[i].key == key
    ensures forall j :: 0 <= j < i ==> entries[j].key != key
  {
    if entries[0].key == key then 0
    else
      assert forall j :: 0 < j < |entries| ==> entries[j] == entries[1..][j - 1];
      Position(entries[1..], key) + 1
  }

  function Find<V>(entries: seq<Entry<V>>, key: string): Option<Entry<V>> {
    if Has(entries, key) then Some(entries[Position(entries, key)]) else None
  }

  function Remove<V>(entries: seq<Entry<V>>, key: string): seq<Entry<V>> {
    if Has(entries, key) then entries[..Position(entries, key)] + entries[Position(entries, key) + 1..] else entries
  }

  /** Drop the oldest entries until the rest fits. */
  function Trim<V>(entries: seq<Entry<V>>, capacity: nat): seq<Entry<V>> {
    if |entries| <= capacity then entries else entries[|entries| - capacity..]
  }

  predicate Expired<V>(e: Entry<V>, now: real, ttl: real) {
    now - e.createdAt > ttl
  }

  predicate Hits<V>(entries: seq<Entry<V>>, key: string, now: real, ttl: real) {
    Has(entries, key) && !Expired(entries[Position(entries, key)], now, ttl)
  }

  /** The entries after a lookup: a hit moves to the end, an expired entry goes. */
  function AfterGet<V>(entries: seq<Entry<V>>, key: string, now: real, ttl: real): seq<Entry<V>> {
    if Hits(entries, key, now, ttl) then Remove(entries, key) + [entries[Position(entries, key)]] else Remove(entries, key)
  }

  function AfterPut<V>(entries: seq<Entry<V>>, e: Entry<V>, capacity: nat): seq<Entry<V>> {
    Trim(Remove(entries, e.key) + [e], capacity)
  }

  function AtLeastOne(n: int): (m: nat)
    ensures m >= 1
  {
    if n < 1 then 1 else n
  }

  /** The ordered dictionary; the last entry is the most recently used. */
  class OrderedCache<V> {
    var entries: seq<Entry<V>>

    constructor ()
      ensures entries == []
    {
      entries := [];
    }

    method Get(key: string, now: real, ttlSeconds: int) returns (r: Option<V>)
      modifies this
      ensures var ttl := AtLeastOne(ttlSeconds) as real;
              && entries == AfterGet(old(entries), key, now, ttl)
              && r == (if Hits(old(entries), key, now, ttl) then Some(Find(old(entries), key).value.value) else None)
    {
      var ttl := AtLeastOne(ttlSeconds) as real;
      if !Has(entries, key) {
        return None;
      }
      var i := Position(entries, key);
      var entry := entries[i];
      if now - entry.createdAt > ttl {
        entries := entries[..i] + entries[i + 1..];
        return None;
      }
      entries := entries[..i] + entries[i + 1..] + [entry];
      return Some(entry.value);
    }

    method Put(key: string, value: V, now: real, maxEntries: int)
      modifies this
      ensures entries == AfterPut(old(entries), Entry(key, now, value), AtLeastOne(maxEntries))
    {
      var capacity := AtLeastOne(maxEntries);
      ghost var all := Remove(entries, key) + [Entry(key, now, value)];
      if Has(entries, key) {
        var i := Position(entries, key);
        entries := entries[..i] + entries[i + 1..];
      }
      entries := entries + [Entry(key, now, value)];
      ghost var dropped := 0;
      while |entries| > capacity
        invariant 0 <= dropped <= |all| && entries == all[dropped..]
        invariant dropped > 0 ==> |entries| >= capacity
      {
        entries := entries[1..];
        dropped := dropped + 1;
      }
    }

    /** The embedding lookup: an empty text or a zero time to live bypasses the cache; the time is read
        before the embedder runs and stored with its result. `None` stands for a failed embedder. */
    method GetQueryEmbedding(cacheKey: string, now: real, ttlSeconds: int, maxEntries: int, embedded: Option<V>)
      returns (r: Option<V>, cached: bool)
      modifies this
      ensures var found := Hits(old(entries), cacheKey, now, ttlSeconds as real);
              if ttlSeconds <= 0 || cacheKey == "" then entries == old(entries) && r == embedded && !cached
              else
                && cached == found
                && r == (if found then Some(Find(old(entries), cacheKey).value.value) else embedded)
                && var looked := AfterGet(old(entries), cacheKey, now, ttlSeconds as real);
                   entries == if found || embedded.None? then looked
                              else AfterPut(looked, Entry(cacheKey, now, embedded.value), AtLeastOne(maxEntries))
    {
      if ttlSeconds > 0 && cacheKey != "" {
        r := Get(cacheKey, now, ttlSeconds);
        if r.Some? {
          return r, true;
        }
      }
      r := embedded;
      cached := false;
      if ttlSeconds > 0 && cacheKey != "" && r.Some? {
        Put(cacheKey, r.value, now, maxEntries);
      }
    }
  }

  // ---------- Histories ----------

  datatype Op<V> = Lookup(key: string, now: real) | Store(key: string, now: real, value: V)

  datatype Limits = Limits(capacity: nat, ttl: real)

  predicate Sensible(l: Limits) {
    l.capacity >= 1
  }

  function Replay<V>(l: Limits, ops: seq<Op<V>>): seq<Entry<V>> {
    if ops == [] then []
    else
      var before := Replay(l, ops[..|ops| - 1]);
      match ops[|ops| - 1]
      case Lookup(key, now) => AfterGet(before, key, now, l.ttl)
      case Store(key, now, value) => AfterPut(before, Entry(key, now, value), l.capacity)
  }

  /** The key this operation uses: every store, and a lookup that hits. */
  function Touched<V>(l: Limits, before: seq<Entry<V>>, op: Op<V>): Option<string> {
    match op
    case Store(key, _, _) => Some(key)
    case Lookup(key, now) => if Hits(before, key, now, l.ttl) then Some(key) else None
  }

  /** The other keys used since `key` was last used. */
  function OthersSince<V>(l: Limits, ops: seq<Op<V>>, key: string): set<string> {
    if ops == [] then {}
    else
      var front := ops[..|ops| - 1];
      match Touched(l, Replay(l, front), ops[|ops| - 1])
      case None => OthersSince(l, front, key)
      case Some(used) => if used == key then {} else OthersSince(l, front, key) + {used}
  }

  /** When `key` was last used, counting operations from one; zero if never. */
  function LastUse<V>(l: Limits, ops: seq<Op<V>>, key: string): (n: nat)
    ensures n <= |ops|
  {
    if ops == [] then 0
    else if Touched(l, Replay(l, ops[..|ops| - 1]), ops[|ops| - 1]) == Some(key) then |ops|
    else LastUse(l, ops[..|ops| - 1], key)
  }

  /** What was last stored under `key`, unless a later lookup found it too old. */
  function LastStored<V>(l: Limits, ops: seq<Op<V>>, key: string): Option<Entry<V>> {
    if ops == [] then None
    else
      var earlier := LastStored(l, ops[..|ops| - 1], key);
      var op := ops[|ops| - 1];
      if op.key != key then earlier
      else if op.Store? then Some(Entry(key, op.now, op.value))
      else if earlier.Some? && Expired(earlier.value, op.now, l.ttl) then None
      else earlier
  }

  // ---------- What the operations do to the entries ----------

  ghost predicate UniqueKeys<V>(s: seq<Entry<V>>) {
    forall i, j :: 0 <= i < j < |s| ==> s[i].key != s[j].key
  }

  /** `b` was used more recently than `a`, by the order of the entries. */
  ghost predicate Behind<V>(s: seq<Entry<V>>, a: string, b: string) {
    exists i, j :: 0 <= i < j < |s| && s[i].key == a && s[j].key == b
  }

  ghost function KeysAfter<V>(s: seq<Entry<V>>, i: nat): set<string>
    requires i < |s|
  {
    set j | i < j < |s| :: s[j].key
  }

  lemma {:induction false} KeysAfterCount<V>(s: seq<Entry<V>>, i: nat)
    requires i < |s| && UniqueKeys(s)
    ensures |KeysAfter(s, i)| == |s| - i - 1
    decreases |s| - i
  {
    if i + 1 < |s| {
      KeysAfterCount(s, i + 1);
      assert KeysAfter(s, i) == KeysAfter(s, i + 1) + {s[i + 1].key};
    } else {
      assert KeysAfter(s, i) == {};
    }
  }

  lemma RemovedAt<V>(s: seq<Entry<V>>, p: nat)
    requires p < |s|
    ensures var r := s[..p] + s[p + 1..];
            |r| == |s| - 1 && forall i :: 0 <= i < |r| ==> r[i] == s[if i < p then i else i + 1]
  {
  }

  lemma RemoveUnique<V>(s: seq<Entry<V>>, key: string)
    requires UniqueKeys(s)
    ensures UniqueKeys(Remove(s, key)) && !Has(Remove(s, key), key) && |Remove(s, key)| <= |s|
    ensures Has(s, key) ==> |Remove(s, key)| == |s| - 1
  {
    if Has(s, key) {
      RemovedAt(s, Position(s, key));
    }
  }

  lemma RemoveHolds<V>(s: seq<Entry<V>>, key: string, e: Entry<V>)
    requires UniqueKeys(s)
    ensures e in Remove(s, key) <==> e in s && e.key != key
  {
    if Has(s, key) {
      var p := Position(s, key);
      RemovedAt(s, p);
      if e in s && e.key != key {
        var i :| 0 <= i < |s| && s[i] == e;
        assert Remove(s, key)[if i < p then i else i - 1] == e;
      }
    }
  }

  lemma RemoveOrder<V>(s: seq<Entry<V>>, key: string, a: string, b: string)
    requires Behind(Remove(s, key), a, b)
    ensures Behind(s, a, b)
  {
    if Has(s, key) {
      var p := Position(s, key);
      var r := Remove(s, key);
      RemovedAt(s, p);
      var i, j :| 0 <= i < j < |r| && r[i].key == a && r[j].key == b;
      var i', j' := if i < p then i else i + 1, if j < p then j else j + 1;
      assert s[i'].key == a && s[j'].key == b;
    }
  }

  lemma AppendFacts<V>(s: seq<Entry<V>>, e: Entry<V>)
    requires UniqueKeys(s) && !Has(s, e.key)
    ensures UniqueKeys(s + [e])
    ensures forall a, b :: Behind(s + [e], a, b) ==> Behind(s, a, b) || (a != e.key && b == e.key)
  {
  }

  lemma TrimFacts<V>(s: seq<Entry<V>>, capacity: nat)
    requires UniqueKeys(s)
    ensures UniqueKeys(Trim(s, capacity)) && |Trim(s, capacity)| <= capacity
    ensures forall e :: e in Trim(s, capacity) ==> e in s
    ensures forall a, b :: Behind(Trim(s, capacity), a, b) ==> Behind(s, a, b)
  {
    if |s| > capacity {
      var t := Trim(s, capacity);
      assert forall i :: 0 <= i < |t| ==> t[i] == s[i + |s| - capacity];
    }
  }

  /** An entry is dropped only if `capacity` entries are behind it. */
  lemma TrimKeeps<V>(s: seq<Entry<V>>, capacity: nat, key: string, others: set<string>)
    requires UniqueKeys(s) && Has(s, key) && |others| < capacity
    requires forall b :: Behind(s, key, b) ==> b in others
    ensures Has(Trim(s, capacity), key)
  {
    var i := Position(s, key);
    KeysAfterCount(s, i);
    assert KeysAfter(s, i) <= others;
    SubsetSize(KeysAfter(s, i), others);
    if |s| > capacity {
      assert Trim(s, capacity)[i - (|s| - capacity)] == s[i];
    }
  }

  // ---------- The invariant ----------

  /** What a history says about each key. */
  datatype Ledger<!V> = Ledger(use: string -> nat, others: string -> set<string>, stored: string -> Option<Entry<V>>)

  function LedgerOf<V>(l: Limits, ops: seq<Op<V>>): Ledger<V> {
    Ledger(key => LastUse(l, ops, key), key => OthersSince(l, ops, key), key => LastStored(l, ops, key))
  }

  /** Every entry is what was last stored, and the entries are in the order of their last use. */
  ghost predicate Faithful<V>(h: Ledger<V>, s: seq<Entry<V>>) {
    && UniqueKeys(s)
    && (forall e :: e in s ==> h.stored(e.key) == Some(e) && h.use(e.key) > 0)
    && (forall a, b :: Behind(s, a, b) ==> h.use(a) < h.use(b) && b in h.others(a))
  }

  /** A key used after fewer than `capacity` others is still there. */
  ghost predicate Keeps<V>(h: Ledger<V>, capacity: nat, s: seq<Entry<V>>) {
    forall key :: Due(h, capacity, key) ==> Has(s, key)
  }

  predicate Due<V>(h: Ledger<V>, capacity: nat, key: string) {
    h.use(key) > 0 && h.stored(key).Some? && |h.others(key)| < capacity
  }

  /** The ledger after `e.key` is used and holds `e`. */
  ghost predicate Used<V>(h: Ledger<V>, e: Entry<V>, n: nat, h': Ledger<V>) {
    && (forall x :: h.use(x) < n)
    && h'.use(e.key) == n && h'.others(e.key) == {} && h'.stored(e.key) == Some(e)
    && (forall x :: x != e.key ==> h'.use(x) == h.use(x) && h'.stored(x) == h.stored(x) && h'.others(x) == h.others(x) + {e.key})
  }

  /** The ledger after a lookup of `key` that does not hit. */
  ghost predicate Missed<V>(h: Ledger<V>, key: string, h': Ledger<V>) {
    && (forall x :: h'.use(x) == h.use(x) && h'.others(x) == h.others(x))
    && (forall x :: x != key ==> h'.stored(x) == h.stored(x))
    && (h'.stored(key).Some? ==> h'.stored(key) == h.stored(key))
  }

  lemma UseIsFaithful<V>(h: Ledger<V>, s: seq<Entry<V>>, e: Entry<V>, n: nat, h': Ledger<V>)
    requires Faithful(h, s) && Used(h, e, n, h')
    ensures Faithful(h', Remove(s, e.key) + [e])
  {
    var kept := Remove(s, e.key);
    RemoveUnique(s, e.key);
    AppendFacts(kept, e);
    forall x | x in kept + [e]
      ensures h'.stored(x.key) == Some(x) && h'.use(x.key) > 0
    {
      RemoveHolds(s, e.key, x);
    }
    forall a, b | Behind(kept + [e], a, b)
      ensures h'.use(a) < h'.use(b) && b in h'.others(a)
    {
      if Behind(kept, a, b) {
        RemoveOrder(s, e.key, a, b);
        KeyOfRemoved(kept, e.key, a, b);
      }
    }
  }

  lemma KeyOfRemoved<V>(s: seq<Entry<V>>, key: string, a: string, b: string)
    requires Behind(s, a, b) && !Has(s, key)
    ensures a != key && b != key
  {
  }

  lemma TrimIsFaithful<V>(h: Ledger<V>, s: seq<Entry<V>>, capacity: nat)
    requires Faithful(h, s)
    ensures Faithful(h, Trim(s, capacity))
  {
    TrimFacts(s, capacity);
  }

  lemma MissIsFaithful<V>(h: Ledger<V>, s: seq<Entry<V>>, key: string, h': Ledger<V>)
    requires Faithful(h, s) && Missed(h, key, h')
    ensures Faithful(h', Remove(s, key))
  {
    RemoveUnique(s, key);
    forall x | x in Remove(s, key)
      ensures h'.stored(x.key) == Some(x) && h'.use(x.key) > 0
    {
      RemoveHolds(s, key, x);
    }
    forall a, b | Behind(Remove(s, key), a, b)
      ensures h'.use(a) < h'.use(b) && b in h'.others(a)
    {
      RemoveOrder(s, key, a, b);
    }
  }

  lemma StillThere<V>(s: seq<Entry<V>>, key: string, x: string)
    requires UniqueKeys(s) && Has(s, x) && x != key
    ensures Has(Remove(s, key), x)
  {
    var e := s[Position(s, x)];
    RemoveHolds(s, key, e);
    var i :| 0 <= i < |Remove(s, key)| && Remove(s, key)[i] == e;
  }

  lemma UseKeeps<V>(h: Ledger<V>, capacity: nat, s: seq<Entry<V>>, e: Entry<V>, n: nat, h': Ledger<V>)
    requires Faithful(h, s) && Keeps(h, capacity, s) && Used(h, e, n, h')
    ensures Keeps(h', capacity, Remove(s, e.key) + [e])
  {
    var t := Remove(s, e.key) + [e];
    forall x | Due(h', capacity, x)
      ensures Has(t, x)
    {
      if x == e.key {
        assert t[|t| - 1].key == x;
      } else {
        SubsetSize(h.others(x), h'.others(x));
        assert Due(h, capacity, x);
        StillThere(s, e.key, x);
        assert t[Position(Remove(s, e.key), x)].key == x;
      }
    }
  }

  lemma TrimKeepsDue<V>(h: Ledger<V>, capacity: nat, s: seq<Entry<V>>)
    requires Faithful(h, s) && Keeps(h, capacity, s)
    ensures Keeps(h, capacity, Trim(s, capacity))
  {
    forall x | Due(h, capacity, x)
      ensures Has(Trim(s, capacity), x)
    {
      TrimKeeps(s, capacity, x, h.others(x));
    }
  }

  lemma MissKeeps<V>(h: Ledger<V>, capacity: nat, s: seq<Entry<V>>, key: string, h': Ledger<V>)
    requires Faithful(h, s) && Keeps(h, capacity, s) && Missed(h, key, h') && (Has(s, key) ==> h'.stored(key).None?)
    ensures Keeps(h', capacity, Remove(s, key))
  {
    forall x | Due(h', capacity, x)
      ensures Has(Remove(s, key), x)
    {
      assert Due(h, capacity, x);
      StillThere(s, key, x);
    }
  }

  // ---------- Histories keep the invariant ----------

  ghost predicate Sound<V>(l: Limits, ops: seq<Op<V>>) {
    var s := Replay(l, ops);
    |s| <= l.capacity && Faithful(LedgerOf(l, ops), s) && Keeps(LedgerOf(l, ops), l.capacity, s)
  }

  lemma FoundIsHeld<V>(h: Ledger<V>, s: seq<Entry<V>>, key: string)
    requires Faithful(h, s) && Has(s, key)
    ensures h.stored(key) == Some(s[Position(s, key)])
  {
    assert s[Position(s, key)] in s;
  }

  lemma LedgerAfterUse<V>(l: Limits, ops: seq<Op<V>>, e: Entry<V>)
    requires ops != [] && var front, op := ops[..|ops| - 1], ops[|ops| - 1];
             Touched(l, Replay(l, front), op) == Some(e.key) && LastStored(l, ops, e.key) == Some(e)
    ensures Used(LedgerOf(l, ops[..|ops| - 1]), e, |ops|, LedgerOf(l, ops))
  {
  }

  lemma LedgerAfterMiss<V>(l: Limits, ops: seq<Op<V>>)
    requires ops != [] && var front, op := ops[..|ops| - 1], ops[|ops| - 1];
             op.Lookup? && !Hits(Replay(l, front), op.key, op.now, l.ttl)
    ensures Missed(LedgerOf(l, ops[..|ops| - 1]), ops[|ops| - 1].key, LedgerOf(l, ops))
  {
  }

  lemma UsedStep<V>(l: Limits, ops: seq<Op<V>>, e: Entry<V>)
    requires ops != [] && Sound(l, ops[..|ops| - 1])
    requires Used(LedgerOf(l, ops[..|ops| - 1]), e, |ops|, LedgerOf(l, ops))
    ensures var t := Remove(Replay(l, ops[..|ops| - 1]), e.key) + [e];
            Faithful(LedgerOf(l, ops), t) && Keeps(LedgerOf(l, ops), l.capacity, t)
  {
    var front := ops[..|ops| - 1];
    UseIsFaithful(LedgerOf(l, front), Replay(l, front), e, |ops|, LedgerOf(l, ops));
    UseKeeps(LedgerOf(l, front), l.capacity, Replay(l, front), e, |ops|, LedgerOf(l, ops));
  }

  lemma {:induction false} CacheInvariant<V>(l: Limits, ops: seq<Op<V>>)
    requires Sensible(l)
    ensures Sound(l, ops)
  {
    if ops != [] {
      var front, op := ops[..|ops| - 1], ops[|ops| - 1];
      var s := Replay(l, front);
      CacheInvariant(l, front);
      RemoveUnique(s, op.key);
      if op.Store? {
        var e := Entry(op.key, op.now, op.value);
        LedgerAfterUse(l, ops, e);
        UsedStep(l, ops, e);
        TrimFacts(Remove(s, e.key) + [e], l.capacity);
        TrimIsFaithful(LedgerOf(l, ops), Remove(s, e.key) + [e], l.capacity);
        TrimKeepsDue(LedgerOf(l, ops), l.capacity, Remove(s, e.key) + [e]);
      } else if Hits(s, op.key, op.now, l.ttl) {
        var e := s[Position(s, op.key)];
        FoundIsHeld(LedgerOf(l, front), s, op.key);
        LedgerAfterUse(l, ops, e);
        UsedStep(l, ops, e);
      } else {
        if Has(s, op.key) {
          FoundIsHeld(LedgerOf(l, front), s, op.key);
        }
        LedgerAfterMiss(l, ops);
        MissIsFaithful(LedgerOf(l, front), s, op.key, LedgerOf(l, ops));
        MissKeeps(LedgerOf(l, front), l.capacity, s, op.key, LedgerOf(l, ops));
      }
    }
  }

  // ---------- What a history guarantees ----------

  /** After any history each cache is within capacity, no key occurs twice, and the entries are in the
      order of their last use. */
  lemma RecencyOrder<V>(l: Limits, ops: seq<Op<V>>, i: nat, j: nat)
    requires Sensible(l) && i < j < |Replay(l, ops)|
    ensures var s := Replay(l, ops);
            |s| <= l.capacity && s[i].key != s[j].key && LastUse(l, ops, s[i].key) < LastUse(l, ops, s[j].key)
  {
    CacheInvariant(l, ops);
    var s := Replay(l, ops);
    assert Behind(s, s[i].key, s[j].key);
  }

  /** A hit returns what was last stored under that key, stored no longer ago than the time to live. */
  lemma HitsAreFresh<V>(l: Limits, ops: seq<Op<V>>, key: string, now: real)
    requires Sensible(l) && Hits(Replay(l, ops), key, now, l.ttl)
    ensures var e := Find(Replay(l, ops), key).value;
            LastStored(l, ops, key) == Some(e) && now - e.createdAt <= l.ttl
  {
    CacheInvariant(l, ops);
    FoundIsHeld(LedgerOf(l, ops), Replay(l, ops), key);
  }

  /** A key that has not expired is a hit if fewer than `capacity` other keys were used since its own
      last use. */
  lemma RecentKeysHit<V>(l: Limits, ops: seq<Op<V>>, key: string, now: real)
    requires Sensible(l) && LastUse(l, ops, key) > 0 && |OthersSince(l, ops, key)| < l.capacity
    requires LastStored(l, ops, key).Some? && !Expired(LastStored(l, ops, key).value, now, l.ttl)
    ensures Hits(Replay(l, ops), key, now, l.ttl)
    ensures Find(Replay(l, ops), key) == LastStored(l, ops, key)
  {
    CacheInvariant(l, ops);
    assert Due(LedgerOf(l, ops), l.capacity, key);
    FoundIsHeld(LedgerOf(l, ops), Replay(l, ops), key);
  }
}
