/** The in-process cache of `memory-cache.service.ts`. */
module MemoryCache {
  import opened Common
  import opened Redis

  /** What the cache holds: the stored entries and the insertion order, with repeats. */
  datatype State<V> = State(store: map<string, Entry<V>>, order: seq<string>)

  function Slot<V>(s: State<V>, key: string): Option<Entry<V>> {
    if key in s.store then Some(s.store[key]) else None
  }

  /** Every stored key can be found again in `order`. The empty key is the exception: see `Evicted`. */
  ghost predicate Tracked<V>(s: State<V>) {
    forall k :: k in s.store && k != "" ==> k in s.order
  }

  function Deleted<V>(s: State<V>, key: string): State<V> {
    s.(store := s.store - {key})
  }

  /** The eviction loop. An empty key is falsy, so the loop drops it from `order` only. */
  function Evicted<V>(s: State<V>, max: nat): State<V>
    decreases |s.order|
  {
    if |s.store| <= max || s.order == [] then s
    else Evicted(State(if s.order[0] != "" then s.store - {s.order[0]} else s.store, s.order[1..]), max)
  }

  function Stored<V>(s: State<V>, key: string, e: Entry<V>, max: nat): State<V> {
    var t := State(s.store[key := e], s.order + [key]);
    if |t.store| > max then Evicted(t, max) else t
  }

  function Fetched<V>(s: State<V>, key: string, now: int): State<V> {
    if key in s.store && s.store[key].expiresAt < now then Deleted(s, key) else s
  }

  class MemoryCacheService<V> {
    var store: map<string, Entry<V>>
    var order: seq<string>
    const max: nat

    constructor (max: nat)
      ensures this.max == max && Value() == State(map[], [])
    {
      this.max := max;
      store, order := map[], [];
    }

    function Value(): State<V>
      reads this
    {
      State(store, order)
    }

    method Get(now: int, key: string) returns (value: Option<V>)
      modifies this
      ensures value == Lookup(old(Slot(Value(), key)), now)
      ensures Value() == Fetched(old(Value()), key, now)
    {
      if key !in store {
        return None;
      }
      var e := store[key];
      if e.expiresAt < now {
        Del(key);
        return None;
      }
      value := Some(e.value);
    }

    method Set(now: int, key: string, value: V, ttlSeconds: nat)
      modifies this
      ensures Value() == Stored(old(Value()), key, Entry(value, now + 1000 * ttlSeconds), max)
    {
      store := store[key := Entry(value, now + 1000 * ttlSeconds)];
      order := order + [key];
      if |store| > max {
        Evict();
      }
    }

    method Del(key: string)
      modifies this
      ensures Value() == Deleted(old(Value()), key)
    {
      store := store - {key};
    }

    method Evict()
      modifies this
      ensures Value() == Evicted(old(Value()), max)
    {
      while |store| > max && |order| > 0
        invariant Evicted(Value(), max) == Evicted(old(Value()), max)
        decreases |order|
      {
        var k := order[0];
        order := order[1..];
        if k != "" {
          store := store - {k};
        }
      }
    }
  }

  /** Straight after a `set` the key holds the new entry, or eviction has already taken it again. */
  lemma {:induction false} EvictedKeepsOrDrops<V>(s: State<V>, max: nat, key: string)
    ensures Slot(Evicted(s, max), key) == Slot(s, key) || Slot(Evicted(s, max), key) == None
    decreases |s.order|
  {
    if |s.store| > max && s.order != [] {
      EvictedKeepsOrDrops(State(if s.order[0] != "" then s.store - {s.order[0]} else s.store, s.order[1..]), max, key);
    }
  }

  /** Eviction only removes, keeps every key findable, and ends within the bound or with nothing left to shift. */
  lemma {:induction false} EvictedShape<V>(s: State<V>, max: nat)
    requires Tracked(s)
    ensures var t := Evicted(s, max);
            && Tracked(t) && t.store.Keys <= s.store.Keys
            && (forall k :: k in t.store ==> t.store[k] == s.store[k])
            && (|t.store| <= max || (t.order == [] && t.store.Keys == {""}))
    decreases |s.order|
  {
    if |s.store| <= max {
    } else if s.order == [] {
      assert s.store.Keys <= {""};
      assert "" !in s.store ==> s.store == map[];
    } else {
      var t := State(if s.order[0] != "" then s.store - {s.order[0]} else s.store, s.order[1..]);
      assert forall k :: k in s.order && k != s.order[0] ==> k in t.order;
      EvictedShape(t, max);
    }
  }

  /** Eviction never takes the empty key, whose order entries it skips. */
  lemma {:induction false} EvictedKeepsEmptyKey<V>(s: State<V>, max: nat)
    ensures "" in Evicted(s, max).store <==> "" in s.store
    decreases |s.order|
  {
    if |s.store| > max && s.order != [] {
      EvictedKeepsEmptyKey(State(if s.order[0] != "" then s.store - {s.order[0]} else s.store, s.order[1..]), max);
    }
  }

  /** After a `set` the size is within the bound, unless the bound is 0 and the empty key is set or stored. */
  lemma SizeBoundedAfterSet<V>(s: State<V>, key: string, e: Entry<V>, max: nat)
    requires Tracked(s)
    ensures Tracked(Stored(s, key, e, max))
    ensures |Stored(s, key, e, max).store| <= max <==> !(max == 0 && (key == "" || "" in s.store))
  {
    var t := State(s.store[key := e], s.order + [key]);
    EvictedShape(t, max);
    EvictedKeepsEmptyKey(t, max);
    var u := Evicted(t, max);
    assert |u.store| == |u.store.Keys|;
    assert key in t.store && |t.store| > 0;
  }

  /** The exception is real. */
  lemma EmptyKeyEscapesBound<V>(e: Entry<V>)
    ensures |Stored(State(map[], []), "", e, 0).store| == 1
  {
    var s: State<V> := State(map[], []);
    var t := State(s.store["" := e], s.order + [""]);
    assert t.store.Keys == {""} && |t.store| == |t.store.Keys|;
    assert Evicted(t, 0) == Evicted(State(t.store, t.order[1..]), 0);
  }

  datatype Op<V> = Get(now: int, key: string) | Set(key: string, entry: Entry<V>) | Del(key: string)

  function Apply<V>(s: State<V>, op: Op<V>, max: nat): State<V> {
    match op
    case Get(now, key) => Fetched(s, key, now)
    case Set(key, e) => Stored(s, key, e, max)
    case Del(key) => Deleted(s, key)
  }

  ghost function Run<V>(ops: seq<Op<V>>, max: nat): State<V> {
    if ops == [] then State(map[], []) else Apply(Run(ops[..|ops| - 1], max), ops[|ops| - 1], max)
  }

  /** A plain expiring map: the entry last set under `key` and not deleted since. */
  ghost function LastSet<V>(ops: seq<Op<V>>, key: string): Option<Entry<V>> {
    if ops == [] then None else
      var op, before := ops[|ops| - 1], LastSet(ops[..|ops| - 1], key);
      if op.Set? && op.key == key then Some(op.entry)
      else if op.Del? && op.key == key then None
      else before
  }

  /** The keys that have ever been set. */
  ghost function KeysSet<V>(ops: seq<Op<V>>): set<string> {
    set i | 0 <= i < |ops| && ops[i].Set? :: ops[i].key
  }

  /** No `get` of the run happened after `now`. */
  ghost predicate ReadsBy<V>(ops: seq<Op<V>>, now: int) {
    forall i :: 0 <= i < |ops| && ops[i].Get? ==> ops[i].now <= now
  }

  lemma {:induction false} RunStaysTracked<V>(ops: seq<Op<V>>, max: nat)
    ensures Tracked(Run(ops, max))
  {
    if ops != [] {
      var s, op := Run(ops[..|ops| - 1], max), ops[|ops| - 1];
      RunStaysTracked(ops[..|ops| - 1], max);
      if op.Set? {
        SizeBoundedAfterSet(s, op.key, op.entry, max);
      }
    }
  }

  /** Whatever is stored is what a plain map holds; so a read never returns an older or a deleted value. */
  lemma {:induction false} RefinesPlainMap<V>(ops: seq<Op<V>>, max: nat, key: string)
    ensures key in Run(ops, max).store ==> LastSet(ops, key) == Some(Run(ops, max).store[key])
  {
    if ops != [] {
      var init, op := ops[..|ops| - 1], ops[|ops| - 1];
      RefinesPlainMap(init, max, key);
      RunStaysTracked(init, max);
      if op.Set? {
        var s := Run(init, max);
        var t := State(s.store[op.key := op.entry], s.order + [op.key]);
        EvictedShape(t, max);
      }
    }
  }

  /** A read at `now` returns nothing, or the unexpired value last set and not deleted since. */
  lemma ReadIsFreshOrNothing<V>(ops: seq<Op<V>>, max: nat, key: string, now: int)
    ensures var r := Lookup(Slot(Run(ops, max), key), now);
            r == None || r == Lookup(LastSet(ops, key), now)
  {
    RefinesPlainMap(ops, max, key);
  }

  /** While no more distinct keys than the bound were ever set, the cache is exactly the plain map. */
  lemma {:induction false} ExactWithinBound<V>(ops: seq<Op<V>>, max: nat, key: string, now: int)
    requires |KeysSet(ops)| <= max && ReadsBy(ops, now)
    ensures Run(ops, max).store.Keys <= KeysSet(ops)
    ensures Lookup(Slot(Run(ops, max), key), now) == Lookup(LastSet(ops, key), now)
  {
    RefinesPlainMap(ops, max, key);
    if ops != [] {
      var init, op := ops[..|ops| - 1], ops[|ops| - 1];
      assert KeysSet(init) <= KeysSet(ops);
      Subset(KeysSet(init), KeysSet(ops));
      ExactWithinBound(init, max, key, now);
      var s := Run(init, max);
      if op.Set? {
        assert op.key in KeysSet(ops);
        var t := State(s.store[op.key := op.entry], s.order + [op.key]);
        Subset(t.store.Keys, KeysSet(ops));
        assert |t.store| == |t.store.Keys|;
      }
    }
  }

  lemma Subset(a: set<string>, b: set<string>)
    requires a <= b
    ensures |a| <= |b|
  {
    assert b == a + (b - a);
  }

  /** A `get` removes the key when it has expired, and nothing else. */
  lemma GetFreesExpired<V>(s: State<V>, key: string, now: int)
    ensures var t := Fetched(s, key, now);
            && t.order == s.order
            && (key in t.store <==> key in s.store && now <= s.store[key].expiresAt)
            && forall k :: k != key || key in t.store ==> Slot(t, k) == Slot(s, k)
  {
  }

  /** `order` names each stored key once, and nothing else. */
  ghost predicate Orderly<V>(s: State<V>) {
    && (forall i, j :: 0 <= i < j < |s.order| ==> s.order[i] != s.order[j])
    && (forall k :: k in s.order <==> k in s.store) && "" !in s.store
  }

  lemma EvictOne<V>(s: State<V>, max: nat)
    requires |s.store| == max + 1 && s.order != [] && s.order[0] in s.store && s.order[0] != ""
    ensures Evicted(s, max) == State(s.store - {s.order[0]}, s.order[1..])
  {
    var t := State(s.store - {s.order[0]}, s.order[1..]);
    assert t.store.Keys == s.store.Keys - {s.order[0]};
    assert |t.store| == |t.store.Keys| == max;
    assert Evicted(s, max) == Evicted(t, max);
  }

  lemma OrderlyWithout<V>(s: State<V>)
    requires Orderly(s) && s.order != []
    ensures Orderly(State(s.store - {s.order[0]}, s.order[1..]))
  {
    var rest := s.order[1..];
    assert forall i :: 0 <= i < |rest| ==> rest[i] == s.order[i + 1];
    forall k ensures k in rest <==> k in s.order && k != s.order[0] {
      if k in s.order && k != s.order[0] {
        var i :| 0 <= i < |s.order| && s.order[i] == k;
        assert rest[i - 1] == k;
      }
    }
  }

  lemma OrderlyWith<V>(s: State<V>, key: string, e: Entry<V>)
    requires Orderly(s) && key != "" && key !in s.store
    ensures Orderly(State(s.store[key := e], s.order + [key])) && |s.store[key := e]| == |s.store| + 1
  {
    assert s.store[key := e].Keys == s.store.Keys + {key};
    assert |s.store[key := e]| == |s.store[key := e].Keys| && |s.store| == |s.store.Keys|;
    assert key !in s.order;
  }

  lemma RoomIsLeft<V>(s: State<V>, key: string, e: Entry<V>, max: nat)
    requires Orderly(s) && |s.store| < max && key != "" && key !in s.store
    ensures var t := Stored(s, key, e, max);
            Orderly(t) && t == State(s.store[key := e], s.order + [key]) && |t.store| == |s.store| + 1
  {
    OrderlyWith(s, key, e);
  }

  lemma FullIsOrdered<V>(s: State<V>)
    requires Orderly(s) && s.store != map[]
    ensures s.order != [] && s.order[0] in s.store && s.order[0] != ""
  {
    var k :| k in s.store;
    assert k in s.order;
    assert s.order[0] in s.order;
  }

  /** When room for a new key is short the oldest key goes, and the new one stays. */
  lemma OldestGoes<V>(s: State<V>, key: string, e: Entry<V>, max: nat)
    requires Orderly(s) && 1 <= max && |s.store| == max && key != "" && key !in s.store
    ensures s.order != []
    ensures var t := Stored(s, key, e, max);
            && Orderly(t) && t.store == s.store[key := e] - {s.order[0]} && t.order == s.order[1..] + [key]
            && key in t.store && |t.store| == max
  {
    assert s.store != map[];
    FullIsOrdered(s);
    OrderlyWith(s, key, e);
    var full := State(s.store[key := e], s.order + [key]);
    assert full.order[0] == s.order[0] && full.order[1..] == s.order[1..] + [key];
    EvictOne(full, max);
    OrderlyWithout(full);
    var t := full.store - {s.order[0]};
    assert t.Keys == full.store.Keys - {s.order[0]};
    assert |t| == |t.Keys| && |full.store| == |full.store.Keys|;
  }

  function Latest(keys: seq<string>, max: nat): seq<string> {
    if |keys| <= max then keys else keys[|keys| - max..]
  }

  function Sets<V>(keys: seq<string>, e: Entry<V>): seq<Op<V>> {
    seq(|keys|, i requires 0 <= i < |keys| => Set(keys[i], e))
  }

  /** Exactly the keys of `order` are stored, and they are the latest `max` of `keys`. */
  ghost predicate HoldsLatest<V>(s: State<V>, keys: seq<string>, max: nat) {
    Orderly(s) && s.order == Latest(keys, max) && |s.store| == |s.order|
  }

  lemma LatestSnoc(keys: seq<string>, key: string, max: nat)
    requires 1 <= max
    ensures Latest(keys + [key], max) ==
            if |keys| < max then Latest(keys, max) + [key] else Latest(keys, max)[1..] + [key]
    ensures |Latest(keys, max)| == (if |keys| < max then |keys| else max)
    ensures forall k :: k in Latest(keys, max) ==> k in keys
  {
  }

  lemma SetKeepsLatest<V>(s: State<V>, keys: seq<string>, key: string, e: Entry<V>, max: nat)
    requires 1 <= max && HoldsLatest(s, keys, max) && key != "" && key !in keys
    ensures HoldsLatest(Stored(s, key, e, max), keys + [key], max)
  {
    LatestSnoc(keys, key, max);
    assert key !in s.order;
    if |keys| < max {
      RoomIsLeft(s, key, e, max);
    } else {
      OldestGoes(s, key, e, max);
    }
  }

  lemma RunSets<V>(keys: seq<string>, e: Entry<V>, max: nat)
    requires keys != []
    ensures var init := keys[..|keys| - 1];
            Run(Sets(keys, e), max) == Stored(Run(Sets(init, e), max), keys[|keys| - 1], e, max)
  {
    assert Sets(keys, e)[..|keys| - 1] == Sets(keys[..|keys| - 1], e);
  }

  ghost predicate AllNew(keys: seq<string>) {
    "" !in keys && forall i, j :: 0 <= i < j < |keys| ==> keys[i] != keys[j]
  }

  lemma AllNewInit(keys: seq<string>)
    requires AllNew(keys) && keys != []
    ensures var init, key := keys[..|keys| - 1], keys[|keys| - 1];
            keys == init + [key] && AllNew(init) && key !in init && key != ""
  {
  }

  /** Over any sequence of new keys exactly the latest `max` are stored. */
  lemma {:induction false} LatestAreKept<V>(keys: seq<string>, e: Entry<V>, max: nat)
    requires 1 <= max && AllNew(keys)
    ensures HoldsLatest(Run(Sets(keys, e), max), keys, max)
  {
    if keys == [] {
      assert Sets(keys, e) == [];
    } else {
      var init, key := keys[..|keys| - 1], keys[|keys| - 1];
      AllNewInit(keys);
      LatestAreKept(init, e, max);
      RunSets(keys, e, max);
      SetKeepsLatest(Run(Sets(init, e), max), init, key, e, max);
    }
  }
}
