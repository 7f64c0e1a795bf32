/**
 Redis as the repository uses it: values and counters under keys that may expire, and the
 `CacheService` over them. Times are in milliseconds; a key is gone once the clock has passed
 its expiry, so it is still readable at the expiry instant itself.
*/
module Redis {
  import opened Common

  datatype Entry<+V> = Entry(value: V, expiresAt: int)

  /** What a read at `now` sees under a key that holds `slot`. */
  function Lookup<V>(slot: Option<Entry<V>>, now: int): Option<V> {
    if slot.Some? && now <= slot.value.expiresAt then Some(slot.value.value) else None
  }

  /** A counter key. An absent key counts 0; a key without expiry never goes away. */
  datatype Counter = Counter(count: nat, expiresAt: Option<int>)

  const ABSENT := Counter(0, None)

  /** No counter is live at `now`. */
  predicate Gone(c: Counter, now: int) {
    c.count == 0 || (c.expiresAt.Some? && c.expiresAt.value < now)
  }

  /** `INCR`: a new key starts at 1 and has no expiry. */
  function Incr(c: Counter, now: int): Counter {
    if Gone(c, now) then Counter(1, None) else Counter(c.count + 1, c.expiresAt)
  }

  /** `EXPIRE` on an existing key. */
  function Expire(c: Counter, at: int): Counter {
    if c.count == 0 then c else Counter(c.count, Some(at))
  }

  class CacheService<V> {
    var store: map<string, Entry<V>>
    var counters: map<string, Counter>

    constructor ()
      ensures store == map[] && counters == map[]
    {
      store, counters := map[], map[];
    }

    function Slot(key: string): Option<Entry<V>>
      reads this`store
    {
      if key in store then Some(store[key]) else None
    }

    function CounterAt(key: string): Counter
      reads this`counters
    {
      if key in counters then counters[key] else ABSENT
    }

    method GetJson(now: int, key: string) returns (found: Option<V>)
      ensures found == Lookup(Slot(key), now)
    {
      found := None;
      if key in store && now <= store[key].expiresAt {
        found := Some(store[key].value);
      }
    }

    method SetJson(now: int, key: string, value: V, ttlSeconds: nat)
      modifies this`store
      ensures store == old(store)[key := Entry(value, now + 1000 * ttlSeconds)]
      ensures forall t :: Lookup(Slot(key), t) == if t <= now + 1000 * ttlSeconds then Some(value) else None
      ensures forall k :: k != key ==> Slot(k) == old(Slot(k))
    {
      store := store[key := Entry(value, now + 1000 * ttlSeconds)];
    }

    method Del(key: string)
      modifies this`store
      ensures store == old(store) - {key}
    {
      store := store - {key};
    }

    /** Only a counter that this call has just created gets the time to live, and 0 is none. */
    method Increment(now: int, key: string, ttlSeconds: Option<nat>) returns (val: nat)
      modifies this`counters
      ensures val == Incr(old(CounterAt(key)), now).count
      ensures counters == old(counters)[key :=
                var c := Incr(old(CounterAt(key)), now);
                if ttlSeconds.Some? && ttlSeconds.value != 0 && c.count == 1
                then Counter(1, Some(now + 1000 * ttlSeconds.value)) else c]
    {
      var c := Incr(CounterAt(key), now);
      val := c.count;
      if ttlSeconds.Some? && ttlSeconds.value != 0 && val == 1 {
        c := Expire(c, now + 1000 * ttlSeconds.value);
      }
      counters := counters[key := c];
    }
  }
}
