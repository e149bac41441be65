/** The Redis store the label cache runs on, reduced to what the pipeline uses:
    a map from key to (value, expiry) and a logical clock in seconds. `GET`
    returns a value only while its entry is live; `SETEX` overwrites the key and
    sets its expiry to now + ttl. Expired entries are kept until overwritten:
    they are logically absent, which is all a reader can observe. */
module RedisCache {
  import opened Text

  datatype Entry = Entry(value: string, expiry: int)

  /** The value a GET at time now observes under key. */
  function LiveValue(entries: map<string, Entry>, now: int, key: string): (r: Option<string>)
    ensures r.Some? <==> key in entries && now < entries[key].expiry
    ensures r.Some? ==> r.value == entries[key].value
  {
    if key in entries && now < entries[key].expiry then Some(entries[key].value) else None
  }

  /** An entry written with SETEX is read back unchanged for exactly ttl seconds. */
  lemma SetExLiveWindow(entries: map<string, Entry>, now: int, key: string, value: string, ttl: nat, elapsed: nat)
    ensures LiveValue(entries[key := Entry(value, now + ttl)], now + elapsed, key)
            == if elapsed < ttl then Some(value) else None
  {
  }

  /** Writing one key leaves what every other key reads unchanged. */
  lemma SetExOtherKeys(entries: map<string, Entry>, now: int, key: string, value: string, ttl: nat, other: string)
    requires other != key
    ensures LiveValue(entries[key := Entry(value, now + ttl)], now, other) == LiveValue(entries, now, other)
  {
  }

  class Store {
    var entries: map<string, Entry>
    var now: int

    /** An empty store at time zero. A convenience for building a store in a proof:
        it does not describe `redis.Redis(...)`, whose server may already hold
        entries, so every member that uses the store takes an arbitrary one. */
    constructor ()
      ensures entries == map[] && now == 0
    {
      entries := map[];
      now := 0;
    }

    /** `redis_client.get(key)`. */
    function Get(key: string): (r: Option<string>)
      reads this
      ensures r.Some? <==> key in entries && now < entries[key].expiry
      ensures r.Some? ==> r.value == entries[key].value
    {
      LiveValue(entries, now, key)
    }

    /** `redis_client.setex(key, ttl, value)`; Redis refuses a ttl that is not positive. */
    method SetEx(key: string, ttl: nat, value: string)
      requires ttl > 0
      modifies this
      ensures entries == old(entries)[key := Entry(value, old(now) + ttl)]
      ensures now == old(now)
      ensures Get(key) == Some(value)
    {
      entries := entries[key := Entry(value, now + ttl)];
    }

    /** The passage of time: the clock moves forward, nothing is written. */
    method Advance(seconds: nat)
      modifies this
      ensures now == old(now) + seconds
      ensures entries == old(entries)
    {
      now := now + seconds;
    }
  }

  /** A scenario, not a line of the pipeline: through the class interface, a value
      written with SETEX is still read one second before its ttl runs out, and is
      gone once the ttl has passed. */
  method WriteThenWait(store: Store, key: string, value: string, ttl: nat)
    returns (justBefore: Option<string>, after: Option<string>)
    requires ttl > 0
    modifies store
    ensures justBefore == Some(value) && after.None?
  {
    store.SetEx(key, ttl, value);
    store.Advance(ttl - 1);
    justBefore := store.Get(key);
    store.Advance(1);
    after := store.Get(key);
  }
}
