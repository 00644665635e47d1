/** Django's cache as the core uses it: a map from string keys to a value and
    the instant it expires, read and written against an explicit clock
    (`now`, in seconds). `cache.get` of a missing or expired key gives
    Python's None, here `Null`. */
module KeyValue {
  import opened Records

  /** The Statistics dictionary `get_user_appointment_stats_cached` stores. */
  datatype Stats = Stats(total: nat, pending: nat, confirmed: nat, completed: nat, cancelled: nat)

  /** The Python objects the core puts in the cache. */
  datatype Value =
    | Null                                   // None
    | Flag(b: bool)                          // True / False
    | DoctorRow(doctor: Doctor)              // a Doctor instance
    | SlotSet(times: set<Minute>)            // a set of booked times
    | StatsDict(stats: Stats)                // the statistics dictionary
    | Pairs(pairs: seq<(string, string)>)    // a tuple of (code, name) pairs
    | Text(s: string)                        // any other str result

  /** Python truthiness of a cached value. */
  predicate Truthy(v: Value)
  {
    match v
    case Null => false
    case Flag(b) => b
    case DoctorRow(_) => true
    case SlotSet(t) => t != {}
    case StatsDict(_) => true
    case Pairs(p) => p != []
    case Text(s) => s != []
  }

  datatype Entry = Entry(value: Value, expiresAt: int)

  /** `cache.get(key)` at time `now`: the stored value while it is live,
      otherwise None. */
  function Read(entries: map<string, Entry>, key: string, now: int): Value
  {
    if key in entries && now < entries[key].expiresAt then entries[key].value else Null
  }

  /** What `cache.set(key, value, ttl)` at time `now` leaves behind. */
  function Written(entries: map<string, Entry>, key: string, v: Value, ttl: nat, now: int): (e: map<string, Entry>)
    ensures forall t :: now <= t < now + ttl ==> Read(e, key, t) == v
    ensures forall k, t :: k != key ==> Read(e, k, t) == Read(entries, k, t)
    ensures forall t :: now + ttl <= t ==> Read(e, key, t) == Null
  {
    entries[key := Entry(v, now + ttl)]
  }

  // ---------------------------------------------------------------------------
  // Cache-aside: a miss is "cache.get returned None"
  // ---------------------------------------------------------------------------

  /** The cache afterwards, the value returned, and whether the store was read. */
  datatype Fetched = Fetched(entries: map<string, Entry>, value: Value, queried: bool)

  /** `v = cache.get(key); if v is None: v = load; cache.set(key, v, ttl)`. */
  function CacheAside(entries: map<string, Entry>, key: string, now: int, load: Value, ttl: nat): Fetched
  {
    var v := Read(entries, key, now);
    if v == Null then Fetched(Written(entries, key, load, ttl, now), load, true) else Fetched(entries, v, false)
  }

  /** On a hit the cached value comes back, the store is not read (so whatever
      it holds now does not matter) and the cache is left as it was. */
  lemma HitReturnsCachedValue(entries: map<string, Entry>, key: string, now: int, load: Value, ttl: nat)
    requires Read(entries, key, now) != Null
    ensures CacheAside(entries, key, now, load, ttl) == Fetched(entries, Read(entries, key, now), false)
  {
  }

  /** On a miss the loaded value is returned and kept for `ttl` seconds under
      `key`; no other key changes. */
  lemma MissStoresLoad(entries: map<string, Entry>, key: string, now: int, load: Value, ttl: nat)
    requires Read(entries, key, now) == Null
    ensures var f := CacheAside(entries, key, now, load, ttl);
      f.queried && f.value == load
      && (forall t :: now <= t < now + ttl ==> Read(f.entries, key, t) == load)
      && (forall k, t :: k != key ==> Read(f.entries, k, t) == Read(entries, k, t))
  {
  }

  /** A load that gives None is stored as None, which reads as a miss: the next
      call, at any time, queries again. */
  lemma NullLoadQueriesAgain(entries: map<string, Entry>, key: string, now: int, later: int, load: Value, ttl: nat)
    requires Read(entries, key, now) == Null
    ensures CacheAside(CacheAside(entries, key, now, Null, ttl).entries, key, later, load, ttl).queried
  {
  }

  class Cache {
    var entries: map<string, Entry>

    constructor ()
      ensures entries == map[]
    {
      entries := map[];
    }

    function Get(key: string, now: int): Value
      reads this
    {
      Read(entries, key, now)
    }

    method Set(key: string, v: Value, ttl: nat, now: int)
      modifies this
      ensures entries == Written(old(entries), key, v, ttl, now)
    {
      entries := entries[key := Entry(v, now + ttl)];
    }

    method Delete(key: string)
      modifies this
      ensures entries == old(entries) - {key}
      ensures forall t :: Read(entries, key, t) == Null
    {
      entries := entries - {key};
    }

    method DeleteMany(keys: set<string>)
      modifies this
      ensures entries == old(entries) - keys
      ensures forall k, t :: k in keys ==> Read(entries, k, t) == Null
    {
      entries := entries - keys;
    }
  }
}
