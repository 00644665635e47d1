/** services_cache.py: the (code, name) pairs of the active services, read
    through the shared cache under one fixed key for 24 hours. */
module ServicesCache {
  import opened Records
  import opened KeyValue

  const ServiceCacheKey: string := "service_tuples_v1"
  const ServiceTtl: nat := 86400

  function CountActive(services: seq<Service>): nat
  {
    if services == [] then 0 else (if services[0].isActive then 1 else 0) + CountActive(services[1..])
  }

  /** `tuple(Service.objects.filter(is_active=True).values_list('code', 'name'))`:
      one pair per active service, in table order. */
  function ActivePairs(services: seq<Service>): (p: seq<(string, string)>)
    ensures |p| == CountActive(services)
  {
    if services == [] then []
    else if services[0].isActive then [(services[0].code, services[0].name)] + ActivePairs(services[1..])
    else ActivePairs(services[1..])
  }

  /** Service `j` is active and `x` is its (code, name) pair. */
  predicate PairOf(services: seq<Service>, j: int, x: (string, string))
  {
    0 <= j < |services| && services[j].isActive && x == (services[j].code, services[j].name)
  }

  /** The pairs are those of the active services, all of them and nothing else. */
  lemma {:induction false} ActivePairsSpec(services: seq<Service>)
    ensures forall j :: 0 <= j < |services| && services[j].isActive ==> (services[j].code, services[j].name) in ActivePairs(services)
    ensures forall x :: x in ActivePairs(services) ==> exists j :: PairOf(services, j, x)
  {
    if services != [] {
      var tail := services[1..];
      ActivePairsSpec(tail);
      assert forall j :: 1 <= j < |services| ==> services[j] == tail[j - 1];
      forall x | x in ActivePairs(services)
        ensures exists j :: PairOf(services, j, x)
      {
        if x in ActivePairs(tail) {
          var j :| PairOf(tail, j, x);
          assert PairOf(services, j + 1, x);
        } else {
          assert PairOf(services, 0, x);
        }
      }
    }
  }

  /** Only None is a miss: a cached empty tuple is returned as it is and the
      table is not queried. */
  lemma EmptyTupleIsAHit(entries: map<string, Entry>, services: seq<Service>, now: int)
    requires Read(entries, ServiceCacheKey, now) == Pairs([])
    ensures CacheAside(entries, ServiceCacheKey, now, Pairs(ActivePairs(services)), ServiceTtl)
      == Fetched(entries, Pairs([]), false)
  {
  }

  /** `get_service_tuples()`. */
  method GetServiceTuples(cache: Cache, services: seq<Service>, now: int) returns (r: Value, queried: bool)
    modifies cache
    ensures Fetched(cache.entries, r, queried)
      == CacheAside(old(cache.entries), ServiceCacheKey, now, Pairs(ActivePairs(services)), ServiceTtl)
  {
    r := cache.Get(ServiceCacheKey, now);
    queried := r == Null;
    if queried {
      r := Pairs(ActivePairs(services));
      cache.Set(ServiceCacheKey, r, ServiceTtl, now);
    }
  }
}
