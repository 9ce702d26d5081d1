/** The TTL cache of pkg/sentry/cache.go: two maps, one from key to value and
    one from key to expiry time, written together by Set and cleaned lazily by
    Get. Times are integers (nanoseconds); the current time is a parameter. */
module Cache {
  import opened Wrappers

  /** defaultCacheTTL = 5 * time.Minute, in nanoseconds. */
  const DefaultCacheTTL: int := 5 * 60 * 1_000_000_000

  /** The content of both maps at one moment. */
  datatype CacheState<V> = CacheState(data: map<string, V>, expiration: map<string, int>)

  /** The invariant the two maps keep: they have the same keys. */
  predicate KeysAgree<V>(s: CacheState<V>)
  {
    s.data.Keys == s.expiration.Keys
  }

  function Empty<V>(): CacheState<V>
  {
    CacheState(map[], map[])
  }

  /** Set at time now: both entries for key are replaced. */
  function ApplySet<V>(s: CacheState<V>, key: string, value: V, ttl: int, now: int): CacheState<V>
  {
    CacheState(s.data[key := value], s.expiration[key := now + ttl])
  }

  /** Get at time now: the new state and the value found, if any. An entry
      whose expiry is strictly before now, or that has no expiry, is deleted
      from both maps and reported missing. */
  function ApplyGet<V>(s: CacheState<V>, key: string, now: int): (r: (CacheState<V>, Option<V>))
    ensures key !in s.data ==> r == (s, None)
    ensures key in s.data && key in s.expiration && now <= s.expiration[key] ==> r == (s, Some(s.data[key]))
    ensures key in s.data && (key !in s.expiration || now > s.expiration[key]) ==>
              r.1 == None && r.0.data == s.data - {key} && r.0.expiration == s.expiration - {key}
  {
    if key !in s.data then (s, None)
    else if key !in s.expiration || now > s.expiration[key] then
      (CacheState(s.data - {key}, s.expiration - {key}), None)
    else (s, Some(s.data[key]))
  }

  /** Set keeps the two key sets equal. */
  lemma SetKeepsKeysAgree<V>(s: CacheState<V>, key: string, value: V, ttl: int, now: int)
    requires KeysAgree(s)
    ensures KeysAgree(ApplySet(s, key, value, ttl, now))
  {
  }

  /** Get keeps the two key sets equal. */
  lemma GetKeepsKeysAgree<V>(s: CacheState<V>, key: string, now: int)
    requires KeysAgree(s)
    ensures KeysAgree(ApplyGet(s, key, now).0)
  {
  }

  /** Round trip: a value stored with a non-negative ttl is found by every
      read up to and including the expiry instant, and the read changes nothing. */
  lemma SetThenGet<V>(s: CacheState<V>, key: string, value: V, ttl: int, now: int, later: int)
    requires ttl >= 0 && now <= later <= now + ttl
    ensures ApplyGet(ApplySet(s, key, value, ttl, now), key, later)
            == (ApplySet(s, key, value, ttl, now), Some(value))
  {
  }

  /** After the expiry instant the entry is gone, from both maps. */
  lemma SetThenGetExpired<V>(s: CacheState<V>, key: string, value: V, ttl: int, now: int, later: int)
    requires later > now + ttl
    ensures ApplyGet(ApplySet(s, key, value, ttl, now), key, later).1 == None
    ensures key !in ApplyGet(ApplySet(s, key, value, ttl, now), key, later).0.data
    ensures key !in ApplyGet(ApplySet(s, key, value, ttl, now), key, later).0.expiration
  {
  }

  /** A second Set of the same key replaces the first completely. */
  lemma SetOverwrites<V>(s: CacheState<V>, key: string, v1: V, t1: int, n1: int, v2: V, t2: int, n2: int)
    ensures ApplySet(ApplySet(s, key, v1, t1, n1), key, v2, t2, n2) == ApplySet(s, key, v2, t2, n2)
  {
  }

  /** Both maps agree with each other on a key other than the one touched. */
  ghost predicate SameEntry<V>(s: CacheState<V>, t: CacheState<V>, k: string)
  {
    (k in t.data <==> k in s.data) && (k in s.data ==> t.data[k] == s.data[k])
    && (k in t.expiration <==> k in s.expiration)
    && (k in s.expiration ==> t.expiration[k] == s.expiration[k])
  }

  /** Get and Set of one key leave every other key's entries as they were. */
  lemma OtherKeysUntouched<V>(s: CacheState<V>, key: string, other: string, value: V, ttl: int, now: int)
    requires other != key
    ensures SameEntry(s, ApplySet(s, key, value, ttl, now), other)
    ensures SameEntry(s, ApplyGet(s, key, now).0, other)
  {
  }

  /** Reading twice at the same instant is the same as reading once. */
  lemma GetIdempotent<V>(s: CacheState<V>, key: string, now: int)
    ensures ApplyGet(ApplyGet(s, key, now).0, key, now) == ApplyGet(s, key, now)
  {
  }

  /** Once a read misses, every later read of that key misses too
      (as long as nothing is stored in between), and changes nothing more. */
  lemma MissIsPermanent<V>(s: CacheState<V>, key: string, now: int, later: int)
    requires ApplyGet(s, key, now).1 == None
    ensures ApplyGet(ApplyGet(s, key, now).0, key, later) == (ApplyGet(s, key, now).0, None)
  {
  }

  /** The cache object. Go's mutex only serialises the map accesses and is
      not modelled. */
  class Cache<V> {
    var data: map<string, V>
    var expiration: map<string, int>

    function Snapshot(): CacheState<V>
      reads this
    {
      CacheState(data, expiration)
    }

    /** NewCache: both maps empty. */
    constructor ()
      ensures data == map[] && expiration == map[]
      ensures Snapshot() == Empty() && KeysAgree(Snapshot())
    {
      data := map[];
      expiration := map[];
    }

    /** Set(key, value, ttl) at time now. */
    method Set(key: string, value: V, ttl: int, now: int)
      modifies this
      ensures data == old(data)[key := value]
      ensures expiration == old(expiration)[key := now + ttl]
      ensures Snapshot() == ApplySet(old(Snapshot()), key, value, ttl, now)
      ensures old(KeysAgree(Snapshot())) ==> KeysAgree(Snapshot())
    {
      data := data[key := value];
      expiration := expiration[key := now + ttl];
    }

    /** Get(key) at time now; None stands for Go's (nil, false). */
    method Get(key: string, now: int) returns (value: Option<V>)
      modifies this
      ensures (Snapshot(), value) == ApplyGet(old(Snapshot()), key, now)
      ensures old(KeysAgree(Snapshot())) ==> KeysAgree(Snapshot())
    {
      if key !in data {
        return None;
      }
      if key !in expiration || now > expiration[key] {
        data := data - {key};
        expiration := expiration - {key};
        return None;
      }
      value := Some(data[key]);
    }
  }
}
