/**
 * The data layer's in-memory TTL cache (`_cache`, `cacheGet`, `cacheSet`,
 * `clearCache`, `cacheStats` in frontend/src/utils/mlbApi.js).  `Date.now()`
 * becomes the explicit parameter `now` (milliseconds).
 */
module TtlCache {
  import opened Wrappers

  const MINUTE: nat := 60000
  const HOUR: nat := 3600000

  /** Above this many entries, `cacheSet` sweeps out the expired ones. */
  const HIGH_WATER: nat := 2000

  /** The categories of the `TTL` table. */
  datatype Category =
    | Schedule | Roster | GameLog | Season | Splits | BvP
    | Pitcher | BoxScore | LiveFeed | Statcast | Search

  /** Lifetime of a cached value of category `c`, in milliseconds. */
  function Ttl(c: Category): (ms: nat)
    ensures 2 * MINUTE <= ms <= 24 * HOUR
  {
    match c
    case Schedule => 5 * MINUTE
    case Roster => 6 * HOUR
    case GameLog => 60 * MINUTE
    case Season => 3 * HOUR
    case Splits => 3 * HOUR
    case BvP => 24 * HOUR
    case Pitcher => 60 * MINUTE
    case BoxScore => 2 * MINUTE
    case LiveFeed => 2 * MINUTE
    case Statcast => 6 * HOUR
    case Search => 60 * MINUTE
  }

  /** A cached value and the instant after which it is stale. */
  datatype Entry<V> = Entry(data: V, exp: int)

  /** The entries of `m` that are still valid at `now` (`now <= exp`). */
  function LiveOnly<V>(m: map<string, Entry<V>>, now: int): (r: map<string, Entry<V>>)
    ensures forall k :: k in r <==> k in m && now <= m[k].exp
    ensures forall k :: k in r ==> r[k] == m[k]
  {
    map k | k in m && now <= m[k].exp :: m[k]
  }

  /** What `cacheSet` leaves behind: the write, then the sweep if the map grew too large. */
  function AfterSet<V>(m: map<string, Entry<V>>, key: string, data: V, ttl: int, now: int): map<string, Entry<V>> {
    var written := m[key := Entry(data, now + ttl)];
    if |written| > HIGH_WATER then LiveOnly(written, now) else written
  }

  class Cache<V> {
    var entries: map<string, Entry<V>>

    constructor ()
      ensures entries == map[]
    {
      entries := map[];
    }

    /** Keys whose entry is valid at `now`. */
    function LiveKeys(now: int): set<string>
      reads this
    {
      set k | k in entries && now <= entries[k].exp
    }

    /** Keys whose entry has expired at `now`. */
    function ExpiredKeys(now: int): set<string>
      reads this
    {
      set k | k in entries && now > entries[k].exp
    }

    /**
     * `cacheGet`: the stored data while `now <= exp`; once `now > exp` the
     * key reports absent and is deleted.  No other key is touched.
     */
    method Get(key: string, now: int) returns (r: Option<V>)
      modifies this
      ensures key in old(entries) && now <= old(entries)[key].exp ==>
                r == Some(old(entries)[key].data) && entries == old(entries)
      ensures key in old(entries) && now > old(entries)[key].exp ==>
                r == None && entries == old(entries) - {key}
      ensures key !in old(entries) ==> r == None && entries == old(entries)
    {
      if key !in entries {
        return None;
      }
      var entry := entries[key];
      if now > entry.exp {
        entries := entries - {key};
        return None;
      }
      r := Some(entry.data);
    }

    /**
     * `cacheSet`: overwrite `key` with expiry `now + ttl`; when the map then
     * holds more than `HIGH_WATER` entries, delete every expired entry.
     */
    method Set(key: string, data: V, ttl: int, now: int)
      modifies this
      ensures entries == AfterSet(old(entries), key, data, ttl, now)
    {
      entries := entries[key := Entry(data, now + ttl)];
      if |entries| > HIGH_WATER {
        ghost var written := entries;
        var todo := entries.Keys;
        while todo != {}
          invariant todo <= written.Keys
          invariant forall k :: k in entries <==> k in written && (k in todo || now <= written[k].exp)
          invariant forall k :: k in entries ==> entries[k] == written[k]
          decreases |todo|
        {
          var k :| k in todo;
          if now > entries[k].exp {
            entries := entries - {k};
          }
          todo := todo - {k};
        }
        assert entries == LiveOnly(written, now);
      }
    }

    /** `clearCache`. */
    method Clear()
      modifies this
      ensures entries == map[]
    {
      entries := map[];
    }

    /**
     * `cacheStats`: `total` entries, of which `valid` have `now <= exp` and
     * `expired` the rest.
     */
    method Stats(now: int) returns (total: nat, valid: nat, expired: nat)
      ensures total == |entries|
      ensures valid == |LiveKeys(now)| && expired == |ExpiredKeys(now)|
      ensures valid + expired == total
    {
      valid, expired := 0, 0;
      var todo := entries.Keys;
      ghost var done: set<string> := {};
      while todo != {}
        invariant todo + done == entries.Keys && todo !! done
        invariant valid == |LiveIn(entries, done, now)|
        invariant expired == |DeadIn(entries, done, now)|
        invariant valid + expired == |done|
        decreases |todo|
      {
        var k :| k in todo;
        CountStep(entries, done, k, now);
        if now <= entries[k].exp {
          valid := valid + 1;
        } else {
          expired := expired + 1;
        }
        done := done + {k};
        todo := todo - {k};
      }
      assert LiveIn(entries, done, now) == LiveKeys(now);
      assert DeadIn(entries, done, now) == ExpiredKeys(now);
      total := |entries|;
      assert |entries| == |entries.Keys|;
    }
  }

  /** The keys of `done` whose entry in `m` is valid at `now`. */
  ghost function LiveIn<V>(m: map<string, Entry<V>>, done: set<string>, now: int): set<string> {
    set k | k in done && k in m && now <= m[k].exp
  }

  /** The keys of `done` whose entry in `m` has expired at `now`. */
  ghost function DeadIn<V>(m: map<string, Entry<V>>, done: set<string>, now: int): set<string> {
    set k | k in done && k in m && now > m[k].exp
  }

  /** Counting one more key adds it to exactly one of the two tallies. */
  lemma CountStep<V>(m: map<string, Entry<V>>, done: set<string>, k: string, now: int)
    requires k in m && k !in done
    ensures now <= m[k].exp ==>
              LiveIn(m, done + {k}, now) == LiveIn(m, done, now) + {k} &&
              DeadIn(m, done + {k}, now) == DeadIn(m, done, now)
    ensures now > m[k].exp ==>
              LiveIn(m, done + {k}, now) == LiveIn(m, done, now) &&
              DeadIn(m, done + {k}, now) == DeadIn(m, done, now) + {k}
    ensures k !in LiveIn(m, done, now) && k !in DeadIn(m, done, now)
    ensures done <= m.Keys ==> |LiveIn(m, done, now)| + |DeadIn(m, done, now)| == |done|
  {
    if done <= m.Keys {
      LiveDeadSplit(m, done, now);
    }
  }

  lemma {:induction false} LiveDeadSplit<V>(m: map<string, Entry<V>>, done: set<string>, now: int)
    requires done <= m.Keys
    ensures |LiveIn(m, done, now)| + |DeadIn(m, done, now)| == |done|
  {
    assert LiveIn(m, done, now) + DeadIn(m, done, now) == done;
    assert LiveIn(m, done, now) !! DeadIn(m, done, now);
  }

  /** The sweep deletes exactly the expired entries: every live entry survives. */
  lemma SweepKeepsLive<V>(m: map<string, Entry<V>>, key: string, data: V, ttl: int, now: int, k: string)
    requires k in m && k != key && now <= m[k].exp
    ensures k in AfterSet(m, key, data, ttl, now)
    ensures AfterSet(m, key, data, ttl, now)[k] == m[k]
  {
  }

  /** Below the high-water mark a write touches only its own key. */
  lemma {:induction false} NoSweepBelowHighWater<V>(m: map<string, Entry<V>>, key: string, data: V, ttl: int, now: int)
    requires |m| < HIGH_WATER
    ensures AfterSet(m, key, data, ttl, now) == m[key := Entry(data, now + ttl)]
  {
    var written := m[key := Entry(data, now + ttl)];
    assert written.Keys == m.Keys + {key};
    assert |written.Keys| <= |m.Keys| + 1;
  }

  /**
   * A value just written with a non-negative lifetime is readable at the same
   * instant, whether or not the write triggered a sweep; the other surviving
   * keys keep their entries.
   */
  lemma SetThenGet<V>(m: map<string, Entry<V>>, key: string, data: V, ttl: int, now: int)
    requires ttl >= 0
    ensures key in AfterSet(m, key, data, ttl, now)
    ensures AfterSet(m, key, data, ttl, now)[key] == Entry(data, now + ttl)
    ensures now <= AfterSet(m, key, data, ttl, now)[key].exp
  {
  }

  /** What a sweep leaves holds no expired entry. */
  lemma SweepLeavesNoExpired<V>(m: map<string, Entry<V>>, key: string, data: V, ttl: int, now: int, k: string)
    requires |m[key := Entry(data, now + ttl)]| > HIGH_WATER
    requires k in AfterSet(m, key, data, ttl, now)
    ensures now <= AfterSet(m, key, data, ttl, now)[k].exp
  {
  }
}
