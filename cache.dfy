/** `AntiDeleteSystem`: the message cache, a map from message id to entry, with
    its on/off flag and its mirror on disk.

    The disk file is modelled by the field `saved`, the last snapshot of the map
    that was written. `saveDatabase` swallows write errors, so every save takes
    an outcome `ok` from the environment and leaves `saved` unchanged when the
    write fails. The pure transitions `Put`, `Remove` and `Sweep` on a
    `CacheState` say what each store operation does; the class methods are
    proved to perform them. */
module Cache {
  import opened JsValues
  import opened Messages

  /** `cacheExpiry`: five minutes, in milliseconds. */
  const CacheExpiry: int := 5 * 60 * 1000

  type Store = map<string, Entry>

  /** The cache map together with the snapshot last written to disk. */
  datatype CacheState = CacheState(cache: Store, saved: Store)

  /** `a` is `b` restricted to some of its keys. */
  predicate IsSubMap(a: Store, b: Store)
  {
    forall k :: k in a ==> k in b && a[k] == b[k]
  }

  /** An entry survives a sweep at time `now` unless
      `now - timestamp > cacheExpiry`. */
  predicate Fresh(e: Entry, now: int)
  {
    now - e.timestamp <= CacheExpiry
  }

  /** The snapshot after `saveDatabase`: the map when the write succeeds, the
      previous snapshot when it fails. */
  function AfterSave(cache: Store, saved: Store, ok: bool): Store
  {
    if ok then cache else saved
  }

  /** `addMessage(k, e)`: insert or overwrite, then save. */
  function Put(st: CacheState, k: string, e: Entry, ok: bool): (r: CacheState)
    ensures k in r.cache && r.cache[k] == e
    ensures forall j :: j != k ==> (j in r.cache <==> j in st.cache)
    ensures forall j :: j != k && j in st.cache ==> r.cache[j] == st.cache[j]
    ensures |r.cache| == |st.cache| + (if k in st.cache then 0 else 1)
    ensures r.saved == AfterSave(r.cache, st.saved, ok)
  {
    var m := st.cache[k := e];
    assert k in st.cache ==> m.Keys == st.cache.Keys;
    assert k !in st.cache ==> m.Keys == st.cache.Keys + {k};
    CacheState(m, AfterSave(m, st.saved, ok))
  }

  /** `deleteMessage(k)`: remove `k` and save, only when `k` is present. */
  function Remove(st: CacheState, k: string, ok: bool): (r: CacheState)
    ensures k !in r.cache
    ensures IsSubMap(r.cache, st.cache)
    ensures forall j :: j != k && j in st.cache ==> j in r.cache
    ensures |r.cache| == |st.cache| - (if k in st.cache then 1 else 0)
    ensures k !in st.cache ==> r == st
    ensures k in st.cache ==> r.saved == AfterSave(r.cache, st.saved, ok)
  {
    if k in st.cache then
      var m := st.cache - {k};
      assert m.Keys == st.cache.Keys - {k};
      CacheState(m, AfterSave(m, st.saved, ok))
    else st
  }

  /** The entries of `m` that are still fresh at `now`. */
  function Unexpired(m: Store, now: int): (r: Store)
    ensures IsSubMap(r, m)
    ensures forall k :: k in r ==> Fresh(r[k], now)
    ensures forall k :: k in m && Fresh(m[k], now) ==> k in r
  {
    map k | k in m && Fresh(m[k], now) :: m[k]
  }

  /** `cleanExpiredMessages()` at time `now`: drop the expired entries, then
      save once. */
  function Sweep(st: CacheState, now: int, ok: bool): (r: CacheState)
    ensures IsSubMap(r.cache, st.cache)
    ensures forall k :: k in r.cache ==> Fresh(r.cache[k], now)
    ensures forall k :: k in st.cache && Fresh(st.cache[k], now) ==> k in r.cache
    ensures r.saved == AfterSave(r.cache, st.saved, ok)
  {
    var m := Unexpired(st.cache, now);
    CacheState(m, AfterSave(m, st.saved, ok))
  }

  /** A second sweep at the same instant finds nothing left to drop. */
  lemma SweepIdempotent(st: CacheState, now: int, ok: bool, ok': bool)
    ensures Sweep(Sweep(st, now, ok), now, ok').cache == Sweep(st, now, ok).cache
  {
  }

  /** An entry exactly `cacheExpiry` old is kept; one a millisecond older is
      dropped. */
  lemma SweepBoundary(st: CacheState, k: string, now: int, ok: bool)
    requires k in st.cache
    ensures st.cache[k].timestamp == now - CacheExpiry ==> k in Sweep(st, now, ok).cache
    ensures st.cache[k].timestamp == now - CacheExpiry - 1 ==> k !in Sweep(st, now, ok).cache
  {
  }

  class AntiDeleteSystem {
    var enabled: bool
    const cacheExpiry: int := CacheExpiry
    var messageCache: Store
    /** What the database file last received. */
    var saved: Store

    function State(): CacheState
      reads this
    {
      CacheState(messageCache, saved)
    }

    /** `new AntiDeleteSystem()`: `antiDelete` is `config.ANTI_DELETE`, `disk`
        the map that `loadDatabase` parsed from the file, or `None` when the
        file is missing or unreadable (the cache then starts empty). */
    constructor (antiDelete: bool, disk: Option<Store>)
      ensures enabled == antiDelete
      ensures messageCache == (if disk.Some? then disk.value else map[])
      ensures saved == messageCache
    {
      enabled := antiDelete;
      messageCache := if disk.Some? then disk.value else map[];
      saved := if disk.Some? then disk.value else map[];
    }

    /** `saveDatabase()`; `ok` tells whether the write succeeded. */
    method SaveDatabase(ok: bool)
      modifies this`saved
      ensures saved == AfterSave(messageCache, old(saved), ok)
    {
      if ok {
        saved := messageCache;
      }
    }

    /** `addMessage(key, message)`. */
    method AddMessage(key: string, message: Entry, saveOk: bool)
      modifies this
      ensures State() == Put(old(State()), key, message, saveOk)
      ensures enabled == old(enabled)
    {
      messageCache := messageCache[key := message];
      SaveDatabase(saveOk);
    }

    /** `deleteMessage(key)`: saves only when the key was present. */
    method DeleteMessage(key: string, saveOk: bool)
      modifies this
      ensures State() == Remove(old(State()), key, saveOk)
      ensures enabled == old(enabled)
    {
      if key in messageCache {
        messageCache := messageCache - {key};
        SaveDatabase(saveOk);
      }
    }

    /** `cleanExpiredMessages()`, with `Date.now()` passed as `now`. The loop
        visits every entry once and deletes the current one when it is
        expired; the order of the visit does not change the result. */
    method CleanExpiredMessages(now: int, saveOk: bool)
      modifies this
      ensures State() == Sweep(old(State()), now, saveOk)
      ensures enabled == old(enabled)
    {
      ghost var before := messageCache;
      var pending := messageCache.Keys;
      while pending != {}
        invariant pending <= before.Keys
        invariant messageCache == map k | k in before && (k in pending || Fresh(before[k], now)) :: before[k]
        invariant saved == old(saved) && enabled == old(enabled)
        decreases pending
      {
        var key :| key in pending;
        if now - messageCache[key].timestamp > cacheExpiry {
          messageCache := messageCache - {key};
        }
        pending := pending - {key};
      }
      assert messageCache == Unexpired(before, now);
      SaveDatabase(saveOk);
    }

    /** `destroy()`: stopping the timer is left out; what remains is a save. */
    method Destroy(saveOk: bool)
      modifies this`saved
      ensures saved == AfterSave(messageCache, old(saved), saveOk)
    {
      SaveDatabase(saveOk);
    }
  }
}
