/** The two-level cache of workers/src/services/cacheService.ts: a memory
    map of entries with an expiry time in front of an optional KV store.
    The KV store is an abstract map from full key to data; its own expiry is
    not part of this model. "now" is a parameter in milliseconds, and
    `ttl` values are seconds. */
module CacheService {
  import opened Wrappers
  import opened Strings

  const DEFAULT_TTL: int := 3600
  const DEFAULT_PREFIX: string := "qa"

  datatype Entry<D> = Entry(data: D, expires: int)

  /** `ttl || fallback`: an absent or zero TTL falls back. */
  function TtlOr(ttl: Option<int>, fallback: int): (t: int)
    ensures t == fallback <==> ttl.None? || ttl.value == 0 || ttl.value == fallback
    ensures ttl.Some? && ttl.value != 0 ==> t == ttl.value
  {
    if ttl.Some? && ttl.value != 0 then ttl.value else fallback
  }

  /** `options.prefix || 'qa'` */
  function PrefixOr(prefix: Option<string>): (p: string)
    ensures Truthy(prefix) ==> p == prefix.value
    ensures !Truthy(prefix) ==> p == DEFAULT_PREFIX
    ensures p != ""
  {
    if Truthy(prefix) then prefix.value else DEFAULT_PREFIX
  }

  /** `${prefix}:${key}` */
  function FullKey(prefix: string, key: string): (k: string)
    ensures StartsWith(k, prefix + ":") && |k| == |prefix| + 1 + |key|
  {
    prefix + ":" + key
  }

  /** Keys under one prefix never collide: the full key determines the key. */
  lemma FullKeyInjective(prefix: string, k1: string, k2: string)
    requires FullKey(prefix, k1) == FullKey(prefix, k2)
    ensures k1 == k2
  {
    assert k1 == FullKey(prefix, k1)[|prefix| + 1..];
    assert k2 == FullKey(prefix, k2)[|prefix| + 1..];
  }

  /** An entry is served from memory only while it has not expired. */
  predicate Live<D>(memory: map<string, Entry<D>>, fullKey: string, now: int) {
    fullKey in memory && memory[fullKey].expires > now
  }

  /** The answer of `get`: live memory first, then the KV store, whose value
      counts only when it is truthy (`if (cached)`): a falsy stored value
      such as 0, "" or false is a miss. `truthy` is JS truthiness on `D`. */
  function CacheLookup<D>(memory: map<string, Entry<D>>, kv: Option<map<string, D>>, truthy: D -> bool,
                          fullKey: string, now: int): (r: Option<D>)
    ensures Live(memory, fullKey, now) ==> r == Some(memory[fullKey].data)
    ensures !Live(memory, fullKey, now) && kv.None? ==> r.None?
    ensures r.None? <==> !Live(memory, fullKey, now) &&
                         (kv.None? || fullKey !in kv.value || !truthy(kv.value[fullKey]))
    ensures !Live(memory, fullKey, now) && r.Some? ==>
              kv.Some? && fullKey in kv.value && r.value == kv.value[fullKey] && truthy(r.value)
  {
    if Live(memory, fullKey, now) then Some(memory[fullKey].data)
    else if kv.Some? && fullKey in kv.value && truthy(kv.value[fullKey]) then Some(kv.value[fullKey])
    else None
  }

  /** Expiry time `set` records. */
  function ExpiresAt(now: int, ttl: Option<int>, defaultTTL: int): int {
    now + TtlOr(ttl, defaultTTL) * 1000
  }

  /** What `set` stored is served back until it expires, and nothing after
      that when there is no KV store behind it. */
  lemma SetThenLookup<D>(memory: map<string, Entry<D>>, kv: Option<map<string, D>>, truthy: D -> bool,
                         fullKey: string, data: D,
                         now: int, ttl: Option<int>, defaultTTL: int, later: int)
    ensures later < ExpiresAt(now, ttl, defaultTTL) ==>
              CacheLookup(memory[fullKey := Entry(data, ExpiresAt(now, ttl, defaultTTL))],
                          if kv.Some? then Some(kv.value[fullKey := data]) else None, truthy, fullKey, later) == Some(data)
    ensures kv.None? && later >= ExpiresAt(now, ttl, defaultTTL) ==>
              CacheLookup(memory[fullKey := Entry(data, ExpiresAt(now, ttl, defaultTTL))], kv, truthy, fullKey, later).None?
  {
  }

  class Cache<D> {
    var kv: Option<map<string, D>>
    var memory: map<string, Entry<D>>
    var defaultTTL: int
    const prefix: string
    /** JS truthiness of a stored value, which `get` tests on a KV hit. */
    const truthy: D -> bool

    /** Defaults: TTL 3600 seconds, prefix "qa". */
    constructor (kvStore: Option<map<string, D>>, ttl: Option<int>, keyPrefix: Option<string>, isTruthy: D -> bool)
      ensures kv == kvStore && memory == map[] && truthy == isTruthy
      ensures defaultTTL == TtlOr(ttl, DEFAULT_TTL) && prefix == PrefixOr(keyPrefix)
    {
      truthy := isTruthy;
      kv := kvStore;
      memory := map[];
      defaultTTL := TtlOr(ttl, DEFAULT_TTL);
      prefix := PrefixOr(keyPrefix);
    }

    /** `get`: live memory wins; otherwise a truthy KV hit is copied into
        memory for the default TTL and returned; otherwise nothing. A falsy
        KV value and an expired memory entry are left in place. */
    method Get(key: string, now: int) returns (r: Option<D>)
      modifies this
      ensures r == CacheLookup(old(memory), kv, truthy, FullKey(prefix, key), now)
      ensures kv == old(kv) && defaultTTL == old(defaultTTL)
      ensures !Live(old(memory), FullKey(prefix, key), now) && r.Some? ==>
                memory == old(memory)[FullKey(prefix, key) := Entry(r.value, now + defaultTTL * 1000)]
      ensures Live(old(memory), FullKey(prefix, key), now) || r.None? ==> memory == old(memory)
    {
      var fullKey := FullKey(prefix, key);
      if fullKey in memory && memory[fullKey].expires > now {
        return Some(memory[fullKey].data);
      }
      if kv.Some? && fullKey in kv.value && truthy(kv.value[fullKey]) {
        var cached := kv.value[fullKey];
        memory := memory[fullKey := Entry(cached, now + defaultTTL * 1000)];
        return Some(cached);
      }
      r := None;
    }

    /** `set`: the entry expires `ttl || defaultTTL` seconds from now; the KV
        store, if any, takes the data too. */
    method Set(key: string, data: D, ttl: Option<int>, now: int)
      modifies this
      ensures memory == old(memory)[FullKey(prefix, key) := Entry(data, ExpiresAt(now, ttl, defaultTTL))]
      ensures kv == if old(kv).Some? then Some(old(kv).value[FullKey(prefix, key) := data]) else None
      ensures defaultTTL == old(defaultTTL)
    {
      var fullKey := FullKey(prefix, key);
      var expires := now + TtlOr(ttl, defaultTTL) * 1000;
      memory := memory[fullKey := Entry(data, expires)];
      if kv.Some? {
        kv := Some(kv.value[fullKey := data]);
      }
    }

    /** `delete`: the key leaves memory and the KV store. */
    method Delete(key: string)
      modifies this
      ensures memory == old(memory) - {FullKey(prefix, key)}
      ensures kv == if old(kv).Some? then Some(old(kv).value - {FullKey(prefix, key)}) else None
      ensures defaultTTL == old(defaultTTL)
    {
      var fullKey := FullKey(prefix, key);
      memory := memory - {fullKey};
      if kv.Some? {
        kv := Some(kv.value - {fullKey});
      }
    }

    /** `clear`: empties memory only; the KV store is untouched. */
    method Clear()
      modifies this
      ensures memory == map[] && kv == old(kv) && defaultTTL == old(defaultTTL)
    {
      memory := map[];
    }

    /** `setTTL`: later sets use the new TTL; stored entries keep their expiry. */
    method SetTTL(ttl: int)
      modifies this
      ensures defaultTTL == ttl && memory == old(memory) && kv == old(kv)
    {
      defaultTTL := ttl;
    }
  }

  /** After a delete nothing is found under the key, in memory or in the KV store. */
  lemma DeleteThenLookup<D>(memory: map<string, Entry<D>>, kv: Option<map<string, D>>, truthy: D -> bool,
                            fullKey: string, now: int)
    ensures CacheLookup(memory - {fullKey}, if kv.Some? then Some(kv.value - {fullKey}) else None, truthy, fullKey, now).None?
  {
  }
}
