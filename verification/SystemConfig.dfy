/**
 The configuration table and the cache in front of it (src/system_config.rs).  The process runs two
 instances of the service over one table (src/main.rs), each with its own cache.
 */
module SystemConfig {
  import opened Common

  type Table = map<string, string>

  datatype CacheEntry = CacheEntry(value: string, expiresAt: int)

  type Cache = map<string, CacheEntry>

  datatype Item = Item(key: string, value: string)

  /** The row of the table, else the environment variable of the same name. */
  function Backing(table: Table, env: Table, key: string): Option<string> {
    if key in table then Some(table[key]) else if key in env then Some(env[key]) else None
  }

  /** An entry serves up to and including the instant it expires. */
  function Hit(cache: Cache, key: string, now: int): Option<string> {
    if key in cache && now <= cache[key].expiresAt then Some(cache[key].value) else None
  }

  function Evicted(cache: Cache, key: string, now: int): Cache {
    if key in cache && now > cache[key].expiresAt then cache - {key} else cache
  }

  /** Only a value that exists is cached. */
  function Cached(cache: Cache, key: string, value: Option<string>, expiresAt: int): Cache {
    if value.Some? then cache[key := CacheEntry(value.value, expiresAt)] else cache
  }

  function Upserted(table: Table, items: seq<Item>): Table {
    if items == [] then table
    else
      var n := |items| - 1;
      Upserted(table, items[..n])[items[n].key := items[n].value]
  }

  function Keys(items: seq<Item>): set<string> {
    set i | i in items :: i.key
  }

  /** The last value written for a key. */
  function LastValue(items: seq<Item>, key: string): Option<string> {
    if items == [] then None
    else
      var n := |items| - 1;
      if items[n].key == key then Some(items[n].value) else LastValue(items[..n], key)
  }

  /** After the upserts a key holds the last value written for it, or what it held before. */
  lemma {:induction false} UpsertedHoldsLast(table: Table, items: seq<Item>, key: string)
    ensures var v := LastValue(items, key);
            && (v.Some? <==> key in Keys(items))
            && (v.Some? ==> key in Upserted(table, items) && Upserted(table, items)[key] == v.value)
            && (v.None? ==> (key in Upserted(table, items) <==> key in table))
            && (v.None? && key in table ==> Upserted(table, items)[key] == table[key])
  {
    if items != [] {
      var n := |items| - 1;
      UpsertedHoldsLast(table, items[..n], key);
      assert items == items[..n] + [items[n]];
      assert Keys(items) == Keys(items[..n]) + {items[n].key};
    }
  }

  ghost predicate CoherentWith(cache: Cache, table: Table, env: Table) {
    forall k :: k in cache ==> Backing(table, env, k) == Some(cache[k].value)
  }

  /** Dropping the written keys keeps the cache coherent with the table written. */
  lemma UpsertsKeepCoherent(cache: Cache, table: Table, env: Table, items: seq<Item>)
    requires CoherentWith(cache, table, env)
    ensures CoherentWith(cache - Keys(items), Upserted(table, items), env)
  {
    forall k | k in cache - Keys(items) ensures Backing(Upserted(table, items), env, k) == Some(cache[k].value) {
      UpsertedHoldsLast(table, items, k);
    }
  }

  // ---- one instance, used sequentially ----

  class Database {
    var table: Table

    constructor ()
      ensures table == map[]
    {
      table := map[];
    }
  }

  class SystemConfigService {
    const db: Database
    const env: Table
    const ttl: nat
    var cache: Cache

    constructor (db: Database, env: Table, ttl: nat)
      ensures this.db == db && this.env == env && this.ttl == ttl && cache == map[]
    {
      this.db, this.env, this.ttl := db, env, ttl;
      cache := map[];
    }

    /** Every cached value is what the table or the environment holds. */
    ghost predicate Coherent()
      reads this, db
    {
      CoherentWith(cache, db.table, env)
    }

    method GetCached(key: string, now: int) returns (value: Option<string>)
      modifies this`cache
      ensures value == Hit(old(cache), key, now) && cache == Evicted(old(cache), key, now)
      ensures var live := key in old(cache) && now <= old(cache)[key].expiresAt;
              && value == (if live then Some(old(cache)[key].value) else None)
              && cache == if live then old(cache) else old(cache) - {key}
    {
      if key !in cache {
        return None;
      }
      var entry := cache[key];
      if now > entry.expiresAt {
        cache := cache - {key};
        return None;
      }
      value := Some(entry.value);
    }

    method SetCached(key: string, value: string, now: int)
      modifies this`cache
      ensures cache == old(cache)[key := CacheEntry(value, now + ttl)]
    {
      cache := cache[key := CacheEntry(value, now + ttl)];
    }

    /** A live entry answers; otherwise the table does, and its answer is kept for `ttl`. */
    method Get(key: string, now: int) returns (value: Option<string>)
      modifies this`cache
      ensures Hit(old(cache), key, now).Some? ==> value == Hit(old(cache), key, now) && cache == old(cache)
      ensures Hit(old(cache), key, now).None? ==>
                && value == Backing(db.table, env, key)
                && cache == Cached(Evicted(old(cache), key, now), key, value, now + ttl)
      ensures key in old(cache) && now <= old(cache)[key].expiresAt ==> value == Some(old(cache)[key].value)
      ensures !(key in old(cache) && now <= old(cache)[key].expiresAt) ==>
                && (key in db.table ==> value == Some(db.table[key]))
                && (key !in db.table && key in env ==> value == Some(env[key]))
                && (key !in db.table && key !in env ==> value == None && key !in cache)
                && (value.Some? ==> key in cache && cache[key] == CacheEntry(value.value, now + ttl))
                && cache - {key} == old(cache) - {key}
      ensures old(Coherent()) ==> Coherent() && value == Backing(db.table, env, key)
    {
      value := GetCached(key, now);
      if value.Some? {
        return;
      }
      if key in db.table {
        value := Some(db.table[key]);
        SetCached(key, value.value, now);
      } else if key in env {
        value := Some(env[key]);
        SetCached(key, value.value, now);
      }
    }

    method Invalidate(key: Option<string>)
      modifies this`cache
      ensures cache == if key.Some? then old(cache) - {key.value} else map[]
      ensures old(Coherent()) ==> Coherent()
    {
      if key.Some? {
        cache := cache - {key.value};
      } else {
        cache := map[];
      }
    }

    method SetMany(items: seq<Item>)
      modifies this`cache, db`table
      ensures db.table == Upserted(old(db.table), items)
      ensures cache == old(cache) - Keys(items)
      ensures old(Coherent()) ==> Coherent()
    {
      if Coherent() {
        UpsertsKeepCoherent(cache, db.table, env, items);
      }
      hide CoherentWith;
      var tx := db.table;
      var i := 0;
      while i < |items|
        invariant 0 <= i <= |items| && tx == Upserted(old(db.table), items[..i])
        invariant cache == old(cache) && db.table == old(db.table)
      {
        tx := tx[items[i].key := items[i].value];
        assert items[..i + 1][..i] == items[..i];
        i := i + 1;
      }
      assert items[..i] == items;
      db.table := tx;
      InvalidateAll(items);
    }

    /** The second loop of set_many. */
    method InvalidateAll(items: seq<Item>)
      modifies this`cache
      ensures cache == old(cache) - Keys(items)
    {
      hide CoherentWith;
      var i := 0;
      assert cache == old(cache) - Keys(items[..0]);
      while i < |items|
        invariant 0 <= i <= |items|
        invariant cache == old(cache) - Keys(items[..i])
      {
        Invalidate(Some(items[i].key));
        assert items[..i + 1] == items[..i] + [items[i]];
        assert Keys(items[..i + 1]) == Keys(items[..i]) + {items[i].key};
        i := i + 1;
      }
      assert items[..i] == items;
    }

    /**
     On one instance used sequentially a write is seen at once and from then on: after `items` and any later
     writes that leave the key alone, a get returns the last value written for it.
     */
    method SetManyThenGet(items: seq<Item>, later: seq<Item>, key: string, now: int) returns (value: Option<string>)
      requires Coherent() && key in Keys(items) && key !in Keys(later)
      modifies this`cache, db`table
      ensures value.Some? && value == LastValue(items, key)
    {
      UpsertedHoldsLast(db.table, items, key);
      SetMany(items);
      UpsertedHoldsLast(db.table, later, key);
      SetMany(later);
      value := Get(key, now);
    }
  }
}
