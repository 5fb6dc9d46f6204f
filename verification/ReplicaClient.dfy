/** replica/client.go in place: the replica applies each message of its leader to the sheets of its own manager. */
module ReplicaClient {
  import opened Prelude
  import Lru
  import Server
  import CacheStore
  import Replication
  import opened SheetStore

  const CAPACITY := CacheStore.DEFAULT_CAPACITY

  class Client {
    const manager: Manager
    const cacheTtl: int

    constructor (manager: Manager, cacheTtl: int)
      ensures this.manager == manager && this.cacheTtl == cacheTtl
    {
      this.manager, this.cacheTtl := manager, cacheTtl;
    }

    /** The caches the replica holds, by sheet id. */
    ghost function Caches(): Replication.Sheets
      reads manager, manager.Objects()
    {
      map id | id in manager.sheets :: manager.sheets[id].cache
    }

    /** GetSheet, or a new replica sheet: either way the cache that CacheOf speaks of. */
    method SheetFor(id: string) returns (s: Sheet)
      requires manager.Valid()
      modifies manager
      ensures manager.Valid() && s.id == id && id in manager.sheets && manager.sheets[id] == s
      ensures s in old(manager.Objects()) || fresh(s)
      ensures s.cache == Replication.CacheOf(CAPACITY, old(Caches()), id)
      ensures Caches() == old(Caches())[id := s.cache]
      ensures fresh(manager.Objects() - old(manager.Objects()))
    {
      var existing := manager.GetSheet(id);
      if existing == null {
        s := new Sheet.Replica(id);
        manager.AddSheet(s);
      } else {
        s := existing;
      }
    }

    /** Sets every pair, in whatever order the map yields them. */
    method LoadAll(s: Sheet, data: map<string, Json>, now: int)
      modifies s`cache
      ensures Replication.Loads(data, old(s.cache), s.cache)
      ensures ExpireAt(s.cache, data.Keys, now + cacheTtl)
    {
      var todo := data.Keys;
      while todo != {}
        invariant todo <= data.Keys
        invariant LoadedSheet(data - todo, old(s.cache), s.cache, now + cacheTtl)
      {
        var key :| key in todo;
        ghost var before := s.cache;
        var evicted := s.Set(key, data[key], now, cacheTtl);
        OneMoreLoaded(data - todo, old(s.cache), before, key, data[key], now + cacheTtl);
        assert (data - todo)[key := data[key]] == data - (todo - {key});
        todo := todo - {key};
      }
      assert data - {} == data;
    }

    method ApplyFullState(sheets: map<string, map<string, Json>>, now: int)
      requires manager.Valid()
      modifies manager, manager.Objects()
      ensures manager.Valid() && fresh(manager.Objects() - old(manager.Objects()))
      ensures Replication.Applies(CAPACITY, Server.FullState(sheets), old(Caches()), Caches())
      ensures forall id :: id in sheets ==> id in Caches() && ExpireAt(Caches()[id], sheets[id].Keys, now + cacheTtl)
    {
      var todo := sheets.Keys;
      while todo != {}
        invariant todo <= sheets.Keys && manager.Valid()
        invariant fresh(manager.Objects() - old(manager.Objects()))
        invariant Loaded(sheets, sheets.Keys - todo, old(Caches()), Caches(), now + cacheTtl)
      {
        var id :| id in todo;
        todo := todo - {id};
        ApplySheet(id, sheets[id], now);
      }
    }

    method ApplySheet(id: string, data: map<string, Json>, now: int)
      requires manager.Valid()
      modifies manager, manager.Objects()
      ensures manager.Valid() && fresh(manager.Objects() - old(manager.Objects()))
      ensures id in Caches() && Caches() == old(Caches())[id := Caches()[id]]
      ensures Replication.Loads(data, Replication.CacheOf(CAPACITY, old(Caches()), id), Caches()[id])
      ensures ExpireAt(Caches()[id], data.Keys, now + cacheTtl)
    {
      var s := SheetFor(id);
      LoadAll(s, data, now);
      assert forall i :: i in manager.sheets && i != id ==> manager.sheets[i] != s;
    }

    method SetIn(id: string, key: string, value: Json, now: int, ttl: int)
      requires manager.Valid()
      modifies manager, manager.Objects()
      ensures manager.Valid() && fresh(manager.Objects() - old(manager.Objects()))
      ensures var before := Replication.CacheOf(CAPACITY, old(Caches()), id);
              Caches() == old(Caches())[id := Lru.Set(before, key, value, now + ttl).state]
    {
      var s := SheetFor(id);
      ghost var before := Caches();
      var evicted := s.Set(key, value, now, ttl);
      assert forall i :: i in manager.sheets && i != id ==> manager.sheets[i] != s;
      assert Caches() == before[id := s.cache];
    }

    method ApplySet(id: string, key: string, value: Json, jitter: bool, now: int, drawn: int)
      requires manager.Valid()
      modifies manager, manager.Objects()
      ensures manager.Valid() && fresh(manager.Objects() - old(manager.Objects()))
      ensures Replication.Applies(CAPACITY, Server.Replicate(id, key, value, jitter), old(Caches()), Caches())
      ensures var before := Replication.CacheOf(CAPACITY, old(Caches()), id);
              Caches() == old(Caches())[id := Lru.Set(before, key, value,
                                                      now + cacheTtl + if jitter then drawn else 0).state]
    {
      if jitter {
        SetIn(id, key, value, now, cacheTtl + drawn);
      } else {
        SetIn(id, key, value, now, cacheTtl);
      }
    }

    method ApplyDelete(id: string, key: string)
      requires manager.Valid()
      modifies manager.Objects()
      ensures manager.Valid() && Caches() == Replication.Forget(old(Caches()), id, Lru.ByKey(key))
      ensures Caches().Keys == old(Caches()).Keys
    {
      var s := manager.GetSheet(id);
      if s != null {
        s.Delete(key);
      }
    }

    method ApplyDeletePrefix(id: string, prefix: string)
      requires manager.Valid()
      modifies manager.Objects()
      ensures manager.Valid() && Caches() == Replication.Forget(old(Caches()), id, Lru.ByPrefix(prefix))
      ensures Caches().Keys == old(Caches()).Keys
    {
      var s := manager.GetSheet(id);
      if s != null {
        var count := s.DeletePrefix(prefix);
      }
    }

    method ApplyDeleteSuffix(id: string, suffix: string)
      requires manager.Valid()
      modifies manager.Objects()
      ensures manager.Valid() && Caches() == Replication.Forget(old(Caches()), id, Lru.BySuffix(suffix))
      ensures Caches().Keys == old(Caches()).Keys
    {
      var s := manager.GetSheet(id);
      if s != null {
        var count := s.DeleteSuffix(suffix);
      }
    }

    method ApplyEvict(id: string, key: string)
      requires manager.Valid()
      modifies manager.Objects()
      ensures manager.Valid() && Caches() == Replication.Forget(old(Caches()), id, Lru.ByKey(key))
      ensures Caches().Keys == old(Caches()).Keys
    {
      var s := manager.GetSheet(id);
      if s != null {
        s.Delete(key);
      }
    }

    /** Responses and lock messages change nothing; `drawn` is the jitter the replica draws for itself. */
    method HandleMessage(m: Server.Message, now: int, drawn: int)
      requires manager.Valid()
      modifies manager, manager.Objects()
      ensures manager.Valid() && fresh(manager.Objects() - old(manager.Objects()))
      ensures Replication.Applies(CAPACITY, m, old(Caches()), Caches())
      ensures m.Replicate? ==>
                var before := Replication.CacheOf(CAPACITY, old(Caches()), m.sheet);
                Caches() == old(Caches())[m.sheet := Lru.Set(before, m.key, m.value,
                                                             now + cacheTtl + if m.jitter then drawn else 0).state]
      ensures m.FullState? ==>
                forall id :: id in m.sheets ==>
                  id in Caches() && ExpireAt(Caches()[id], m.sheets[id].Keys, now + cacheTtl)
    {
      match m
      case FullState(sheets) => ApplyFullState(sheets, now);
      case Replicate(id, key, value, jitter) => ApplySet(id, key, value, jitter, now, drawn);
      case SetBroadcast(key, value) => ApplySet("", key, value, false, now, drawn);
      case ReplicateDelete(id, key) => ApplyDelete(id, key);
      case ReplicateDeletePrefix(id, prefix) => ApplyDeletePrefix(id, prefix);
      case ReplicateDeleteSuffix(id, suffix) => ApplyDeleteSuffix(id, suffix);
      case ReplicateEvict(id, key) => ApplyEvict(id, key);
      case _ =>
    }

    /** The receive loop over all that is pending; `times` and `draws` are what the clock and the jitter give. */
    method Listen(queue: seq<Server.Message>, times: seq<int>, draws: seq<int>)
      requires manager.Valid() && |times| == |draws| == |queue|
      modifies manager, manager.Objects()
      ensures manager.Valid()
      ensures Replication.Folds(CAPACITY, queue, old(Caches()), Caches())
    {
      var i := 0;
      while i < |queue|
        invariant 0 <= i <= |queue| && manager.Valid()
        invariant fresh(manager.Objects() - old(manager.Objects()))
        invariant Replication.Folds(CAPACITY, queue[..i], old(Caches()), Caches())
      {
        ghost var mid := Caches();
        HandleMessage(queue[i], times[i], draws[i]);
        FoldsOneMore(queue[..i], queue[i], old(Caches()), mid, Caches());
        assert queue[..i] + [queue[i]] == queue[..i + 1];
        i := i + 1;
      }
      assert queue[..i] == queue;
    }
  }

  /** All entries under these keys live until then. */
  ghost predicate ExpireAt(s: Lru.State, keys: set<string>, until: int) {
    forall e :: e in s.entries && e.key in keys ==> e.expiresAt == until
  }

  lemma OneMoreExpires(s: Lru.State, keys: set<string>, key: string, value: Json, until: int)
    requires ExpireAt(s, keys, until)
    ensures ExpireAt(Lru.Set(s, key, value, until).state, keys + {key}, until)
  {
    var es := Lru.Set(s, key, value, until).state.entries;
    forall e | e in es && e.key in keys + {key} ensures e.expiresAt == until {
      if e != es[0] {
        assert e in es[1..] && e in s.entries;
        assert e.key != key;
      }
    }
  }

  /** The sheets in `done` are loaded, all to live until then, and the others are as they were. */
  ghost predicate Loaded(sheets: map<string, map<string, Json>>, done: set<string>, r: Replication.Sheets,
                         r': Replication.Sheets, until: int) {
    && done <= sheets.Keys && r'.Keys == r.Keys + done
    && forall id :: id in r' ==>
         if id in done then LoadedSheet(sheets[id], Replication.CacheOf(CAPACITY, r, id), r'[id], until)
         else r'[id] == r[id]
  }

  ghost predicate LoadedSheet(data: map<string, Json>, s: Lru.State, s': Lru.State, until: int) {
    Replication.Loads(data, s, s') && ExpireAt(s', data.Keys, until)
  }

  lemma {:induction false} FoldsOneMore(q: seq<Server.Message>, m: Server.Message, r: Replication.Sheets,
                                        mid: Replication.Sheets, r': Replication.Sheets)
    requires Replication.Folds(CAPACITY, q, r, mid) && Replication.Applies(CAPACITY, m, mid, r')
    ensures Replication.Folds(CAPACITY, q + [m], r, r')
    decreases q
  {
    var all := q + [m];
    if q == [] {
      assert all[1..] == [] && Replication.Folds(CAPACITY, all[1..], r', r');
      assert Replication.Applies(CAPACITY, all[0], r, r');
    } else {
      assert all[1..] == q[1..] + [m];
      var next :| Replication.Applies(CAPACITY, q[0], r, next) && Replication.Folds(CAPACITY, q[1..], next, mid);
      FoldsOneMore(q[1..], m, next, mid, r');
      assert Replication.Applies(CAPACITY, all[0], r, next) && Replication.Folds(CAPACITY, all[1..], next, r');
    }
  }

  lemma PutThenRemove<K, V>(done: map<K, V>, key: K, value: V, k: K)
    requires k != key
    ensures (done - {k})[key := value] == done[key := value] - {k}
    ensures k in done ==> done[key := value][k] == done[k]
  {
  }

  lemma OneMoreLoaded(done: map<string, Json>, s: Lru.State, s': Lru.State, key: string, value: Json, until: int)
    requires LoadedSheet(done, s, s', until) && key !in done
    ensures LoadedSheet(done[key := value], s, Lru.Set(s', key, value, until).state, until)
  {
    LoadsOneMore(done, s, s', key, value, until);
    OneMoreExpires(s', done.Keys, key, value, until);
    assert done[key := value].Keys == done.Keys + {key};
  }

  lemma {:induction false} LoadsOneMore(done: map<string, Json>, s: Lru.State, s': Lru.State, key: string, value: Json,
                                        expiresAt: int)
    requires Replication.Loads(done, s, s') && key !in done
    ensures Replication.Loads(done[key := value], s, Lru.Set(s', key, value, expiresAt).state)
    decreases done.Keys
  {
    var all, last := done[key := value], Lru.Set(s', key, value, expiresAt).state;
    if done == map[] {
      assert all - {key} == map[];
      Replication.LoadsFirst(all, key, expiresAt, s, last);
    } else {
      var k: string, e: int :| k in done && Replication.Loads(done - {k}, Lru.Set(s, k, done[k], e).state, s');
      LoadsOneMore(done - {k}, Lru.Set(s, k, done[k], e).state, s', key, value, expiresAt);
      PutThenRemove(done, key, value, k);
      Replication.LoadsFirst(all, k, e, s, last);
    }
  }
}
