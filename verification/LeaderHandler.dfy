/**
 ws/handler.go in place: the handler's maps, its clients and the sheets they point to, one request at a time.
 Every method is proved against the function of module Server that says what the step does to the whole leader.
 */
module LeaderHandler {
  import opened Prelude
  import Lru
  import Leases
  import Server
  import CacheStore
  import LockManager
  import opened SheetStore

  class Client {
    const conn: Conn
    var sheet: Sheet?  // null until "open" succeeds

    constructor (conn: Conn)
      ensures this.conn == conn && sheet == null
    {
      this.conn, sheet := conn, null;
    }

    ghost function Opened(): Option<string>
      reads this
    {
      if sheet == null then None else Some(sheet.id)
    }
  }

  /** set_null replicates without a broadcast. */
  function NullSent(w: Server.World, c: Conn, id: string, cache: Lru.State, key: string): Server.World
    requires id in w.sheets
  {
    Server.ToReplicas(Server.Reply(Server.PutCache(w, id, cache), c, Server.Ok(key)),
                      Server.Replicate(id, key, Server.NULL_PLACEHOLDER, false))
  }

  lemma NullInSteps(cfg: Server.Config, w: Server.World, c: Conn, id: string, key: string, env: Server.Env)
    requires id in w.sheets
    ensures var r := Lru.Set(w.sheets[id].cache, key, Server.NULL_PLACEHOLDER, Server.ExpiresAt(cfg, false, env));
            && id in NullSent(w, c, id, r.state, key).sheets
            && Server.HandleSetNull(cfg, w, c, id, key, env)
                == Server.AnnounceEviction(NullSent(w, c, id, r.state, key), c, id, r.evicted)
  {
  }

  lemma SetInSteps(cfg: Server.Config, w: Server.World, c: Conn, id: string, key: string, value: Json, jitter: bool,
                   env: Server.Env)
    requires id in w.sheets
    ensures var r := Lru.Set(w.sheets[id].cache, key, value, Server.ExpiresAt(cfg, jitter, env));
            var w1 := Server.Mutate(w, c, id, r.state, Server.Ok(key), Server.SetBroadcast(key, value),
                                    Server.Replicate(id, key, value, jitter));
            id in w1.sheets && Server.HandleSet(cfg, w, c, id, key, value, jitter, env)
                == Server.AnnounceEviction(w1, c, id, r.evicted)
  {
  }

  class Handler {
    const manager: Manager
    const lockManager: LockManager.Manager
    const net: Network
    const cfg: Server.Config
    var clients: map<Conn, Client>
    var replicas: map<Conn, string>    // the instance id each replica gave
    var sessions: map<Conn, Client>    // the client of every running ServeWS loop

    ghost function Clients(): set<object>
      reads this
    {
      set c | c in sessions :: sessions[c]
    }

    /** A client's sheet is the registered one, and the client is among its collaborators. */
    ghost predicate Seated(client: Client)
      reads client, manager, manager.Objects()
    {
      client.sheet != null ==>
        && client.sheet.id in manager.sheets && manager.sheets[client.sheet.id] == client.sheet
        && client.conn in client.sheet.collaborators
    }

    ghost predicate Valid()
      reads this, Clients(), manager, manager.Objects(), lockManager
    {
      && cfg.capacity == CacheStore.DEFAULT_CAPACITY
      && manager.Valid() && lockManager.Valid()
      && (forall c :: c in sessions ==> sessions[c].conn == c && Seated(sessions[c]))
    }

    ghost function Conns(): map<Conn, Option<string>>
      reads this, Clients()
    {
      map c | c in sessions :: sessions[c].Opened()
    }

    /** The whole leader as a value. */
    ghost function View(): Server.World
      reads this, Clients(), manager, manager.Objects(), lockManager, lockManager.Objects(), net
    {
      Server.World(manager.View(), Conns(), clients.Keys, replicas.Keys, lockManager.View(), net.sent)
    }

    /** The client's sheet is registered under its own id, and only there. */
    ghost predicate Placed(client: Client)
      reads client, manager
    {
      && client.sheet != null
      && client.sheet.id in manager.sheets && manager.sheets[client.sheet.id] == client.sheet
      && forall id :: id in manager.sheets && id != client.sheet.id ==> manager.sheets[id] != client.sheet
    }

    ghost predicate Serves(client: Client)
      reads this
    {
      client.conn in sessions && sessions[client.conn] == client
    }

    constructor (cacheTtl: int, lockTtl: int)
      ensures Valid() && View() == Server.EMPTY && cfg == Server.Config(10000, cacheTtl, lockTtl)
      ensures Owned() == {} && fresh(manager) && fresh(lockManager) && fresh(net)
    {
      cfg := Server.Config(CacheStore.DEFAULT_CAPACITY, cacheTtl, lockTtl);
      manager := new Manager();
      lockManager := new LockManager.Manager();
      net := new Network();
      clients, replicas, sessions := map[], map[], map[];
    }

    /** What every handler relies on is the value model's assumption about reachable worlds. */
    lemma ValidIsLinked()
      requires Valid()
      ensures Server.Linked(View())
    {
    }

    // ----- writing to connections

    method SendResponse(c: Conn, m: Server.Message)
      modifies net
      ensures View() == Server.Reply(old(View()), c, m)
    {
      net.WriteMessage(c, m);
    }

    method SendError(c: Conn, error: string)
      requires Valid()
      modifies net
      ensures Valid() && View() == Server.Reply(old(View()), c, Server.Err(error))
    {
      SendResponse(c, Server.Err(error));
    }

    method BroadcastToReplicas(m: Server.Message)
      modifies net
      ensures net.sent == Server.WriteAll(old(net.sent), replicas.Keys, m)
    {
      var targets := replicas.Keys;
      var todo := targets;
      while todo != {}
        invariant todo <= targets
        invariant net.sent == Server.WriteAll(old(net.sent), targets - todo, m)
      {
        var c :| c in todo;
        todo := todo - {c};
        OneMore(old(net.sent), targets - todo, c, m);
        net.WriteMessage(c, m);
      }
    }

    /** The replicate* senders differ in their message only. */
    method Replicate(m: Server.Message)
      modifies net
      ensures View() == Server.ToReplicas(old(View()), m)
    {
      BroadcastToReplicas(m);
    }

    method Broadcast(client: Client, m: Server.Message)
      requires Placed(client)
      modifies net
      ensures client.sheet.id in old(View()).sheets
      ensures View() == Server.Broadcast(old(View()), client.sheet.id, client.conn, m)
    {
      client.sheet.Broadcast(net, client.conn, m);
    }

    // ----- operations on the cache of the client's sheet

    method SheetGet(client: Client, key: string, now: int) returns (found: Option<Json>)
      requires Placed(client)
      modifies client.sheet`cache
      ensures client.sheet.id in old(View()).sheets
      ensures var r := Lru.Get(old(View()).sheets[client.sheet.id].cache, key, now);
              found == r.found && View() == Server.PutCache(old(View()), client.sheet.id, r.state)
    {
      found := client.sheet.Get(key, now);
      assert manager.View() == old(manager.View())[client.sheet.id := client.sheet.View()];
      assert Conns() == old(Conns()) && lockManager.View() == old(lockManager.View());
    }

    method SheetSet(client: Client, key: string, value: Json, now: int, ttl: int, ghost expiresAt: int)
      returns (evicted: string)
      requires Placed(client) && expiresAt == now + ttl
      modifies client.sheet`cache
      ensures client.sheet.id in old(View()).sheets
      ensures var r := Lru.Set(old(View()).sheets[client.sheet.id].cache, key, value, expiresAt);
              evicted == r.evicted && View() == Server.PutCache(old(View()), client.sheet.id, r.state)
    {
      evicted := client.sheet.Set(key, value, now, ttl);
      assert manager.View() == old(manager.View())[client.sheet.id := client.sheet.View()];
      assert Conns() == old(Conns()) && lockManager.View() == old(lockManager.View());
    }

    method SheetDelete(client: Client, key: string)
      requires Placed(client)
      modifies client.sheet`cache
      ensures client.sheet.id in old(View()).sheets
      ensures View() == Server.PutCache(old(View()), client.sheet.id,
                                        Lru.Delete(old(View()).sheets[client.sheet.id].cache, Lru.ByKey(key)))
    {
      client.sheet.Delete(key);
      assert manager.View() == old(manager.View())[client.sheet.id := client.sheet.View()];
      assert Conns() == old(Conns()) && lockManager.View() == old(lockManager.View());
    }

    method SheetDeletePrefix(client: Client, prefix: string) returns (count: nat)
      requires Placed(client)
      modifies client.sheet`cache
      ensures client.sheet.id in old(View()).sheets
      ensures var after := Lru.Delete(old(View()).sheets[client.sheet.id].cache, Lru.ByPrefix(prefix));
              View() == Server.PutCache(old(View()), client.sheet.id, after)
              && Server.Deleted("", count) == Server.Removed(old(View()).sheets[client.sheet.id].cache, after)
    {
      count := client.sheet.DeletePrefix(prefix);
      assert manager.View() == old(manager.View())[client.sheet.id := client.sheet.View()];
      assert Conns() == old(Conns()) && lockManager.View() == old(lockManager.View());
    }

    method SheetDeleteSuffix(client: Client, suffix: string) returns (count: nat)
      requires Placed(client)
      modifies client.sheet`cache
      ensures client.sheet.id in old(View()).sheets
      ensures var after := Lru.Delete(old(View()).sheets[client.sheet.id].cache, Lru.BySuffix(suffix));
              View() == Server.PutCache(old(View()), client.sheet.id, after)
              && Server.Deleted("", count) == Server.Removed(old(View()).sheets[client.sheet.id].cache, after)
    {
      count := client.sheet.DeleteSuffix(suffix);
      assert manager.View() == old(manager.View())[client.sheet.id := client.sheet.View()];
      assert Conns() == old(Conns()) && lockManager.View() == old(lockManager.View());
    }

    method HandleGet(client: Client, key: string, env: Server.Env)
      requires Placed(client)
      modifies client.sheet`cache, net
      ensures client.sheet.id in old(View()).sheets
      ensures View() == Server.HandleGet(old(View()), client.conn, client.sheet.id, key, env)
    {
      var found := SheetGet(client, key, env.now);
      if found.None? {
        SendResponse(client.conn, Server.Err("key not found"));
        return;
      }
      SendResponse(client.conn, Server.Response(true, "", key, found.value, 0, "", 0));
    }

    /** The shared part of the mutating requests: the reply, the broadcast, the replication. */
    method Tell(client: Client, reply: Server.Message, broadcast: Server.Message, replicate: Server.Message)
      requires Placed(client)
      modifies net
      ensures client.sheet.id in old(View()).sheets
      ensures View() == Server.Announce(old(View()), client.conn, client.sheet.id, reply, broadcast, replicate)
    {
      SendResponse(client.conn, reply);
      Broadcast(client, broadcast);
      Replicate(replicate);
    }

    /** The shared end of set and set_null. */
    method AnnounceEviction(client: Client, evicted: string)
      requires Placed(client)
      modifies net
      ensures client.sheet.id in old(View()).sheets
      ensures View() == Server.AnnounceEviction(old(View()), client.conn, client.sheet.id, evicted)
    {
      if evicted != "" {
        Broadcast(client, Server.Invalidate(evicted, "", ""));
        Replicate(Server.ReplicateEvict(client.sheet.id, evicted));
      }
    }

    method SetAndTell(client: Client, key: string, value: Json, jitter: bool, now: int, ttl: int, ghost expiresAt: int)
      returns (evicted: string)
      requires Placed(client) && expiresAt == now + ttl
      modifies client.sheet`cache, net
      ensures client.sheet.id in old(View()).sheets
      ensures var r := Lru.Set(old(View()).sheets[client.sheet.id].cache, key, value, expiresAt);
              && evicted == r.evicted
              && View() == Server.Mutate(old(View()), client.conn, client.sheet.id, r.state, Server.Ok(key),
                                         Server.SetBroadcast(key, value),
                                         Server.Replicate(client.sheet.id, key, value, jitter))
    {
      evicted := SheetSet(client, key, value, now, ttl, expiresAt);
      Tell(client, Server.Ok(key), Server.SetBroadcast(key, value),
           Server.Replicate(client.sheet.id, key, value, jitter));
    }

    method HandleSet(client: Client, key: string, value: Json, jitter: bool, env: Server.Env)
      requires Placed(client)
      modifies client.sheet`cache, net
      ensures client.sheet.id in old(View()).sheets
      ensures View() == Server.HandleSet(cfg, old(View()), client.conn, client.sheet.id, key, value, jitter, env)
    {
      var ttl := cfg.cacheTtl;
      if jitter {
        ttl := cfg.cacheTtl + env.jitter;
      }
      SetInSteps(cfg, View(), client.conn, client.sheet.id, key, value, jitter, env);
      var evicted := SetAndTell(client, key, value, jitter, env.now, ttl, Server.ExpiresAt(cfg, jitter, env));
      AnnounceEviction(client, evicted);
    }

    method SetNullAndTell(client: Client, key: string, now: int, ttl: int, ghost expiresAt: int)
      returns (evicted: string)
      requires Placed(client) && expiresAt == now + ttl
      modifies client.sheet`cache, net
      ensures client.sheet.id in old(View()).sheets
      ensures var r := Lru.Set(old(View()).sheets[client.sheet.id].cache, key, Server.NULL_PLACEHOLDER, expiresAt);
              && evicted == r.evicted
              && View() == NullSent(old(View()), client.conn, client.sheet.id, r.state, key)
    {
      evicted := SheetSet(client, key, Server.NULL_PLACEHOLDER, now, ttl, expiresAt);
      SendResponse(client.conn, Server.Ok(key));
      Replicate(Server.Replicate(client.sheet.id, key, Server.NULL_PLACEHOLDER, false));
    }

    method HandleSetNull(client: Client, key: string, env: Server.Env)
      requires Placed(client)
      modifies client.sheet`cache, net
      ensures client.sheet.id in old(View()).sheets
      ensures View() == Server.HandleSetNull(cfg, old(View()), client.conn, client.sheet.id, key, env)
    {
      NullInSteps(cfg, View(), client.conn, client.sheet.id, key, env);
      var evicted := SetNullAndTell(client, key, env.now, cfg.cacheTtl, Server.ExpiresAt(cfg, false, env));
      AnnounceEviction(client, evicted);
    }

    method HandleDelete(client: Client, key: string)
      requires Placed(client)
      modifies client.sheet`cache, net
      ensures client.sheet.id in old(View()).sheets
      ensures View() == Server.HandleDelete(old(View()), client.conn, client.sheet.id, key)
    {
      SheetDelete(client, key);
      Tell(client, Server.Deleted(key, 1), Server.Invalidate(key, "", ""),
           Server.ReplicateDelete(client.sheet.id, key));
    }

    method HandleDeletePrefix(client: Client, prefix: string)
      requires Placed(client)
      modifies client.sheet`cache, net
      ensures client.sheet.id in old(View()).sheets
      ensures View() == Server.HandleDeletePrefix(old(View()), client.conn, client.sheet.id, prefix)
    {
      var count := SheetDeletePrefix(client, prefix);
      Tell(client, Server.Deleted("", count), Server.Invalidate("", prefix, ""),
           Server.ReplicateDeletePrefix(client.sheet.id, prefix));
    }

    method HandleDeleteSuffix(client: Client, suffix: string)
      requires Placed(client)
      modifies client.sheet`cache, net
      ensures client.sheet.id in old(View()).sheets
      ensures View() == Server.HandleDeleteSuffix(old(View()), client.conn, client.sheet.id, suffix)
    {
      var count := SheetDeleteSuffix(client, suffix);
      Tell(client, Server.Deleted("", count), Server.Invalidate("", "", suffix),
           Server.ReplicateDeleteSuffix(client.sheet.id, suffix));
    }

    method HandleDump(client: Client)
      requires Placed(client)
      modifies net
      ensures client.sheet.id in old(View()).sheets
      ensures View() == Server.HandleDump(old(View()), client.conn, client.sheet.id)
    {
      var data := Lru.Dump(client.sheet.cache.entries);
      SendResponse(client.conn, Server.Response(true, "", "", Object(data), 0, "", |data|));
    }

    // ----- locks

    method Acquire(client: Client, key: string, now: int, ttl: int) returns (lock: LockManager.Lock?)
      requires Placed(client) && lockManager.Valid()
      modifies lockManager, lockManager.Objects()
      ensures fresh(lockManager.Objects() - old(lockManager.Objects()))
      ensures lockManager.Valid()
      ensures var r := Leases.TryAcquire(old(lockManager.View()), client.sheet.id, key, client.conn, now, ttl);
              && View() == old(View()).(locks := lockManager.View()) && lockManager.View() == r.table
              && (lock == null <==> r.granted.None?) && (lock != null ==> r.granted == Some(lock.View()))
    {
      lock := lockManager.TryAcquire(client.sheet.id, key, client.conn, now, ttl);
      assert manager.View() == old(manager.View()) && Conns() == old(Conns());
    }

    method HandleLock(client: Client, key: string, seconds: int, env: Server.Env)
      requires Placed(client) && lockManager.Valid()
      modifies lockManager, lockManager.Objects(), net
      ensures fresh(lockManager.Objects() - old(lockManager.Objects()))
      ensures lockManager.Valid()
      ensures View() == Server.HandleLock(cfg, old(View()), client.conn, client.sheet.id, key, seconds, env)
    {
      var ttl := cfg.lockTtl;
      if seconds > 0 {
        ttl := seconds;
      }
      var acquired := Acquire(client, key, env.now, ttl);
      if acquired == null {
        RefuseLock(client, key, env.later);
        return;
      }
      AnnounceLock(client, key, Server.ReplicateLock(client.sheet.id, key, client.conn, acquired.expiresAt));
    }

    method RefuseLock(client: Client, key: string, later: int)
      requires Placed(client) && lockManager.Valid()
      modifies net
      ensures View() == Server.Reply(old(View()), client.conn,
                if Leases.IsLocked(old(View()).locks, client.sheet.id, key, later).Some?
                then Server.Response(false, "", key, Null, 0, "lock held by another client", 0)
                else Server.Err("lock held by another client"))
    {
      var existing := lockManager.IsLocked(client.sheet.id, key, later);
      var m := Server.Err("lock held by another client");
      if existing != null {
        m := Server.Response(false, "", key, Null, 0, "lock held by another client", 0);
      }
      SendResponse(client.conn, m);
    }

    method AnnounceLock(client: Client, key: string, m: Server.Message)
      modifies net
      ensures View() == Server.ToReplicas(Server.Reply(old(View()), client.conn, Server.Ok(key)), m)
    {
      SendResponse(client.conn, Server.Ok(key));
      Replicate(m);
    }

    method Release(client: Client, key: string) returns (error: Option<Leases.Error>)
      requires Placed(client) && lockManager.Valid()
      modifies lockManager
      ensures lockManager.Objects() <= old(lockManager.Objects())
      ensures lockManager.Valid()
      ensures var r := Leases.Release(old(lockManager.View()), client.sheet.id, key, client.conn);
              View() == old(View()).(locks := r.table) && error == r.error
    {
      error := lockManager.Release(client.sheet.id, key, client.conn);
    }

    method HandleUnlock(client: Client, key: string)
      requires Placed(client) && lockManager.Valid()
      modifies lockManager, net
      ensures lockManager.Objects() <= old(lockManager.Objects())
      ensures lockManager.Valid()
      ensures View() == Server.HandleUnlock(old(View()), client.conn, client.sheet.id, key)
    {
      var error := Release(client, key);
      if error == Some(Leases.NotOwner) {
        SendResponse(client.conn, Server.Err("not lock owner"));
      } else if error.Some? {
        SendResponse(client.conn, Server.Err("lock not found"));
      } else {
        AnnounceLock(client, key, Server.ReplicateUnlock(client.sheet.id, key));
      }
    }

    // ----- routing

    method HandleRemoval(client: Client, req: Server.Request, env: Server.Env)
      requires Placed(client) && (req.Delete? || req.DeletePrefix? || req.DeleteSuffix?)
      modifies client.sheet`cache, net
      ensures client.sheet.id in old(View()).sheets
      ensures View() == Server.HandleInSheet(cfg, old(View()), client.conn, client.sheet.id, req, env)
    {
      match req
      case Delete(key) => HandleDelete(client, key);
      case DeletePrefix(prefix) => HandleDeletePrefix(client, prefix);
      case DeleteSuffix(suffix) => HandleDeleteSuffix(client, suffix);
    }

    method HandleLocking(client: Client, req: Server.Request, env: Server.Env)
      requires Placed(client) && lockManager.Valid() && (req.Lock? || req.Unlock?)
      modifies lockManager, lockManager.Objects(), net
      ensures fresh(lockManager.Objects() - old(lockManager.Objects()))
      ensures lockManager.Valid() && client.sheet.id in old(View()).sheets
      ensures View() == Server.HandleInSheet(cfg, old(View()), client.conn, client.sheet.id, req, env)
    {
      match req
      case Lock(key, ttl) => HandleLock(client, key, ttl, env);
      case Unlock(key) => HandleUnlock(client, key);
    }

    method HandleRead(client: Client, req: Server.Request, env: Server.Env)
      requires Placed(client) && (req.Get? || req.DumpAll? || req.Unknown?)
      modifies client.sheet`cache, net
      ensures client.sheet.id in old(View()).sheets
      ensures View() == Server.HandleInSheet(cfg, old(View()), client.conn, client.sheet.id, req, env)
    {
      match req
      case Get(key) => HandleGet(client, key, env);
      case DumpAll => HandleDump(client);
      case Unknown(action) => SendResponse(client.conn, Server.Err("unknown action: " + action));
    }

    /** The requests that need an open sheet. */
    method HandleInSheet(client: Client, req: Server.Request, env: Server.Env)
      requires Placed(client) && lockManager.Valid() && !req.Open? && !req.RegisterReplica?
      modifies client.sheet`cache, lockManager, lockManager.Objects(), net
      ensures fresh(lockManager.Objects() - old(lockManager.Objects()))
      ensures lockManager.Valid() && client.sheet.id in old(View()).sheets
      ensures View() == Server.HandleInSheet(cfg, old(View()), client.conn, client.sheet.id, req, env)
    {
      if req.Delete? || req.DeletePrefix? || req.DeleteSuffix? {
        HandleRemoval(client, req, env);
      } else if req.Lock? || req.Unlock? {
        HandleLocking(client, req, env);
      } else if req.Set? {
        HandleSet(client, req.key, req.value, req.jitter, env);
      } else if req.SetNull? {
        HandleSetNull(client, req.key, env);
      } else {
        HandleRead(client, req, env);
      }
    }

    // ----- open, register, disconnect

    /** GetOrCreateSheet on the handler's manager: nobody loses a seat by it. */
    method Admit(id: string, password: string) returns (s: Sheet?)
      requires Valid()
      modifies manager, manager.Objects()
      ensures fresh(manager.Objects() - old(manager.Objects()))
      ensures Valid()
      ensures s == null <==>
              id == "" || password == ""
              || (id in old(View()).sheets && !Server.Verifies(old(View()).sheets[id].hash, password))
      ensures s == null ==> View() == old(View())
      ensures s != null ==> s.id == id && id in manager.sheets && manager.sheets[id] == s
      ensures s != null && !fresh(s) ==> s in old(manager.Objects())
      ensures s != null ==> View() == WithSheet(old(View()), id, password)
    {
      s := manager.GetOrCreateSheet(id, password);
      assert Conns() == old(Conns()) && lockManager.View() == old(lockManager.View());
      assert manager.View().Keys == manager.sheets.Keys && old(manager.View()).Keys == old(manager.sheets).Keys;
      forall c | c in sessions ensures Seated(sessions[c]) {
        assert old(Seated(sessions[c]));
        if sessions[c].sheet != null {
          var i := sessions[c].sheet.id;
          assert manager.View()[i].collaborators == old(manager.View())[i].collaborators;
        }
      }
    }

    /** client.Sheet = s; s.AddCollaborator(client.Conn). */
    method Join(client: Client, s: Sheet)
      requires Valid() && Serves(client) && s.id in manager.sheets && manager.sheets[s.id] == s
      modifies client`sheet, s`collaborators
      ensures Valid() && client.sheet == s
      ensures s.id in old(View()).sheets
      ensures View() == Joined(old(View()), client.conn, s.id)
    {
      client.sheet := s;
      s.AddCollaborator(client.conn);
      assert Conns() == old(Conns())[client.conn := Some(s.id)];
      assert manager.View() == old(manager.View())[s.id := s.View()] && lockManager.View() == old(lockManager.View());
    }

    method Greet(c: Conn, s: Sheet)
      requires Valid()
      modifies net
      ensures Valid() && View() == Greeted(old(View()), c, s.id, s.cache)
    {
      SendResponse(c, Server.Response(true, s.id, "", Null, 0, "", 0));
      SendResponse(c, Server.SheetState(Lru.Dump(s.cache.entries)));
    }

    method HandleOpen(client: Client, id: string, password: string)
      requires Valid() && Serves(client)
      modifies client`sheet, manager, manager.Objects(), net
      ensures fresh(manager.Objects() - old(manager.Objects()))
      ensures Valid()
      ensures View() == Server.HandleOpen(cfg, old(View()), client.conn, id, password)
    {
      if client.sheet != null {
        SendError(client.conn, "already in sheet: " + client.sheet.id);
        return;
      }
      if id == "" || password == "" {
        SendError(client.conn, "sheet and password required");
        return;
      }
      Enter(client, id, password);
    }

    method Enter(client: Client, id: string, password: string)
      requires Valid() && Serves(client) && client.sheet == null && id != "" && password != ""
      modifies client`sheet, manager, manager.Objects(), net
      ensures fresh(manager.Objects() - old(manager.Objects()))
      ensures Valid()
      ensures View() == Server.HandleOpen(cfg, old(View()), client.conn, id, password)
    {
      var s := TakeSeat(client, id, password);
      if s == null {
        SendError(client.conn, "invalid password");
        return;
      }
      OpenInSteps(cfg, old(View()), client.conn, id, password);
      Greet(client.conn, s);
    }

    method TakeSeat(client: Client, id: string, password: string) returns (s: Sheet?)
      requires Valid() && Serves(client) && id != "" && password != ""
      modifies client`sheet, manager, manager.Objects()
      ensures fresh(manager.Objects() - old(manager.Objects()))
      ensures Valid()
      ensures s == null <==> id in old(View()).sheets && !Server.Verifies(old(View()).sheets[id].hash, password)
      ensures s == null ==> View() == old(View())
      ensures s != null ==> s.id == id && s.cache == Admitted(old(View()).sheets, id, password).cache
      ensures s != null ==> View() == Joined(WithSheet(old(View()), id, password), client.conn, id)
    {
      s := Admit(id, password);
      if s != null {
        Join(client, s);
      }
    }

    /** All sheets and their data. */
    method DumpAll() returns (sheets: map<string, map<string, Json>>)
      requires Valid()
      ensures Server.FullState(sheets) == Server.FullStateOf(View())
    {
      sheets := map[];
      var todo := manager.sheets.Keys;
      while todo != {}
        invariant todo <= manager.sheets.Keys
        invariant sheets == map id | id in manager.sheets.Keys - todo :: Lru.Dump(manager.sheets[id].cache.entries)
      {
        var id :| id in todo;
        todo := todo - {id};
        sheets := sheets[id := Lru.Dump(manager.sheets[id].cache.entries)];
      }
    }

    method HandleRegisterReplica(client: Client, instanceId: string, validTime: bool)
      requires Valid() && Serves(client)
      modifies this`clients, this`replicas, net
      ensures Valid()
      ensures View() == Server.HandleRegisterReplica(old(View()), client.conn, instanceId, validTime)
    {
      if !validTime {
        SendError(client.conn, "invalid started_at timestamp (use RFC3339)");
        return;
      }
      if instanceId == "" {
        SendError(client.conn, "instance_id required");
        return;
      }
      Enlist(client.conn, instanceId);
      SendFullState(client.conn);
      SendResponse(client.conn, Server.Ok(""));
    }

    method Enlist(c: Conn, instanceId: string)
      requires Valid()
      modifies this`clients, this`replicas
      ensures Valid() && View() == old(View()).(replicas := old(View()).replicas + {c},
                                                clients := old(View()).clients - {c})
    {
      replicas := replicas[c := instanceId];
      clients := clients - {c};
      assert Conns() == old(Conns()) && manager.View() == old(manager.View());
    }

    method SendDump(c: Conn, sheets: map<string, map<string, Json>>, ghost w: Server.World)
      requires View() == w && Server.FullState(sheets) == Server.FullStateOf(w)
      modifies net
      ensures View() == Server.Reply(w, c, Server.FullStateOf(w))
    {
      SendResponse(c, Server.FullState(sheets));
    }

    method SendFullState(c: Conn)
      requires Valid()
      modifies net
      ensures View() == Server.Reply(old(View()), c, Server.FullStateOf(old(View())))
    {
      ghost var w := View();
      var sheets := DumpAll();
      SendDump(c, sheets, w);
    }

    method HandleAction(client: Client, req: Server.Request, env: Server.Env)
      requires Valid() && Serves(client)
      modifies client`sheet, manager, manager.Objects(), lockManager, lockManager.Objects()
      modifies this`clients, this`replicas, net
      ensures fresh(manager.Objects() - old(manager.Objects()))
      ensures fresh(lockManager.Objects() - old(lockManager.Objects()))
      ensures Valid() && Server.Linked(old(View()))
      ensures View() == Server.HandleAction(cfg, old(View()), client.conn, req, env)
    {
      ValidIsLinked();
      match req
      case Open(id, password) => HandleOpen(client, id, password);
      case RegisterReplica(instanceId, validTime) => HandleRegisterReplica(client, instanceId, validTime);
      case _ => Route(client, req, env);
    }

    method Route(client: Client, req: Server.Request, env: Server.Env)
      requires Valid() && Serves(client) && !req.Open? && !req.RegisterReplica?
      modifies manager.Objects(), lockManager, lockManager.Objects(), net
      ensures fresh(lockManager.Objects() - old(lockManager.Objects()))
      ensures Valid() && Server.Linked(old(View()))
      ensures View() == Server.HandleAction(cfg, old(View()), client.conn, req, env)
    {
      ValidIsLinked();
      if client.sheet == null {
        SendError(client.conn, "must open sheet first");
        return;
      }
      SeatIsPlaced(client);
      ServeInSheet(client, req, env);
    }

    /** Requests in a sheet unseat nobody. */
    method ServeInSheet(client: Client, req: Server.Request, env: Server.Env)
      requires Valid() && Serves(client) && client.sheet != null && !req.Open? && !req.RegisterReplica?
      modifies client.sheet`cache, lockManager, lockManager.Objects(), net
      ensures fresh(lockManager.Objects() - old(lockManager.Objects()))
      ensures Valid() && client.sheet.id in old(View()).sheets
      ensures View() == Server.HandleInSheet(cfg, old(View()), client.conn, client.sheet.id, req, env)
    {
      SeatIsPlaced(client);
      HandleInSheet(client, req, env);
      StillValid();
    }

    lemma SeatIsPlaced(client: Client)
      requires Valid() && Serves(client) && client.sheet != null
      ensures Placed(client)
    {
      assert Seated(client);
    }

    /** As long as no client moves and no sheet's collaborators change, everybody keeps their seat. */
    twostate lemma StillValid()
      requires old(Valid()) && unchanged(this) && unchanged(manager) && lockManager.Valid()
      requires forall c :: c in sessions ==> unchanged(sessions[c])
      requires forall id :: id in manager.sheets ==>
                 manager.sheets[id].collaborators == old(manager.sheets[id].collaborators)
      ensures Valid()
    {
      forall c | c in sessions ensures sessions[c].conn == c && Seated(sessions[c]) {
        assert old(Seated(sessions[c]));
      }
    }

    // ----- connections come and go

    /** The beginning of ServeWS. */
    method OnConnect(c: Conn)
      requires Valid() && c !in sessions
      modifies this`sessions, this`clients, net
      ensures fresh(Clients() - old(Clients()))
      ensures Valid() && View() == Server.OnConnect(old(View()), c)
    {
      var client := new Client(c);
      sessions, clients := sessions[c := client], clients[c := client];
      net.Accept(c);
      assert Conns() == old(Conns())[c := None];
      assert manager.View() == old(manager.View()) && lockManager.View() == old(lockManager.View());
    }

    method ReleaseLocks(c: Conn)
      requires Valid()
      modifies lockManager
      ensures lockManager.Objects() <= old(lockManager.Objects())
      ensures Valid() && View() == old(View()).(locks := Leases.ReleaseAllByOwner(old(View()).locks, c))
    {
      var released := lockManager.ReleaseAllByOwner(c);
    }

    method Forget(c: Conn)
      requires Valid()
      modifies this`sessions, this`clients
      ensures Valid() && sessions == old(sessions) - {c}
      ensures View() == old(View()).(clients := old(View()).clients - {c}, conns := old(View()).conns - {c})
    {
      clients := clients - {c};
      sessions := sessions - {c};
      assert Conns() == old(Conns()) - {c} && manager.View() == old(manager.View());
    }

    method DropClient(client: Client)
      requires Valid() && Serves(client)
      modifies this`sessions, this`clients, lockManager
      ensures lockManager.Objects() <= old(lockManager.Objects()) && Clients() <= old(Clients())
      ensures Valid() && sessions == old(sessions) - {client.conn}
      ensures View() == Server.DropClient(old(View()), client.conn)
    {
      ReleaseLocks(client.conn);
      Forget(client.conn);
    }

    method Vacate(client: Client) returns (remaining: nat)
      requires Valid() && Placed(client) && client.conn !in sessions
      modifies client.sheet`collaborators
      ensures Valid() && client.sheet.id in old(View()).sheets
      ensures View() == Vacated(old(View()), client.conn, client.sheet.id) && remaining == |client.sheet.collaborators|
    {
      remaining := client.sheet.RemoveCollaborator(client.conn);
      assert manager.View() == old(manager.View())[client.sheet.id := client.sheet.View()];
      assert Conns() == old(Conns()) && lockManager.View() == old(lockManager.View());
    }

    method DeleteSheet(id: string)
      requires Valid() && id in manager.sheets && manager.sheets[id].collaborators == {}
      modifies manager
      ensures Valid() && manager.Objects() <= old(manager.Objects())
      ensures View() == old(View()).(sheets := old(View()).sheets - {id})
    {
      manager.DeleteSheet(id);
    }

    method LeaveSheet(client: Client)
      requires Valid() && Placed(client) && client.conn !in sessions
      modifies client.sheet`collaborators, manager
      ensures manager.Objects() <= old(manager.Objects())
      ensures Valid() && client.sheet.id in old(View()).sheets
      ensures View() == Server.LeaveSheet(old(View()), client.conn, client.sheet.id)
    {
      ghost var w := View();
      var remaining := Vacate(client);
      VacatedSheets(w, client.conn, client.sheet.id);
      if remaining == 0 {
        DeleteSheet(client.sheet.id);
      }
    }

    method OnDisconnect(client: Client)
      requires Valid() && Serves(client)
      modifies this`sessions, this`clients, this`replicas, lockManager, manager, manager.Objects()
      ensures manager.Objects() <= old(manager.Objects()) && lockManager.Objects() <= old(lockManager.Objects())
              && Clients() <= old(Clients())
      ensures Valid() && Server.Linked(old(View()))
      ensures View() == Server.OnDisconnect(old(View()), client.conn)
    {
      ValidIsLinked();
      if client.conn in replicas {
        replicas := replicas - {client.conn};
        sessions := sessions - {client.conn};
        return;
      }
      ClientLeaves(client);
    }

    method ClientLeaves(client: Client)
      requires Valid() && Serves(client)
      modifies this`sessions, this`clients, lockManager, manager, client.sheet
      ensures manager.Objects() <= old(manager.Objects()) && lockManager.Objects() <= old(lockManager.Objects())
              && Clients() <= old(Clients())
      ensures Valid() && Server.Linked(old(View())) && client.conn in old(View()).conns
      ensures View() == match old(View()).conns[client.conn]
                        case None => Server.DropClient(old(View()), client.conn)
                        case Some(id) => Server.LeaveSheet(Server.DropClient(old(View()), client.conn), client.conn, id)
    {
      ValidIsLinked();
      assert Seated(client);
      DropClient(client);
      if client.sheet != null {
        LeaveSheet(client);
      }
    }

    // ----- timers

    method SweepSheet(id: string, now: int)
      requires Valid() && id in manager.sheets
      modifies manager.Objects()
      ensures Valid() && id in old(View()).sheets
      ensures View() == Server.PutCache(old(View()), id, Lru.Delete(old(View()).sheets[id].cache, Lru.ExpiredAt(now)))
    {
      manager.sheets[id].CleanupExpired(now);
      assert manager.View() == old(manager.View())[id := manager.sheets[id].View()];
    }

    method CleanLocks(now: int)
      requires Valid()
      modifies lockManager
      ensures lockManager.Objects() <= old(lockManager.Objects())
      ensures Valid() && View() == old(View()).(locks := Leases.CleanupExpired(old(View()).locks, now))
    {
      var count := lockManager.CleanupExpired(now);
    }

    /** Every object that serving a request may change. */
    ghost function Owned(): set<object>
      reads this, manager, lockManager
    {
      Clients() + manager.Objects() + lockManager.Objects()
    }

    /** Any step of the leader: the whole state afterwards is the value model's step of the whole state before. */
    method Step(ev: Server.Event, env: Server.Env)
      requires Valid()
      modifies this`sessions, this`clients, this`replicas, Owned(), manager, lockManager, net
      ensures fresh(Owned() - old(Owned()))
      ensures Valid() && Server.Linked(old(View()))
      ensures View() == Server.Step(cfg, old(View()), ev, env)
    {
      ValidIsLinked();
      match ev
      case Connect(c) => if c !in sessions { OnConnect(c); }
      case Act(c, req) => if c in sessions { HandleAction(sessions[c], req, env); }
      case Disconnect(c) => if c in sessions { OnDisconnect(sessions[c]); }
      case Sweep(id) => if id in manager.sheets { SweepSheet(id, env.now); }
      case CleanLocks => CleanLocks(env.now);
    }
  }

  /** The world with the sheet there and its password set. */
  function WithSheet(w: Server.World, id: string, password: string): Server.World {
    w.(sheets := w.sheets[id := Admitted(w.sheets, id, password)])
  }

  /** The world after a connection has left its seat. */
  function Vacated(w: Server.World, c: Conn, id: string): Server.World
    requires id in w.sheets
  {
    w.(sheets := w.sheets[id := w.sheets[id].(collaborators := w.sheets[id].collaborators - {c})])
  }

  lemma VacatedSheets(w: Server.World, c: Conn, id: string)
    requires id in w.sheets
    ensures Server.LeaveSheet(w, c, id)
            == var v := Vacated(w, c, id); if v.sheets[id].collaborators == {} then v.(sheets := v.sheets - {id}) else v
  {
  }

  function Greeted(w: Server.World, c: Conn, id: string, cache: Lru.State): Server.World {
    Server.Reply(Server.Reply(w, c, Server.Response(true, id, "", Null, 0, "", 0)), c,
                 Server.SheetState(Lru.Dump(cache.entries)))
  }

  lemma OpenInSteps(cfg: Server.Config, w: Server.World, c: Conn, id: string, password: string)
    requires cfg.capacity == CacheStore.DEFAULT_CAPACITY && c in w.conns && w.conns[c].None? && id != ""
            && password != ""
    requires id in w.sheets ==> Server.Verifies(w.sheets[id].hash, password)
    ensures Server.HandleOpen(cfg, w, c, id, password)
            == Greeted(Joined(WithSheet(w, id, password), c, id), c, id, Admitted(w.sheets, id, password).cache)
  {
  }

  /** The world after a connection has taken its seat in a sheet. */
  function Joined(w: Server.World, c: Conn, id: string): Server.World
    requires id in w.sheets
  {
    var joined := w.sheets[id].(collaborators := w.sheets[id].collaborators + {c});
    w.(sheets := w.sheets[id := joined], conns := w.conns[c := Some(id)])
  }
}
