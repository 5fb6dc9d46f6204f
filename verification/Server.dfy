/**
 The leader of ws/handler.go as a plain value, one client request (or disconnect, or timer) per step.
 `sent` holds, per connection, every message written to it so far: each connection is a FIFO channel.
 Connections are named by their address, which is also the owner id of their locks.
 */
module Server {
  import opened Prelude
  import Lru
  import Leases

  type Conn = string

  datatype Message =
    | Response(success: bool, sheet: string, key: string, value: Json, deleted: int, error: string, count: int)
    | SheetState(data: map<string, Json>)
    | SetBroadcast(key: string, value: Json)                              // "replicate" to collaborators
    | Invalidate(key: string, prefix: string, suffix: string)
    | FullState(sheets: map<string, map<string, Json>>)
    | Replicate(sheet: string, key: string, value: Json, jitter: bool)   // "replicate" to replicas
    | ReplicateDelete(sheet: string, key: string)
    | ReplicateDeletePrefix(sheet: string, prefix: string)
    | ReplicateDeleteSuffix(sheet: string, suffix: string)
    | ReplicateLock(sheet: string, key: string, owner: string, expiresAt: int)
    | ReplicateUnlock(sheet: string, key: string)
    | ReplicateEvict(sheet: string, key: string)

  type Channels = map<Conn, seq<Message>>

  datatype Request =
    | Open(sheet: string, password: string)
    | RegisterReplica(instanceId: string, validTime: bool)
    | Get(key: string)
    | Set(key: string, value: Json, jitter: bool)
    | Delete(key: string)
    | DeletePrefix(prefix: string)
    | DeleteSuffix(suffix: string)
    | DumpAll
    | Lock(key: string, ttl: int)
    | Unlock(key: string)
    | SetNull(key: string)
    | Unknown(action: string)

  /** A stored hash verifies exactly the password it was made from; None is a replica sheet that has no hash yet. */
  datatype Sheet = Sheet(hash: Option<string>, cache: Lru.State, collaborators: set<Conn>)

  datatype World = World(
    sheets: map<string, Sheet>,
    conns: map<Conn, Option<string>>,  // live connections and the sheet each has open
    clients: set<Conn>,
    replicas: set<Conn>,
    locks: Leases.Table,
    sent: Channels)

  /** Settings: the capacity of a new sheet's cache and the default lifetimes. */
  datatype Config = Config(capacity: int, cacheTtl: int, lockTtl: int)

  /** What a step reads from outside: the clock, a second reading of it, and the jitter drawn. */
  datatype Env = Env(now: int, later: int, jitter: int)

  const NULL_PLACEHOLDER := Text("__NULL__")

  // ----- messages

  function Ok(key: string): Message { Response(true, "", key, Null, 0, "", 0) }
  function Deleted(key: string, count: int): Message { Response(true, "", key, Null, count, "", 0) }
  function Removed(before: Lru.State, after: Lru.State): Message { Deleted("", |before.entries| - |after.entries|) }
  function Err(error: string): Message { Response(false, "", "", Null, 0, error, 0) }

  function Queue(sent: Channels, c: Conn): seq<Message> {
    if c in sent then sent[c] else []
  }

  function Write(sent: Channels, c: Conn, m: Message): Channels {
    sent[c := Queue(sent, c) + [m]]
  }

  /** One message to each of several connections, in whatever order the loop takes them. */
  function WriteAll(sent: Channels, targets: set<Conn>, m: Message): Channels {
    map c | c in sent.Keys + targets :: if c in targets then Queue(sent, c) + [m] else sent[c]
  }

  function Reply(w: World, c: Conn, m: Message): World {
    w.(sent := Write(w.sent, c, m))
  }

  /** Broadcast to the collaborators of a sheet except the sender. */
  function Broadcast(w: World, id: string, sender: Conn, m: Message): World
    requires id in w.sheets
  {
    w.(sent := WriteAll(w.sent, w.sheets[id].collaborators - {sender}, m))
  }

  function ToReplicas(w: World, m: Message): World {
    w.(sent := WriteAll(w.sent, w.replicas, m))
  }

  function PutCache(w: World, id: string, cache: Lru.State): World
    requires id in w.sheets
  {
    w.(sheets := w.sheets[id := w.sheets[id].(cache := cache)])
  }

  /** Who is told of a change, in turn: the sender, the other collaborators, the replicas. */
  function Announce(w: World, c: Conn, id: string, reply: Message, broadcast: Message, replicate: Message): World
    requires id in w.sheets
  {
    ToReplicas(Broadcast(Reply(w, c, reply), id, c, broadcast), replicate)
  }

  /** What every mutating request does: a new cache, and everybody is told. */
  function Mutate(w: World, c: Conn, id: string, cache: Lru.State, reply: Message, broadcast: Message,
                  replicate: Message): World
    requires id in w.sheets
  {
    Announce(PutCache(w, id, cache), c, id, reply, broadcast, replicate)
  }

  // ----- requests

  function Verifies(hash: Option<string>, password: string): bool {
    hash.None? || hash.value == password
  }

  function HandleOpen(cfg: Config, w: World, c: Conn, id: string, password: string): World
    requires c in w.conns
  {
    if w.conns[c].Some? then Reply(w, c, Err("already in sheet: " + w.conns[c].value))
    else if id == "" || password == "" then Reply(w, c, Err("sheet and password required"))
    else if id in w.sheets && !Verifies(w.sheets[id].hash, password) then Reply(w, c, Err("invalid password"))
    else
      var sheet := if id in w.sheets then w.sheets[id] else Sheet(None, Lru.State([], cfg.capacity), {});
      var joined := Sheet(Some(password), sheet.cache, sheet.collaborators + {c});
      var w1 := w.(sheets := w.sheets[id := joined], conns := w.conns[c := Some(id)]);
      Reply(Reply(w1, c, Response(true, id, "", Null, 0, "", 0)), c, SheetState(Lru.Dump(sheet.cache.entries)))
  }

  function FullStateOf(w: World): Message {
    FullState(map id | id in w.sheets :: Lru.Dump(w.sheets[id].cache.entries))
  }

  function HandleRegisterReplica(w: World, c: Conn, instanceId: string, validTime: bool): World {
    if !validTime then Reply(w, c, Err("invalid started_at timestamp (use RFC3339)"))
    else if instanceId == "" then Reply(w, c, Err("instance_id required"))
    else
      var w1 := w.(replicas := w.replicas + {c}, clients := w.clients - {c});
      Reply(Reply(w1, c, FullStateOf(w1)), c, Ok(""))
  }

  function HandleGet(w: World, c: Conn, id: string, key: string, env: Env): World
    requires id in w.sheets
  {
    var r := Lru.Get(w.sheets[id].cache, key, env.now);
    var w1 := PutCache(w, id, r.state);
    match r.found
    case None => Reply(w1, c, Err("key not found"))
    case Some(value) => Reply(w1, c, Response(true, "", key, value, 0, "", 0))
  }

  /** The shared end of set and set_null: an eviction is told to the collaborators and then to the replicas. */
  function AnnounceEviction(w: World, c: Conn, id: string, evicted: string): World
    requires id in w.sheets
  {
    if evicted == "" then w
    else ToReplicas(Broadcast(w, id, c, Invalidate(evicted, "", "")), ReplicateEvict(id, evicted))
  }

  /** A set expires one cache lifetime from now, plus the jitter drawn if the client asked for it. */
  function ExpiresAt(cfg: Config, jitter: bool, env: Env): int {
    env.now + if jitter then cfg.cacheTtl + env.jitter else cfg.cacheTtl
  }

  function HandleSet(cfg: Config, w: World, c: Conn, id: string, key: string, value: Json, jitter: bool,
                     env: Env): World
    requires id in w.sheets
  {
    var r := Lru.Set(w.sheets[id].cache, key, value, ExpiresAt(cfg, jitter, env));
    var w1 := Mutate(w, c, id, r.state, Ok(key), SetBroadcast(key, value), Replicate(id, key, value, jitter));
    AnnounceEviction(w1, c, id, r.evicted)
  }

  function HandleSetNull(cfg: Config, w: World, c: Conn, id: string, key: string, env: Env): World
    requires id in w.sheets
  {
    var r := Lru.Set(w.sheets[id].cache, key, NULL_PLACEHOLDER, ExpiresAt(cfg, false, env));
    var w1 := Reply(PutCache(w, id, r.state), c, Ok(key));
    var w2 := ToReplicas(w1, Replicate(id, key, NULL_PLACEHOLDER, false));
    AnnounceEviction(w2, c, id, r.evicted)
  }

  function HandleDelete(w: World, c: Conn, id: string, key: string): World
    requires id in w.sheets
  {
    var cache := Lru.Delete(w.sheets[id].cache, Lru.ByKey(key));
    Mutate(w, c, id, cache, Deleted(key, 1), Invalidate(key, "", ""), ReplicateDelete(id, key))
  }

  function HandleDeletePrefix(w: World, c: Conn, id: string, prefix: string): World
    requires id in w.sheets
  {
    var cache := Lru.Delete(w.sheets[id].cache, Lru.ByPrefix(prefix));
    Mutate(w, c, id, cache, Removed(w.sheets[id].cache, cache), Invalidate("", prefix, ""),
           ReplicateDeletePrefix(id, prefix))
  }

  function HandleDeleteSuffix(w: World, c: Conn, id: string, suffix: string): World
    requires id in w.sheets
  {
    var cache := Lru.Delete(w.sheets[id].cache, Lru.BySuffix(suffix));
    Mutate(w, c, id, cache, Removed(w.sheets[id].cache, cache), Invalidate("", "", suffix),
           ReplicateDeleteSuffix(id, suffix))
  }

  function HandleDump(w: World, c: Conn, id: string): World
    requires id in w.sheets
  {
    var data := Lru.Dump(w.sheets[id].cache.entries);
    Reply(w, c, Response(true, "", "", Object(data), 0, "", |data|))
  }

  function HandleLock(cfg: Config, w: World, c: Conn, id: string, key: string, seconds: int, env: Env): World {
    var ttl := if seconds > 0 then seconds else cfg.lockTtl;
    var r := Leases.TryAcquire(w.locks, id, key, c, env.now, ttl);
    match r.granted
    case None =>
      if Leases.IsLocked(w.locks, id, key, env.later).Some?
      then Reply(w, c, Response(false, "", key, Null, 0, "lock held by another client", 0))
      else Reply(w, c, Err("lock held by another client"))
    case Some(lease) =>
      ToReplicas(Reply(w.(locks := r.table), c, Ok(key)), ReplicateLock(id, key, c, lease.expiresAt))
  }

  function HandleUnlock(w: World, c: Conn, id: string, key: string): World {
    var r := Leases.Release(w.locks, id, key, c);
    match r.error
    case None => ToReplicas(Reply(w.(locks := r.table), c, Ok(key)), ReplicateUnlock(id, key))
    case Some(NotOwner) => Reply(w, c, Err("not lock owner"))
    case Some(_) => Reply(w, c, Err("lock not found"))
  }

  /** The requests that need an open sheet. */
  function HandleInSheet(cfg: Config, w: World, c: Conn, id: string, req: Request, env: Env): World
    requires id in w.sheets
  {
    match req
    case Get(key) => HandleGet(w, c, id, key, env)
    case Set(key, value, jitter) => HandleSet(cfg, w, c, id, key, value, jitter, env)
    case Delete(key) => HandleDelete(w, c, id, key)
    case DeletePrefix(prefix) => HandleDeletePrefix(w, c, id, prefix)
    case DeleteSuffix(suffix) => HandleDeleteSuffix(w, c, id, suffix)
    case DumpAll => HandleDump(w, c, id)
    case Lock(key, ttl) => HandleLock(cfg, w, c, id, key, ttl, env)
    case Unlock(key) => HandleUnlock(w, c, id, key)
    case SetNull(key) => HandleSetNull(cfg, w, c, id, key, env)
    case Unknown(action) => Reply(w, c, Err("unknown action: " + action))
    case _ => w
  }

  /** Every connection with a sheet open is a collaborator of it. This is all the handlers rely on. */
  ghost predicate Linked(w: World) {
    forall c :: c in w.conns && w.conns[c].Some? ==>
      w.conns[c].value in w.sheets && c in w.sheets[w.conns[c].value].collaborators
  }

  function HandleAction(cfg: Config, w: World, c: Conn, req: Request, env: Env): World
    requires Linked(w) && c in w.conns
  {
    match req
    case Open(id, password) => HandleOpen(cfg, w, c, id, password)
    case RegisterReplica(instanceId, validTime) => HandleRegisterReplica(w, c, instanceId, validTime)
    case _ =>
      match w.conns[c]
      case None => Reply(w, c, Err("must open sheet first"))
      case Some(id) => HandleInSheet(cfg, w, c, id, req, env)
  }

  function OnConnect(w: World, c: Conn): World {
    w.(conns := w.conns[c := None], clients := w.clients + {c}, sent := w.sent[c := []])
  }

  /** The client's locks, registration and connection go away. */
  function DropClient(w: World, c: Conn): World {
    w.(locks := Leases.ReleaseAllByOwner(w.locks, c), clients := w.clients - {c}, conns := w.conns - {c})
  }

  /** The last collaborator to leave deletes the sheet. */
  function LeaveSheet(w: World, c: Conn, id: string): World
    requires id in w.sheets
  {
    var remaining := w.sheets[id].collaborators - {c};
    if remaining == {} then w.(sheets := w.sheets - {id})
    else w.(sheets := w.sheets[id := w.sheets[id].(collaborators := remaining)])
  }

  function OnDisconnect(w: World, c: Conn): World
    requires Linked(w) && c in w.conns
  {
    if c in w.replicas then w.(replicas := w.replicas - {c}, conns := w.conns - {c})
    else
      match w.conns[c]
      case None => DropClient(w, c)
      case Some(id) => LeaveSheet(DropClient(w, c), c, id)
  }

  // ----- steps

  datatype Event =
    | Connect(c: Conn)
    | Act(c: Conn, req: Request)
    | Disconnect(c: Conn)
    | Sweep(sheet: string)    // one TTL sweep of one sheet's cache
    | CleanLocks              // one tick of the lock cleanup

  /** Events that cannot happen (a request on a dead connection, a second connect) leave the world alone. */
  function Step(cfg: Config, w: World, ev: Event, env: Env): World
    requires Linked(w)
  {
    match ev
    case Connect(c) => if c in w.conns then w else OnConnect(w, c)
    case Act(c, req) => if c in w.conns then HandleAction(cfg, w, c, req, env) else w
    case Disconnect(c) => if c in w.conns then OnDisconnect(w, c) else w
    case Sweep(id) =>
      if id in w.sheets then PutCache(w, id, Lru.Delete(w.sheets[id].cache, Lru.ExpiredAt(env.now))) else w
    case CleanLocks => w.(locks := Leases.CleanupExpired(w.locks, env.now))
  }

  /** The effect of a request on the cache of its sheet. */
  function CacheAfter(cfg: Config, cache: Lru.State, req: Request, env: Env): Lru.State {
    match req
    case Get(key) => Lru.Get(cache, key, env.now).state
    case Set(key, value, jitter) => Lru.Set(cache, key, value, ExpiresAt(cfg, jitter, env)).state
    case SetNull(key) => Lru.Set(cache, key, NULL_PLACEHOLDER, ExpiresAt(cfg, false, env)).state
    case Delete(key) => Lru.Delete(cache, Lru.ByKey(key))
    case DeletePrefix(prefix) => Lru.Delete(cache, Lru.ByPrefix(prefix))
    case DeleteSuffix(suffix) => Lru.Delete(cache, Lru.BySuffix(suffix))
    case _ => cache
  }

  ghost predicate SameButSent(w: World, w': World) {
    w' == w.(sent := w'.sent)
  }

  lemma MutateFrame(w: World, c: Conn, id: string, cache: Lru.State, reply: Message, broadcast: Message,
                    replicate: Message)
    requires id in w.sheets
    ensures id in Mutate(w, c, id, cache, reply, broadcast, replicate).sheets
    ensures SameButSent(PutCache(w, id, cache), Mutate(w, c, id, cache, reply, broadcast, replicate))
  {
  }

  /** A request in a sheet changes that sheet's cache, the locks and the channels, and nothing else. */
  lemma InSheetFrame(cfg: Config, w: World, c: Conn, id: string, req: Request, env: Env)
    requires id in w.sheets
    ensures var w' := HandleInSheet(cfg, w, c, id, req, env);
            SameButSent(PutCache(w, id, CacheAfter(cfg, w.sheets[id].cache, req, env)).(locks := w'.locks), w')
    ensures req.Lock? || req.Unlock? || HandleInSheet(cfg, w, c, id, req, env).locks == w.locks
  {
    match req
    case Set(key, value, jitter) => SetFrame(cfg, w, c, id, key, value, jitter, env);
    case SetNull(key) => SetNullFrame(cfg, w, c, id, key, env);
    case Delete(_) =>
    case DeletePrefix(_) =>
    case DeleteSuffix(_) =>
    case _ => PutSame(w, id);
  }

  lemma PutSame(w: World, id: string)
    requires id in w.sheets
    ensures PutCache(w, id, w.sheets[id].cache) == w
  {
  }

  lemma SetFrame(cfg: Config, w: World, c: Conn, id: string, key: string, value: Json, jitter: bool, env: Env)
    requires id in w.sheets
    ensures SameButSent(PutCache(w, id, CacheAfter(cfg, w.sheets[id].cache, Set(key, value, jitter), env)),
                        HandleSet(cfg, w, c, id, key, value, jitter, env))
  {
  }

  lemma SetNullFrame(cfg: Config, w: World, c: Conn, id: string, key: string, env: Env)
    requires id in w.sheets
    ensures SameButSent(PutCache(w, id, CacheAfter(cfg, w.sheets[id].cache, SetNull(key), env)),
                        HandleSetNull(cfg, w, c, id, key, env))
  {
  }

  /** Who is connected, who collaborates where and every password stay as they are. */
  ghost predicate SameMembership(w: World, w': World) {
    && w'.conns == w.conns && w'.clients == w.clients && w'.replicas == w.replicas
    && w'.sheets.Keys == w.sheets.Keys
    && (forall id :: id in w.sheets ==>
          w'.sheets[id].collaborators == w.sheets[id].collaborators && w'.sheets[id].hash == w.sheets[id].hash)
  }

  lemma InSheetMembership(cfg: Config, w: World, c: Conn, id: string, req: Request, env: Env)
    requires id in w.sheets
    ensures SameMembership(w, HandleInSheet(cfg, w, c, id, req, env))
  {
    InSheetFrame(cfg, w, c, id, req, env);
  }

  lemma InSheetCaches(cfg: Config, w: World, c: Conn, id: string, req: Request, env: Env)
    requires id in w.sheets
    ensures var w' := HandleInSheet(cfg, w, c, id, req, env);
            && w'.sheets.Keys == w.sheets.Keys
            && w'.sheets[id].cache == CacheAfter(cfg, w.sheets[id].cache, req, env)
            && (forall i :: i in w.sheets && i != id ==> w'.sheets[i] == w.sheets[i])
  {
    InSheetFrame(cfg, w, c, id, req, env);
  }

  lemma OpenKeepsLinked(cfg: Config, w: World, c: Conn, id: string, password: string)
    requires Linked(w) && c in w.conns
    ensures Linked(HandleOpen(cfg, w, c, id, password))
  {
  }

  /** Only an open and a registration change who is where. */
  lemma ActionMembership(cfg: Config, w: World, c: Conn, req: Request, env: Env)
    requires Linked(w) && c in w.conns && !req.Open? && !req.RegisterReplica?
    ensures SameMembership(w, HandleAction(cfg, w, c, req, env))
  {
    if w.conns[c].Some? { InSheetMembership(cfg, w, c, w.conns[c].value, req, env); }
  }

  lemma ActionKeepsLinked(cfg: Config, w: World, c: Conn, req: Request, env: Env)
    requires Linked(w) && c in w.conns
    ensures Linked(HandleAction(cfg, w, c, req, env))
  {
    match req
    case Open(id, password) => OpenKeepsLinked(cfg, w, c, id, password);
    case RegisterReplica(_, _) =>
    case _ => ActionMembership(cfg, w, c, req, env);
  }

  lemma DisconnectKeepsLinked(w: World, c: Conn)
    requires Linked(w) && c in w.conns
    ensures Linked(OnDisconnect(w, c))
  {
  }

  lemma StepKeepsLinked(cfg: Config, w: World, ev: Event, env: Env)
    requires Linked(w)
    ensures Linked(Step(cfg, w, ev, env))
  {
    match ev
    case Act(c, req) => if c in w.conns { ActionKeepsLinked(cfg, w, c, req, env); }
    case Disconnect(c) => if c in w.conns { DisconnectKeepsLinked(w, c); }
    case _ =>
  }

  const EMPTY := World(map[], map[], {}, {}, map[], map[])
}
