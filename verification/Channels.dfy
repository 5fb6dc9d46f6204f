/** What everyone else hears of a request: the messages one step appends to the other connections' channels. */
module Channels {
  import opened Prelude
  import opened Server
  import Lru
  import Leases

  function When(b: bool, m: Message): seq<Message> {
    if b then [m] else []
  }

  lemma QueueAfterWriteAll(sent: Channels, targets: set<Conn>, m: Message, d: Conn)
    ensures Queue(WriteAll(sent, targets, m), d) == Queue(sent, d) + When(d in targets, m)
  {
  }

  /** What connection d hears when client c, in sheet `id`, makes a request. */
  function Heard(cfg: Config, w: World, c: Conn, id: string, req: Request, env: Env, d: Conn): seq<Message>
    requires id in w.sheets
  {
    var col, rep := d in w.sheets[id].collaborators, d in w.replicas;
    match req
    case Set(key, value, jitter) =>
      var evicted := Lru.Set(w.sheets[id].cache, key, value, ExpiresAt(cfg, jitter, env)).evicted;
      When(col, SetBroadcast(key, value)) + When(rep, Replicate(id, key, value, jitter))
          + HeardEviction(col, rep, id, evicted)
    case SetNull(key) =>
      var evicted := Lru.Set(w.sheets[id].cache, key, NULL_PLACEHOLDER, ExpiresAt(cfg, false, env)).evicted;
      When(rep, Replicate(id, key, NULL_PLACEHOLDER, false)) + HeardEviction(col, rep, id, evicted)
    case Delete(key) => When(col, Invalidate(key, "", "")) + When(rep, ReplicateDelete(id, key))
    case DeletePrefix(prefix) => When(col, Invalidate("", prefix, "")) + When(rep, ReplicateDeletePrefix(id, prefix))
    case DeleteSuffix(suffix) => When(col, Invalidate("", "", suffix)) + When(rep, ReplicateDeleteSuffix(id, suffix))
    case Lock(key, seconds) =>
      var ttl := if seconds > 0 then seconds else cfg.lockTtl;
      var granted := Leases.TryAcquire(w.locks, id, key, c, env.now, ttl).granted;
      if granted.None? then [] else When(rep, ReplicateLock(id, key, c, granted.value.expiresAt))
    case Unlock(key) => When(rep && Leases.Release(w.locks, id, key, c).error.None?, ReplicateUnlock(id, key))
    case _ => []
  }

  function HeardEviction(col: bool, rep: bool, id: string, evicted: string): seq<Message> {
    if evicted == "" then [] else When(col, Invalidate(evicted, "", "")) + When(rep, ReplicateEvict(id, evicted))
  }

  lemma Regroup<T>(q: seq<T>, a: seq<T>, b: seq<T>, c: seq<T>)
    ensures q + a + b + c == q + (a + b + c) && q + b + c == q + (b + c)
  {
  }

  lemma HeardMutate(w: World, c: Conn, id: string, cache: Lru.State, reply: Message, m: Message, rep: Message, d: Conn)
    requires id in w.sheets && d != c
    ensures Queue(Mutate(w, c, id, cache, reply, m, rep).sent, d)
            == Queue(w.sent, d) + When(d in w.sheets[id].collaborators, m) + When(d in w.replicas, rep)
  {
  }

  lemma HeardAnnounce(w: World, c: Conn, id: string, evicted: string, d: Conn)
    requires id in w.sheets && d != c
    ensures Queue(AnnounceEviction(w, c, id, evicted).sent, d)
            == Queue(w.sent, d) + HeardEviction(d in w.sheets[id].collaborators, d in w.replicas, id, evicted)
  {
  }

  lemma HeardSet(cfg: Config, w: World, c: Conn, id: string, key: string, value: Json, jitter: bool, env: Env, d: Conn)
    requires id in w.sheets && d != c
    ensures Queue(HandleSet(cfg, w, c, id, key, value, jitter, env).sent, d)
            == Queue(w.sent, d) + Heard(cfg, w, c, id, Set(key, value, jitter), env, d)
  {
    var r := Lru.Set(w.sheets[id].cache, key, value, ExpiresAt(cfg, jitter, env));
    var m, rep := SetBroadcast(key, value), Replicate(id, key, value, jitter);
    var w1 := Mutate(w, c, id, r.state, Ok(key), m, rep);
    HeardMutate(w, c, id, r.state, Ok(key), m, rep, d);
    MutateFrame(w, c, id, r.state, Ok(key), m, rep);
    HeardAnnounce(w1, c, id, r.evicted, d);
    var col, isRep := d in w.sheets[id].collaborators, d in w.replicas;
    Regroup(Queue(w.sent, d), When(col, m), When(isRep, rep), HeardEviction(col, isRep, id, r.evicted));
  }

  lemma HeardSetNull(cfg: Config, w: World, c: Conn, id: string, key: string, env: Env, d: Conn)
    requires id in w.sheets && d != c
    ensures Queue(HandleSetNull(cfg, w, c, id, key, env).sent, d)
            == Queue(w.sent, d) + Heard(cfg, w, c, id, SetNull(key), env, d)
  {
    var r := Lru.Set(w.sheets[id].cache, key, NULL_PLACEHOLDER, ExpiresAt(cfg, false, env));
    var w1 := Reply(PutCache(w, id, r.state), c, Ok(key));
    var rep := Replicate(id, key, NULL_PLACEHOLDER, false);
    QueueAfterWriteAll(w1.sent, w1.replicas, rep, d);
    HeardAnnounce(ToReplicas(w1, rep), c, id, r.evicted, d);
    var col, isRep := d in w.sheets[id].collaborators, d in w.replicas;
    Regroup(Queue(w.sent, d), [], When(isRep, rep), HeardEviction(col, isRep, id, r.evicted));
  }

  lemma HeardDelete(cfg: Config, w: World, c: Conn, id: string, key: string, env: Env, d: Conn)
    requires id in w.sheets && d != c
    ensures Queue(HandleDelete(w, c, id, key).sent, d) == Queue(w.sent, d) + Heard(cfg, w, c, id, Delete(key), env, d)
  {
    var after := Lru.Delete(w.sheets[id].cache, Lru.ByKey(key));
    HeardMutate(w, c, id, after, Deleted(key, 1), Invalidate(key, "", ""), ReplicateDelete(id, key), d);
  }

  lemma HeardDeletePrefix(cfg: Config, w: World, c: Conn, id: string, prefix: string, env: Env, d: Conn)
    requires id in w.sheets && d != c
    ensures Queue(HandleDeletePrefix(w, c, id, prefix).sent, d)
            == Queue(w.sent, d) + Heard(cfg, w, c, id, DeletePrefix(prefix), env, d)
  {
    var cache := w.sheets[id].cache;
    var after := Lru.Delete(cache, Lru.ByPrefix(prefix));
    HeardMutate(w, c, id, after, Removed(cache, after), Invalidate("", prefix, ""), ReplicateDeletePrefix(id, prefix),
                d);
  }

  lemma HeardDeleteSuffix(cfg: Config, w: World, c: Conn, id: string, suffix: string, env: Env, d: Conn)
    requires id in w.sheets && d != c
    ensures Queue(HandleDeleteSuffix(w, c, id, suffix).sent, d)
            == Queue(w.sent, d) + Heard(cfg, w, c, id, DeleteSuffix(suffix), env, d)
  {
    var cache := w.sheets[id].cache;
    var after := Lru.Delete(cache, Lru.BySuffix(suffix));
    HeardMutate(w, c, id, after, Removed(cache, after), Invalidate("", "", suffix), ReplicateDeleteSuffix(id, suffix),
                d);
  }

  lemma HeardOthers(cfg: Config, w: World, c: Conn, id: string, req: Request, env: Env, d: Conn)
    requires id in w.sheets && d != c
    requires !req.Set? && !req.SetNull? && !req.Delete? && !req.DeletePrefix? && !req.DeleteSuffix?
    ensures Queue(HandleInSheet(cfg, w, c, id, req, env).sent, d)
            == Queue(w.sent, d) + Heard(cfg, w, c, id, req, env, d)
  {
    match req
    case Lock(key, seconds) => HeardLock(cfg, w, c, id, key, seconds, env, d);
    case Unlock(key) => HeardUnlock(cfg, w, c, id, key, env, d);
    case _ =>
  }

  lemma HeardLock(cfg: Config, w: World, c: Conn, id: string, key: string, seconds: int, env: Env, d: Conn)
    requires id in w.sheets && d != c
    ensures Queue(HandleLock(cfg, w, c, id, key, seconds, env).sent, d)
            == Queue(w.sent, d) + Heard(cfg, w, c, id, Lock(key, seconds), env, d)
  {
  }

  lemma HeardUnlock(cfg: Config, w: World, c: Conn, id: string, key: string, env: Env, d: Conn)
    requires id in w.sheets && d != c
    ensures Queue(HandleUnlock(w, c, id, key).sent, d) == Queue(w.sent, d) + Heard(cfg, w, c, id, Unlock(key), env, d)
  {
  }

  /** Exactly these messages, in this order, reach every connection but the one that asked. */
  lemma HeardExactly(cfg: Config, w: World, c: Conn, id: string, req: Request, env: Env, d: Conn)
    requires id in w.sheets && d != c
    ensures Queue(HandleInSheet(cfg, w, c, id, req, env).sent, d)
            == Queue(w.sent, d) + Heard(cfg, w, c, id, req, env, d)
  {
    match req
    case Set(key, value, jitter) => HeardSet(cfg, w, c, id, key, value, jitter, env, d);
    case SetNull(key) => HeardSetNull(cfg, w, c, id, key, env, d);
    case Delete(key) => HeardDelete(cfg, w, c, id, key, env, d);
    case DeletePrefix(prefix) => HeardDeletePrefix(cfg, w, c, id, prefix, env, d);
    case DeleteSuffix(suffix) => HeardDeleteSuffix(cfg, w, c, id, suffix, env, d);
    case _ => HeardOthers(cfg, w, c, id, req, env, d);
  }

  /** What a step appends to the channel of a connection that does not act itself. */
  function Appended(cfg: Config, w: World, ev: Event, env: Env, d: Conn): seq<Message>
    requires Linked(w)
  {
    if ev.Act? && ev.c in w.conns && w.conns[ev.c].Some? && !ev.req.Open? && !ev.req.RegisterReplica?
    then Heard(cfg, w, ev.c, w.conns[ev.c].value, ev.req, env, d)
    else []
  }

  predicate ActsItself(ev: Event, d: Conn) {
    (ev.Act? || ev.Connect? || ev.Disconnect?) && ev.c == d
  }

  lemma OpenAppended(cfg: Config, w: World, c: Conn, sheet: string, password: string, d: Conn)
    requires c in w.conns && c != d
    ensures Queue(HandleOpen(cfg, w, c, sheet, password).sent, d) == Queue(w.sent, d)
  {
  }

  lemma ActionAppended(cfg: Config, w: World, c: Conn, req: Request, env: Env, d: Conn)
    requires Linked(w) && c in w.conns && c != d
    ensures Queue(HandleAction(cfg, w, c, req, env).sent, d) == Queue(w.sent, d) + Appended(cfg, w, Act(c, req), env, d)
  {
    match req
    case Open(sheet, password) => OpenAppended(cfg, w, c, sheet, password, d);
    case RegisterReplica(instanceId, validTime) =>
    case _ => if w.conns[c].Some? { HeardExactly(cfg, w, c, w.conns[c].value, req, env, d); }
  }

  lemma AppendedExactly(cfg: Config, w: World, ev: Event, env: Env, d: Conn)
    requires Linked(w) && !ActsItself(ev, d)
    ensures Queue(Step(cfg, w, ev, env).sent, d) == Queue(w.sent, d) + Appended(cfg, w, ev, env, d)
  {
    if ev.Act? && ev.c in w.conns { ActionAppended(cfg, w, ev.c, ev.req, env, d); }
  }

  /** What a step has added to a channel. */
  function Fresh(w: World, w': World, d: Conn): seq<Message> {
    if |Queue(w.sent, d)| <= |Queue(w'.sent, d)| then Queue(w'.sent, d)[|Queue(w.sent, d)|..] else []
  }
}
