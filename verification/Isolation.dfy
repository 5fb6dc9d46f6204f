/** Tenant isolation: taking every other tenant's connections out of a run changes nothing a tenant can see. */
module Isolation {
  import opened Prelude
  import opened Server
  import opened Session
  import Lru
  import Leases

  /** The run as the kept connections, the TTL sweeps and the lock cleanups make it. */
  function Project(trace: Trace, kept: set<Conn>): Trace
    decreases trace
  {
    if trace == [] then []
    else (if Kept(trace[0].0, kept) then [trace[0]] else []) + Project(trace[1..], kept)
  }

  predicate Kept(ev: Event, kept: set<Conn>) {
    match ev
    case Connect(c) => c in kept
    case Act(c, _) => c in kept
    case Disconnect(c) => c in kept
    case _ => true
  }

  /** A sheet whose collaborators are all kept, and one with an outsider among them. */
  predicate Ours(w: World, id: string, kept: set<Conn>) {
    id in w.sheets && w.sheets[id].collaborators <= kept
  }

  predicate Theirs(w: World, id: string, kept: set<Conn>) {
    id in w.sheets && !(w.sheets[id].collaborators <= kept)
  }

  /** What the kept connections can see of a world: their sheets and locks, themselves and their channels. */
  function Restrict(w: World, kept: set<Conn>): World {
    World(
      map i | i in w.sheets && w.sheets[i].collaborators <= kept :: w.sheets[i],
      map c | c in w.conns && c in kept :: w.conns[c],
      w.clients * kept,
      w.replicas * kept,
      map ck | ck in w.locks && w.locks[ck].owner in kept :: w.locks[ck],
      map c | c in w.sent && c in kept :: w.sent[c])
  }

  /** The bookkeeping is in order; no sheet is shared between kept connections and outsiders, no two ids of the two
      groups collide, and a kept replica, which hears of every sheet, has no sheet of theirs to hear of. */
  ghost predicate Separated(w: World, kept: set<Conn>) {
    && Bookkeeping(w)
    && (forall id :: id in w.sheets ==> w.sheets[id].collaborators <= kept || w.sheets[id].collaborators !! kept)
    && (forall a, b :: Ours(w, a, kept) && Theirs(w, b, kept) ==> !Leases.Collide(a, b))
    && (w.replicas !! kept || AllOurs(w, kept))
  }

  ghost predicate AllOurs(w: World, kept: set<Conn>) {
    forall id :: id in w.sheets ==> w.sheets[id].collaborators <= kept
  }

  /** A connection without a sheet asks, in a well-formed request, for a sheet that others have open. */
  predicate StrayOpen(w: World, c: Conn, sheet: string, password: string, kept: set<Conn>) {
    c in w.conns && w.conns[c].None? && sheet != "" && password != "" && Theirs(w, sheet, kept)
  }

  /** No connection takes both roles, and what the event opens or registers does not bring the groups together. */
  ghost predicate Proper(w: World, ev: Event, kept: set<Conn>) {
    && !TakesBothRoles(w, ev)
    && (ev.Act? && ev.c in w.conns ==>
          match ev.req
          case RegisterReplica(instanceId, validTime) =>
            ev.c in kept && validTime && instanceId != "" ==> AllOurs(w, kept)
          case Open(sheet, password) =>
            && (ev.c in kept ==> !StrayOpen(w, ev.c, sheet, password, kept))
            && (Opens(w, ev.c, sheet, password) ==> Fits(w, ev.c, sheet, kept))
          case _ => true)
  }

  /** The id collides with no sheet of the other group, and no kept replica is there to hear of an outsider's sheet. */
  ghost predicate Fits(w: World, c: Conn, sheet: string, kept: set<Conn>) {
    if c in kept then forall b :: Theirs(w, b, kept) ==> !Leases.Collide(sheet, b)
    else (forall a :: Ours(w, a, kept) ==> !Leases.Collide(a, sheet)) && w.replicas !! kept
  }

  ghost predicate ProperRun(cfg: Config, w: World, trace: Trace, kept: set<Conn>)
    requires Linked(w)
    decreases trace
  {
    if trace == [] then true
    else
      StepKeepsLinked(cfg, w, trace[0].0, trace[0].1);
      Proper(w, trace[0].0, kept) && ProperRun(cfg, Step(cfg, w, trace[0].0, trace[0].1), trace[1..], kept)
  }

  // ----- the pieces of a handler commute with the restriction

  lemma RestrictReply(w: World, kept: set<Conn>, c: Conn, m: Message)
    ensures Restrict(Reply(w, c, m), kept)
            == if c in kept then Reply(Restrict(w, kept), c, m) else Restrict(w, kept)
  {
  }

  /** A message to several connections, all of them kept or none. */
  lemma RestrictWriteAll(w: World, kept: set<Conn>, targets: set<Conn>, m: Message)
    requires targets <= kept || targets !! kept
    ensures Restrict(w.(sent := WriteAll(w.sent, targets, m)), kept)
            == var s := Restrict(w, kept); if targets <= kept then s.(sent := WriteAll(s.sent, targets, m)) else s
  {
  }

  lemma RestrictBroadcast(w: World, id: string, kept: set<Conn>, c: Conn, m: Message)
    requires Ours(w, id, kept)
    ensures id in Restrict(w, kept).sheets
    ensures Restrict(Broadcast(w, id, c, m), kept) == Broadcast(Restrict(w, kept), id, c, m)
  {
  }

  lemma RestrictPut(w: World, id: string, kept: set<Conn>, cache: Lru.State)
    requires Ours(w, id, kept)
    ensures id in Restrict(w, kept).sheets
    ensures Restrict(PutCache(w, id, cache), kept) == PutCache(Restrict(w, kept), id, cache)
  {
    assert Restrict(PutCache(w, id, cache), kept).sheets == PutCache(Restrict(w, kept), id, cache).sheets;
  }

  /** What replicas are told is heard by the kept ones. */
  lemma RestrictReplicas(w: World, kept: set<Conn>, m: Message)
    ensures Restrict(ToReplicas(w, m), kept) == ToReplicas(Restrict(w, kept), m)
  {
  }

  lemma ReplicasUnseen(w: World, kept: set<Conn>, m: Message)
    requires w.replicas !! kept
    ensures Restrict(ToReplicas(w, m), kept) == Restrict(w, kept)
  {
    RestrictWriteAll(w, kept, w.replicas, m);
  }

  /** The common tail of every mutating handler: a cache put, a reply, a broadcast and a message to the replicas. */
  lemma RestrictMutation(w: World, id: string, kept: set<Conn>, c: Conn, cache: Lru.State, reply: Message, m: Message,
                         rep: Message)
    requires Ours(w, id, kept) && c in kept
    ensures var r := Restrict(w, kept);
            && id in r.sheets
            && Restrict(Mutate(w, c, id, cache, reply, m, rep), kept) == Mutate(r, c, id, cache, reply, m, rep)
  {
    var r := Restrict(w, kept);
    RestrictPut(w, id, kept, cache);
    RestrictReply(PutCache(w, id, cache), kept, c, reply);
    var w1, r1 := Reply(PutCache(w, id, cache), c, reply), Reply(PutCache(r, id, cache), c, reply);
    assert Ours(w1, id, kept);
    RestrictBroadcast(w1, id, kept, c, m);
    RestrictReplicas(Broadcast(w1, id, c, m), kept, rep);
  }

  lemma RestrictEviction(w: World, id: string, kept: set<Conn>, c: Conn, evicted: string)
    requires Ours(w, id, kept)
    ensures id in Restrict(w, kept).sheets
    ensures Restrict(AnnounceEviction(w, c, id, evicted), kept)
            == AnnounceEviction(Restrict(w, kept), c, id, evicted)
  {
    var r, m := Restrict(w, kept), Invalidate(evicted, "", "");
    if evicted != "" {
      RestrictBroadcast(w, id, kept, c, m);
      RestrictReplicas(Broadcast(w, id, c, m), kept, ReplicateEvict(id, evicted));
    }
  }

  // ----- a kept connection acts in a sheet of its own

  lemma RestrictMutateEvict(w: World, id: string, kept: set<Conn>, c: Conn, cache: Lru.State, reply: Message,
                            m: Message, rep: Message, evicted: string)
    requires Ours(w, id, kept) && c in kept
    ensures var r := Restrict(w, kept);
            && id in r.sheets && id in Mutate(w, c, id, cache, reply, m, rep).sheets
                && id in Mutate(r, c, id, cache, reply, m, rep).sheets
            && Restrict(AnnounceEviction(Mutate(w, c, id, cache, reply, m, rep), c, id, evicted), kept)
               == AnnounceEviction(Mutate(r, c, id, cache, reply, m, rep), c, id, evicted)
  {
    RestrictMutation(w, id, kept, c, cache, reply, m, rep);
    MutateFrame(w, c, id, cache, reply, m, rep);
    MutateFrame(Restrict(w, kept), c, id, cache, reply, m, rep);
    var w1 := Mutate(w, c, id, cache, reply, m, rep);
    assert Ours(w1, id, kept);
    RestrictEviction(w1, id, kept, c, evicted);
  }

  lemma RestrictSet(cfg: Config, w: World, id: string, kept: set<Conn>, c: Conn, key: string, value: Json,
                    jitter: bool, env: Env)
    requires Ours(w, id, kept) && c in kept
    ensures id in Restrict(w, kept).sheets
    ensures Restrict(HandleSet(cfg, w, c, id, key, value, jitter, env), kept)
            == HandleSet(cfg, Restrict(w, kept), c, id, key, value, jitter, env)
  {
    var r := Lru.Set(w.sheets[id].cache, key, value, ExpiresAt(cfg, jitter, env));
    assert Restrict(w, kept).sheets[id].cache == w.sheets[id].cache;
    RestrictMutateEvict(w, id, kept, c, r.state, Ok(key), SetBroadcast(key, value), Replicate(id, key, value, jitter),
                        r.evicted);
  }

  lemma RestrictSetNull(cfg: Config, w: World, id: string, kept: set<Conn>, c: Conn, key: string, env: Env)
    requires Ours(w, id, kept) && c in kept
    ensures id in Restrict(w, kept).sheets
    ensures Restrict(HandleSetNull(cfg, w, c, id, key, env), kept)
            == HandleSetNull(cfg, Restrict(w, kept), c, id, key, env)
  {
    var r := Lru.Set(w.sheets[id].cache, key, NULL_PLACEHOLDER, ExpiresAt(cfg, false, env));
    var w1 := PutCache(w, id, r.state);
    RestrictPut(w, id, kept, r.state);
    RestrictReply(w1, kept, c, Ok(key));
    var rep := Replicate(id, key, NULL_PLACEHOLDER, false);
    RestrictReplicas(Reply(w1, c, Ok(key)), kept, rep);
    RestrictEviction(ToReplicas(Reply(w1, c, Ok(key)), rep), id, kept, c, r.evicted);
  }

  /** A slot of a sheet is held by a kept connection exactly if the sheet is one of ours. */
  lemma SlotOwner(w: World, kept: set<Conn>, sheet: string, key: string)
    requires Separated(w, kept) && sheet in w.sheets
    ensures var ck := Leases.CompositeKey(sheet, key);
            ck in w.locks ==> (w.locks[ck].owner in kept <==> Ours(w, sheet, kept))
  {
    var ck := Leases.CompositeKey(sheet, key);
    if ck in w.locks {
      var lease := w.locks[ck];
      assert w.conns[lease.owner] == Some(lease.sheet) && lease.owner in w.sheets[lease.sheet].collaborators;
      assert Leases.CompositeKey(sheet, key) == Leases.CompositeKey(lease.sheet, lease.key);
      Leases.CollisionsExactly(sheet, lease.sheet);
      Leases.CollisionsExactly(lease.sheet, sheet);
      if Ours(w, sheet, kept) { assert !Theirs(w, lease.sheet, kept); } else { assert !Ours(w, lease.sheet, kept); }
    }
  }

  /** The kept connections see the slots of their sheets as they are. */
  lemma SameSlot(w: World, id: string, kept: set<Conn>, key: string)
    requires Separated(w, kept) && Ours(w, id, kept)
    ensures var ck, r := Leases.CompositeKey(id, key), Restrict(w, kept);
            (ck in r.locks <==> ck in w.locks) && (ck in w.locks ==> r.locks[ck] == w.locks[ck])
  {
    SlotOwner(w, kept, id, key);
  }

  ghost predicate AgreeAt(t: Leases.Table, u: Leases.Table, ck: string) {
    (ck in t <==> ck in u) && (ck in t ==> t[ck] == u[ck])
  }

  /** A call on one slot leaves the table as it is elsewhere, and looks at nothing but its slot. */
  lemma SlotCall(t: Leases.Table, call: Leases.Call, now: int)
    requires call.Acquire? || call.Free?
    ensures forall ck :: ck != Leases.CompositeKey(call.sheet, call.key) ==> AgreeAt(Leases.Apply(t, call, now), t, ck)
  {
  }

  lemma SlotCallsAgree(t: Leases.Table, u: Leases.Table, call: Leases.Call, now: int)
    requires (call.Acquire? || call.Free?) && AgreeAt(t, u, Leases.CompositeKey(call.sheet, call.key))
    ensures AgreeAt(Leases.Apply(t, call, now), Leases.Apply(u, call, now), Leases.CompositeKey(call.sheet, call.key))
  {
  }

  /** What a call leaves in its slot was there before or belongs to the caller. */
  lemma SlotHolder(t: Leases.Table, call: Leases.Call, now: int)
    requires call.Acquire? || call.Free?
    ensures var ck, t' := Leases.CompositeKey(call.sheet, call.key), Leases.Apply(t, call, now);
            ck in t' ==> (call.Acquire? && t'[ck].owner == call.owner) || (ck in t && t'[ck] == t[ck])
  {
  }

  lemma RestrictTable(w: World, id: string, kept: set<Conn>, call: Leases.Call, now: int)
    requires Separated(w, kept) && Ours(w, id, kept)
    requires (call.Acquire? ==> call.owner in kept) && (call.Acquire? || call.Free?) && call.sheet == id
    ensures var r := Restrict(w, kept);
            Restrict(w.(locks := Leases.Apply(w.locks, call, now)), kept)
            == r.(locks := Leases.Apply(r.locks, call, now))
  {
    var t, u := w.locks, Restrict(w, kept).locks;
    SlotOwner(w, kept, id, call.key);
    SlotCallsAgree(t, u, call, now);
    SlotCall(t, call, now);
    SlotCall(u, call, now);
    SlotHolder(t, call, now);
    var s1, u1 := Restrict(w.(locks := Leases.Apply(t, call, now)), kept).locks, Leases.Apply(u, call, now);
    forall ck ensures AgreeAt(s1, u1, ck) {
      assert ck != Leases.CompositeKey(id, call.key) ==>
               AgreeAt(Leases.Apply(t, call, now), t, ck) && AgreeAt(u1, u, ck);
    }
    SameTable(s1, u1);
  }

  lemma SameTable(t: Leases.Table, u: Leases.Table)
    requires forall ck :: AgreeAt(t, u, ck)
    ensures t == u
  {
    assert forall ck :: AgreeAt(t, u, ck) ==> (ck in t <==> ck in u);
  }

  lemma RestrictLocks(w: World, id: string, kept: set<Conn>, c: Conn, call: Leases.Call, now: int, rep: Message)
    requires Separated(w, kept) && Ours(w, id, kept) && c in kept
    requires (call.Acquire? ==> call.owner == c) && (call.Acquire? || call.Free?) && call.sheet == id
    ensures var r, reply := Restrict(w, kept), Ok(call.key);
            Restrict(ToReplicas(Reply(w.(locks := Leases.Apply(w.locks, call, now)), c, reply), rep), kept)
            == ToReplicas(Reply(r.(locks := Leases.Apply(r.locks, call, now)), c, reply), rep)
  {
    RestrictTable(w, id, kept, call, now);
    var w1 := w.(locks := Leases.Apply(w.locks, call, now));
    RestrictReply(w1, kept, c, Ok(call.key));
    RestrictReplicas(Reply(w1, c, Ok(call.key)), kept, rep);
  }

  lemma RestrictLockRefusal(cfg: Config, w: World, id: string, kept: set<Conn>, c: Conn, key: string, seconds: int,
                            env: Env)
    requires Separated(w, kept) && Ours(w, id, kept) && c in kept
    requires Leases.TryAcquire(w.locks, id, key, c, env.now, if seconds > 0 then seconds else cfg.lockTtl).granted.None?
    ensures Restrict(HandleLock(cfg, w, c, id, key, seconds, env), kept)
            == HandleLock(cfg, Restrict(w, kept), c, id, key, seconds, env)
  {
    SameSlot(w, id, kept, key);
    var m := if Leases.IsLocked(w.locks, id, key, env.later).Some?
             then Response(false, "", key, Null, 0, "lock held by another client", 0)
             else Err("lock held by another client");
    assert HandleLock(cfg, w, c, id, key, seconds, env) == Reply(w, c, m);
    assert HandleLock(cfg, Restrict(w, kept), c, id, key, seconds, env) == Reply(Restrict(w, kept), c, m);
    RestrictReply(w, kept, c, m);
  }

  lemma RestrictLockGrant(cfg: Config, w: World, id: string, kept: set<Conn>, c: Conn, key: string, seconds: int,
                          env: Env)
    requires Separated(w, kept) && Ours(w, id, kept) && c in kept
    requires Leases.TryAcquire(w.locks, id, key, c, env.now, if seconds > 0 then seconds else cfg.lockTtl).granted.Some?
    ensures Restrict(HandleLock(cfg, w, c, id, key, seconds, env), kept)
            == HandleLock(cfg, Restrict(w, kept), c, id, key, seconds, env)
  {
    var ttl := if seconds > 0 then seconds else cfg.lockTtl;
    var lease := Leases.TryAcquire(w.locks, id, key, c, env.now, ttl).granted.value;
    var call, rep := Leases.Acquire(id, key, c, ttl), ReplicateLock(id, key, c, lease.expiresAt);
    var r := Restrict(w, kept);
    SameSlot(w, id, kept, key);
    assert HandleLock(cfg, w, c, id, key, seconds, env)
        == ToReplicas(Reply(w.(locks := Leases.Apply(w.locks, call, env.now)), c, Ok(key)), rep);
    assert HandleLock(cfg, r, c, id, key, seconds, env)
        == ToReplicas(Reply(r.(locks := Leases.Apply(r.locks, call, env.now)), c, Ok(key)), rep);
    RestrictLocks(w, id, kept, c, call, env.now, rep);
  }

  lemma RestrictLock(cfg: Config, w: World, id: string, kept: set<Conn>, c: Conn, key: string, seconds: int, env: Env)
    requires Separated(w, kept) && Ours(w, id, kept) && c in kept
    ensures Restrict(HandleLock(cfg, w, c, id, key, seconds, env), kept)
            == HandleLock(cfg, Restrict(w, kept), c, id, key, seconds, env)
  {
    var ttl := if seconds > 0 then seconds else cfg.lockTtl;
    if Leases.TryAcquire(w.locks, id, key, c, env.now, ttl).granted.Some? {
      RestrictLockGrant(cfg, w, id, kept, c, key, seconds, env);
    } else {
      RestrictLockRefusal(cfg, w, id, kept, c, key, seconds, env);
    }
  }

  lemma RestrictUnlock(w: World, id: string, kept: set<Conn>, c: Conn, key: string)
    requires Separated(w, kept) && Ours(w, id, kept) && c in kept
    ensures Restrict(HandleUnlock(w, c, id, key), kept) == HandleUnlock(Restrict(w, kept), c, id, key)
  {
    SameSlot(w, id, kept, key);
    RestrictLocks(w, id, kept, c, Leases.Free(id, key, c), 0, ReplicateUnlock(id, key));
    RestrictReply(w, kept, c, Err("not lock owner"));
    RestrictReply(w, kept, c, Err("lock not found"));
  }

  lemma RestrictGet(w: World, id: string, kept: set<Conn>, c: Conn, key: string, env: Env)
    requires Ours(w, id, kept) && c in kept
    ensures id in Restrict(w, kept).sheets
    ensures Restrict(HandleGet(w, c, id, key, env), kept) == HandleGet(Restrict(w, kept), c, id, key, env)
  {
    var g := Lru.Get(w.sheets[id].cache, key, env.now);
    RestrictPut(w, id, kept, g.state);
    var m := match g.found
             case None => Err("key not found")
             case Some(value) => Response(true, "", key, value, 0, "", 0);
    RestrictReply(PutCache(w, id, g.state), kept, c, m);
  }

  lemma RestrictReads(cfg: Config, w: World, id: string, kept: set<Conn>, c: Conn, req: Request, env: Env)
    requires Ours(w, id, kept) && c in kept && (req.Get? || req.DumpAll? || req.Unknown?)
    ensures id in Restrict(w, kept).sheets
    ensures Restrict(HandleInSheet(cfg, w, c, id, req, env), kept)
            == HandleInSheet(cfg, Restrict(w, kept), c, id, req, env)
  {
    match req
    case Get(key) => RestrictGet(w, id, kept, c, key, env);
    case DumpAll =>
      var data := Lru.Dump(w.sheets[id].cache.entries);
      RestrictReply(w, kept, c, Response(true, "", "", Object(data), 0, "", |data|));
    case Unknown(action) => RestrictReply(w, kept, c, Err("unknown action: " + action));
  }

  /** A removal by a key selector, with what is told of it. */
  lemma RestrictRemoval(w: World, id: string, kept: set<Conn>, c: Conn, sel: Lru.Selector, reply: Message, m: Message,
                        rep: Message)
    requires Ours(w, id, kept) && c in kept
    ensures var r, after := Restrict(w, kept), Lru.Delete(w.sheets[id].cache, sel);
            && id in r.sheets && r.sheets[id].cache == w.sheets[id].cache
            && Restrict(Mutate(w, c, id, after, reply, m, rep), kept) == Mutate(r, c, id, after, reply, m, rep)
  {
    RestrictMutation(w, id, kept, c, Lru.Delete(w.sheets[id].cache, sel), reply, m, rep);
  }

  lemma RestrictDeletes(cfg: Config, w: World, id: string, kept: set<Conn>, c: Conn, req: Request, env: Env)
    requires Ours(w, id, kept) && c in kept
    requires req.Delete? || req.DeletePrefix? || req.DeleteSuffix?
    ensures id in Restrict(w, kept).sheets
    ensures Restrict(HandleInSheet(cfg, w, c, id, req, env), kept)
            == HandleInSheet(cfg, Restrict(w, kept), c, id, req, env)
  {
    var cache := w.sheets[id].cache;
    match req
    case Delete(key) =>
      RestrictRemoval(w, id, kept, c, Lru.ByKey(key), Deleted(key, 1), Invalidate(key, "", ""),
                      ReplicateDelete(id, key));
    case DeletePrefix(prefix) =>
      RestrictRemoval(w, id, kept, c, Lru.ByPrefix(prefix), Removed(cache, Lru.Delete(cache, Lru.ByPrefix(prefix))),
                      Invalidate("", prefix, ""), ReplicateDeletePrefix(id, prefix));
    case DeleteSuffix(suffix) =>
      RestrictRemoval(w, id, kept, c, Lru.BySuffix(suffix), Removed(cache, Lru.Delete(cache, Lru.BySuffix(suffix))),
                      Invalidate("", "", suffix), ReplicateDeleteSuffix(id, suffix));
  }

  lemma RestrictInSheet(cfg: Config, w: World, id: string, kept: set<Conn>, c: Conn, req: Request, env: Env)
    requires Separated(w, kept) && Ours(w, id, kept) && c in kept
    ensures id in Restrict(w, kept).sheets
    ensures Restrict(HandleInSheet(cfg, w, c, id, req, env), kept)
            == HandleInSheet(cfg, Restrict(w, kept), c, id, req, env)
  {
    if req.Get? || req.DumpAll? || req.Unknown? {
      RestrictReads(cfg, w, id, kept, c, req, env);
    } else if req.Delete? || req.DeletePrefix? || req.DeleteSuffix? {
      RestrictDeletes(cfg, w, id, kept, c, req, env);
    } else {
      match req
      case Set(key, value, jitter) => RestrictSet(cfg, w, id, kept, c, key, value, jitter, env);
      case SetNull(key) => RestrictSetNull(cfg, w, id, kept, c, key, env);
      case Lock(key, seconds) => RestrictLock(cfg, w, id, kept, c, key, seconds, env);
      case Unlock(key) => RestrictUnlock(w, id, kept, c, key);
      case _ =>
    }
  }

  // ----- a kept connection connects, opens or leaves

  lemma RestrictOpen(cfg: Config, w: World, kept: set<Conn>, c: Conn, sheet: string, password: string)
    requires c in kept && c in w.conns && !StrayOpen(w, c, sheet, password, kept)
    ensures c in Restrict(w, kept).conns
    ensures Restrict(HandleOpen(cfg, w, c, sheet, password), kept)
            == HandleOpen(cfg, Restrict(w, kept), c, sheet, password)
  {
    var r := Restrict(w, kept);
    if !Opens(w, c, sheet, password) {
      var m := if w.conns[c].Some? then Err("already in sheet: " + w.conns[c].value)
               else if sheet == "" || password == "" then Err("sheet and password required")
               else Err("invalid password");
      RestrictReply(w, kept, c, m);
    } else {
      var was := if sheet in w.sheets then w.sheets[sheet] else Sheet(None, Lru.State([], cfg.capacity), {});
      var joined := Sheet(Some(password), was.cache, was.collaborators + {c});
      RestrictJoin(w, kept, c, sheet, joined);
      var w1 := w.(sheets := w.sheets[sheet := joined], conns := w.conns[c := Some(sheet)]);
      RestrictReply(w1, kept, c, Response(true, sheet, "", Null, 0, "", 0));
      RestrictReply(Reply(w1, c, Response(true, sheet, "", Null, 0, "", 0)), kept, c,
                    SheetState(Lru.Dump(was.cache.entries)));
    }
  }

  lemma RestrictJoin(w: World, kept: set<Conn>, c: Conn, id: string, joined: Sheet)
    requires c in kept && joined.collaborators <= kept
    ensures var r := Restrict(w, kept);
            Restrict(w.(sheets := w.sheets[id := joined], conns := w.conns[c := Some(id)]), kept)
            == r.(sheets := r.sheets[id := joined], conns := r.conns[c := Some(id)])
  {
    var w1, r := w.(sheets := w.sheets[id := joined], conns := w.conns[c := Some(id)]), Restrict(w, kept);
    assert Restrict(w1, kept).sheets == r.sheets[id := joined];
    assert Restrict(w1, kept).conns == r.conns[c := Some(id)];
  }

  lemma RestrictConnect(w: World, kept: set<Conn>, c: Conn)
    ensures Restrict(OnConnect(w, c), kept)
            == if c in kept then OnConnect(Restrict(w, kept), c) else Restrict(w, kept)
  {
  }

  /** A kept connection with a sheet open has it among the kept sheets. */
  lemma RestrictLinked(w: World, kept: set<Conn>)
    requires Separated(w, kept)
    ensures Linked(Restrict(w, kept))
  {
    var r := Restrict(w, kept);
    forall c | c in r.conns && r.conns[c].Some?
      ensures r.conns[c].value in r.sheets && c in r.sheets[r.conns[c].value].collaborators
    {
      assert c in w.sheets[w.conns[c].value].collaborators;
    }
  }

  lemma RestrictDrop(w: World, kept: set<Conn>, c: Conn)
    ensures Restrict(DropClient(w, c), kept) == DropClient(Restrict(w, kept), c)
  {
  }

  lemma RestrictLeave(w: World, id: string, kept: set<Conn>, c: Conn)
    requires Ours(w, id, kept)
    ensures id in Restrict(w, kept).sheets
    ensures Restrict(LeaveSheet(w, c, id), kept) == LeaveSheet(Restrict(w, kept), c, id)
  {
    assert Restrict(LeaveSheet(w, c, id), kept).sheets == LeaveSheet(Restrict(w, kept), c, id).sheets;
  }

  lemma RestrictDisconnect(w: World, kept: set<Conn>, c: Conn)
    requires Separated(w, kept) && c in w.conns && c in kept
    ensures Linked(Restrict(w, kept)) && c in Restrict(w, kept).conns
    ensures Restrict(OnDisconnect(w, c), kept) == OnDisconnect(Restrict(w, kept), c)
  {
    RestrictLinked(w, kept);
    RestrictDrop(w, kept, c);
    assert Restrict(w, kept).conns[c] == w.conns[c];
    if c in w.replicas {
      RestrictForget(w, kept, c);
    } else if w.conns[c].Some? {
      assert c in w.sheets[w.conns[c].value].collaborators;
      RestrictLeave(DropClient(w, c), w.conns[c].value, kept, c);
    }
  }

  lemma RestrictForget(w: World, kept: set<Conn>, c: Conn)
    ensures var r := Restrict(w, kept);
            Restrict(w.(replicas := w.replicas - {c}, conns := w.conns - {c}), kept)
            == r.(replicas := r.replicas - {c}, conns := r.conns - {c})
  {
  }

  // ----- an outsider acts

  /** The collaborators of a sheet of theirs are all outsiders. */
  lemma Strangers(w: World, kept: set<Conn>, sheet: string)
    requires Separated(w, kept) && Theirs(w, sheet, kept)
    ensures w.sheets[sheet].collaborators !! kept
  {
  }

  lemma UnseenMutate(w: World, kept: set<Conn>, c: Conn, sheet: string, cache: Lru.State, reply: Message,
                     m: Message, rep: Message)
    requires Separated(w, kept) && Theirs(w, sheet, kept) && c !in kept
    ensures Restrict(Mutate(w, c, sheet, cache, reply, m, rep), kept) == Restrict(w, kept)
  {
    Strangers(w, kept, sheet);
    var w1 := PutCache(w, sheet, cache);
    assert Restrict(w1, kept).sheets == Restrict(w, kept).sheets;
    RestrictReply(w1, kept, c, reply);
    var w2 := Reply(w1, c, reply);
    RestrictWriteAll(w2, kept, w2.sheets[sheet].collaborators - {c}, m);
    ReplicasUnseen(Broadcast(w2, sheet, c, m), kept, rep);
  }

  lemma UnseenEviction(w: World, kept: set<Conn>, c: Conn, sheet: string, evicted: string)
    requires sheet in w.sheets && w.sheets[sheet].collaborators !! kept && w.replicas !! kept
    ensures Restrict(AnnounceEviction(w, c, sheet, evicted), kept) == Restrict(w, kept)
  {
  }

  lemma UnseenSet(cfg: Config, w: World, kept: set<Conn>, c: Conn, sheet: string, key: string, value: Json,
                  jitter: bool, env: Env)
    requires Separated(w, kept) && Theirs(w, sheet, kept) && c !in kept
    ensures Restrict(HandleSet(cfg, w, c, sheet, key, value, jitter, env), kept) == Restrict(w, kept)
  {
    var r := Lru.Set(w.sheets[sheet].cache, key, value, ExpiresAt(cfg, jitter, env));
    var m, rep := SetBroadcast(key, value), Replicate(sheet, key, value, jitter);
    UnseenMutate(w, kept, c, sheet, r.state, Ok(key), m, rep);
    MutateFrame(w, c, sheet, r.state, Ok(key), m, rep);
    Strangers(w, kept, sheet);
    UnseenEviction(Mutate(w, c, sheet, r.state, Ok(key), m, rep), kept, c, sheet, r.evicted);
  }

  lemma UnseenSetNull(cfg: Config, w: World, kept: set<Conn>, c: Conn, sheet: string, key: string, env: Env)
    requires Separated(w, kept) && Theirs(w, sheet, kept) && c !in kept
    ensures Restrict(HandleSetNull(cfg, w, c, sheet, key, env), kept) == Restrict(w, kept)
  {
    var r := Lru.Set(w.sheets[sheet].cache, key, NULL_PLACEHOLDER, ExpiresAt(cfg, false, env));
    var w1 := PutCache(w, sheet, r.state);
    assert Restrict(w1, kept).sheets == Restrict(w, kept).sheets;
    RestrictReply(w1, kept, c, Ok(key));
    var w2 := Reply(w1, c, Ok(key));
    ReplicasUnseen(w2, kept, Replicate(sheet, key, NULL_PLACEHOLDER, false));
    Strangers(w, kept, sheet);
    UnseenEviction(ToReplicas(w2, Replicate(sheet, key, NULL_PLACEHOLDER, false)), kept, c, sheet, r.evicted);
  }

  lemma UnseenTable(w: World, kept: set<Conn>, call: Leases.Call, now: int)
    requires Separated(w, kept) && (call.Acquire? || call.Free?) && Theirs(w, call.sheet, kept)
    requires call.Acquire? ==> call.owner !in kept
    ensures Restrict(w.(locks := Leases.Apply(w.locks, call, now)), kept) == Restrict(w, kept)
  {
    var t, t' := w.locks, Leases.Apply(w.locks, call, now);
    Strangers(w, kept, call.sheet);
    SlotOwner(w, kept, call.sheet, call.key);
    SlotCall(t, call, now);
    SlotHolder(t, call, now);
    var s1, u1 := Restrict(w.(locks := t'), kept).locks, Restrict(w, kept).locks;
    forall ck ensures AgreeAt(s1, u1, ck) {
      assert ck != Leases.CompositeKey(call.sheet, call.key) ==> AgreeAt(t', t, ck);
    }
    SameTable(s1, u1);
  }

  lemma UnseenLocks(w: World, kept: set<Conn>, c: Conn, call: Leases.Call, now: int, rep: Message)
    requires Separated(w, kept) && c !in kept && (call.Acquire? || call.Free?) && Theirs(w, call.sheet, kept)
    requires call.Acquire? ==> call.owner == c
    ensures Restrict(ToReplicas(Reply(w.(locks := Leases.Apply(w.locks, call, now)), c, Ok(call.key)), rep), kept)
            == Restrict(w, kept)
  {
    UnseenTable(w, kept, call, now);
    var w1 := w.(locks := Leases.Apply(w.locks, call, now));
    RestrictReply(w1, kept, c, Ok(call.key));
    ReplicasUnseen(Reply(w1, c, Ok(call.key)), kept, rep);
  }

  lemma UnseenLock(cfg: Config, w: World, kept: set<Conn>, c: Conn, sheet: string, key: string,
                   seconds: int, env: Env)
    requires Separated(w, kept) && Theirs(w, sheet, kept) && c !in kept
    ensures Restrict(HandleLock(cfg, w, c, sheet, key, seconds, env), kept) == Restrict(w, kept)
  {
    var ttl := if seconds > 0 then seconds else cfg.lockTtl;
    var lease := Leases.TryAcquire(w.locks, sheet, key, c, env.now, ttl).granted;
    if lease.Some? {
      UnseenLocks(w, kept, c, Leases.Acquire(sheet, key, c, ttl), env.now,
                  ReplicateLock(sheet, key, c, lease.value.expiresAt));
    } else {
      RestrictReply(w, kept, c, Response(false, "", key, Null, 0, "lock held by another client", 0));
      RestrictReply(w, kept, c, Err("lock held by another client"));
    }
  }

  lemma UnseenUnlock(w: World, kept: set<Conn>, c: Conn, sheet: string, key: string)
    requires Separated(w, kept) && Theirs(w, sheet, kept) && c !in kept
    ensures Restrict(HandleUnlock(w, c, sheet, key), kept) == Restrict(w, kept)
  {
    UnseenLocks(w, kept, c, Leases.Free(sheet, key, c), 0, ReplicateUnlock(sheet, key));
    RestrictReply(w, kept, c, Err("not lock owner"));
    RestrictReply(w, kept, c, Err("lock not found"));
  }

  lemma UnseenReads(cfg: Config, w: World, kept: set<Conn>, c: Conn, sheet: string, req: Request, env: Env)
    requires Theirs(w, sheet, kept) && c !in kept && (req.Get? || req.DumpAll? || req.Unknown?)
    ensures Restrict(HandleInSheet(cfg, w, c, sheet, req, env), kept) == Restrict(w, kept)
  {
    match req
    case Get(key) =>
      var g := Lru.Get(w.sheets[sheet].cache, key, env.now);
      var w1 := PutCache(w, sheet, g.state);
      assert Restrict(w1, kept).sheets == Restrict(w, kept).sheets;
      var m := match g.found
               case None => Err("key not found")
               case Some(value) => Response(true, "", key, value, 0, "", 0);
      RestrictReply(w1, kept, c, m);
    case DumpAll =>
      var data := Lru.Dump(w.sheets[sheet].cache.entries);
      RestrictReply(w, kept, c, Response(true, "", "", Object(data), 0, "", |data|));
    case Unknown(action) => RestrictReply(w, kept, c, Err("unknown action: " + action));
  }

  lemma UnseenDeletes(cfg: Config, w: World, kept: set<Conn>, c: Conn, sheet: string, req: Request,
                      env: Env)
    requires Separated(w, kept) && Theirs(w, sheet, kept) && c !in kept
    requires req.Delete? || req.DeletePrefix? || req.DeleteSuffix?
    ensures Restrict(HandleInSheet(cfg, w, c, sheet, req, env), kept) == Restrict(w, kept)
  {
    var cache := w.sheets[sheet].cache;
    match req
    case Delete(key) =>
      UnseenMutate(w, kept, c, sheet, Lru.Delete(cache, Lru.ByKey(key)), Deleted(key, 1),
                   Invalidate(key, "", ""), ReplicateDelete(sheet, key));
    case DeletePrefix(prefix) =>
      var after := Lru.Delete(cache, Lru.ByPrefix(prefix));
      UnseenMutate(w, kept, c, sheet, after, Removed(cache, after), Invalidate("", prefix, ""),
                   ReplicateDeletePrefix(sheet, prefix));
    case DeleteSuffix(suffix) =>
      var after := Lru.Delete(cache, Lru.BySuffix(suffix));
      UnseenMutate(w, kept, c, sheet, after, Removed(cache, after), Invalidate("", "", suffix),
                   ReplicateDeleteSuffix(sheet, suffix));
  }

  lemma UnseenInSheet(cfg: Config, w: World, kept: set<Conn>, c: Conn, sheet: string, req: Request,
                      env: Env)
    requires Separated(w, kept) && Theirs(w, sheet, kept) && c !in kept
    ensures Restrict(HandleInSheet(cfg, w, c, sheet, req, env), kept) == Restrict(w, kept)
  {
    if req.Get? || req.DumpAll? || req.Unknown? {
      UnseenReads(cfg, w, kept, c, sheet, req, env);
    } else if req.Delete? || req.DeletePrefix? || req.DeleteSuffix? {
      UnseenDeletes(cfg, w, kept, c, sheet, req, env);
    } else {
      match req
      case Set(key, value, jitter) => UnseenSet(cfg, w, kept, c, sheet, key, value, jitter, env);
      case SetNull(key) => UnseenSetNull(cfg, w, kept, c, sheet, key, env);
      case Lock(key, seconds) => UnseenLock(cfg, w, kept, c, sheet, key, seconds, env);
      case Unlock(key) => UnseenUnlock(w, kept, c, sheet, key);
      case _ =>
    }
  }

  lemma UnseenOpen(cfg: Config, w: World, kept: set<Conn>, c: Conn, sheet: string, password: string)
    requires Separated(w, kept) && c !in kept && c in w.conns
    requires !(Ours(w, sheet, kept) && Opens(w, c, sheet, password))
    ensures Restrict(HandleOpen(cfg, w, c, sheet, password), kept) == Restrict(w, kept)
  {
    if !Opens(w, c, sheet, password) {
      var m := if w.conns[c].Some? then Err("already in sheet: " + w.conns[c].value)
               else if sheet == "" || password == "" then Err("sheet and password required")
               else Err("invalid password");
      RestrictReply(w, kept, c, m);
    } else {
      var was := if sheet in w.sheets then w.sheets[sheet] else Sheet(None, Lru.State([], cfg.capacity), {});
      var joined := Sheet(Some(password), was.cache, was.collaborators + {c});
      var w1 := w.(sheets := w.sheets[sheet := joined], conns := w.conns[c := Some(sheet)]);
      assert Restrict(w1, kept).sheets == Restrict(w, kept).sheets;
      assert Restrict(w1, kept).conns == Restrict(w, kept).conns;
      var m := Response(true, sheet, "", Null, 0, "", 0);
      RestrictReply(w1, kept, c, m);
      RestrictReply(Reply(w1, c, m), kept, c, SheetState(Lru.Dump(was.cache.entries)));
    }
  }

  lemma UnseenDrop(w: World, kept: set<Conn>, c: Conn)
    requires Separated(w, kept) && c !in kept
    ensures Restrict(DropClient(w, c), kept) == Restrict(w, kept)
  {
    var s, r := Restrict(DropClient(w, c), kept), Restrict(w, kept);
    assert s.locks == r.locks;
    assert s.conns == r.conns && s.clients == r.clients;
  }

  lemma UnseenDisconnect(w: World, kept: set<Conn>, c: Conn)
    requires Separated(w, kept) && c in w.conns && c !in kept
    ensures Restrict(OnDisconnect(w, c), kept) == Restrict(w, kept)
  {
    UnseenDrop(w, kept, c);
    if w.conns[c].Some? {
      var w1, own := DropClient(w, c), w.conns[c].value;
      assert c in w.sheets[own].collaborators;
      UnseenLeave(w1, kept, c, own);
    }
  }

  lemma UnseenLeave(w: World, kept: set<Conn>, c: Conn, own: string)
    requires Theirs(w, own, kept) && w.sheets[own].collaborators !! kept && c in w.sheets[own].collaborators
    ensures Restrict(LeaveSheet(w, c, own), kept) == Restrict(w, kept)
  {
    assert Restrict(LeaveSheet(w, c, own), kept).sheets == Restrict(w, kept).sheets;
  }

  // ----- one step

  /** A registration by a kept connection shows every sheet there is. */
  lemma RegisterCommutes(w: World, c: Conn, instanceId: string, validTime: bool, kept: set<Conn>)
    requires c in kept && validTime && instanceId != "" ==> AllOurs(w, kept)
    ensures Restrict(HandleRegisterReplica(w, c, instanceId, validTime), kept)
            == if c in kept then HandleRegisterReplica(Restrict(w, kept), c, instanceId, validTime)
               else Restrict(w, kept)
  {
    if validTime && instanceId != "" {
      var w1, r := w.(replicas := w.replicas + {c}, clients := w.clients - {c}), Restrict(w, kept);
      if c in kept {
        assert w1.sheets == r.sheets;
        assert Restrict(w1, kept) == r.(replicas := r.replicas + {c}, clients := r.clients - {c});
      } else {
        assert Restrict(w1, kept) == r;
      }
      RestrictReply(w1, kept, c, FullStateOf(w1));
      RestrictReply(Reply(w1, c, FullStateOf(w1)), kept, c, Ok(""));
    } else {
      RestrictReply(w, kept, c, if validTime then Err("instance_id required")
                                else Err("invalid started_at timestamp (use RFC3339)"));
    }
  }

  lemma InSheetCommutes(cfg: Config, w: World, c: Conn, req: Request, env: Env, kept: set<Conn>)
    requires Separated(w, kept) && c in w.conns && w.conns[c].Some?
    ensures c in kept ==> w.conns[c].value in Restrict(w, kept).sheets
    ensures Restrict(HandleInSheet(cfg, w, c, w.conns[c].value, req, env), kept)
            == if c in kept then HandleInSheet(cfg, Restrict(w, kept), c, w.conns[c].value, req, env)
               else Restrict(w, kept)
  {
    var sheet := w.conns[c].value;
    assert c in w.sheets[sheet].collaborators;
    if c in kept {
      RestrictInSheet(cfg, w, sheet, kept, c, req, env);
    } else {
      UnseenInSheet(cfg, w, kept, c, sheet, req, env);
    }
  }

  lemma ActionCommutes(cfg: Config, w: World, c: Conn, req: Request, env: Env, kept: set<Conn>)
    requires Separated(w, kept) && c in w.conns && Proper(w, Act(c, req), kept)
    ensures Linked(Restrict(w, kept)) && (c in kept ==> c in Restrict(w, kept).conns)
    ensures Restrict(HandleAction(cfg, w, c, req, env), kept)
            == if c in kept then HandleAction(cfg, Restrict(w, kept), c, req, env) else Restrict(w, kept)
  {
    RestrictLinked(w, kept);
    match req
    case Open(sheet, password) =>
      if c in kept { RestrictOpen(cfg, w, kept, c, sheet, password); }
      else { UnseenOpen(cfg, w, kept, c, sheet, password); }
    case RegisterReplica(instanceId, validTime) => RegisterCommutes(w, c, instanceId, validTime, kept);
    case _ =>
      if w.conns[c].None? { RestrictReply(w, kept, c, Err("must open sheet first")); }
      else { InSheetCommutes(cfg, w, c, req, env, kept); }
  }

  lemma SweepCommutes(cfg: Config, w: World, sheet: string, env: Env, kept: set<Conn>)
    requires Linked(w) && Linked(Restrict(w, kept))
    ensures Restrict(Step(cfg, w, Sweep(sheet), env), kept) == Step(cfg, Restrict(w, kept), Sweep(sheet), env)
  {
    if Ours(w, sheet, kept) {
      RestrictPut(w, sheet, kept, Lru.Delete(w.sheets[sheet].cache, Lru.ExpiredAt(env.now)));
    } else {
      assert Restrict(Step(cfg, w, Sweep(sheet), env), kept).sheets == Restrict(w, kept).sheets;
    }
  }

  /** The restriction of the next world is the next world of the restriction, or the same one if the step was an
      outsider's. */
  lemma StepCommutes(cfg: Config, w: World, ev: Event, env: Env, kept: set<Conn>)
    requires Separated(w, kept) && Proper(w, ev, kept)
    ensures Linked(Restrict(w, kept))
    ensures Restrict(Step(cfg, w, ev, env), kept)
            == if Kept(ev, kept) then Step(cfg, Restrict(w, kept), ev, env) else Restrict(w, kept)
  {
    RestrictLinked(w, kept);
    match ev
    case Connect(c) => RestrictConnect(w, kept, c);
    case Act(c, req) => if c in w.conns { ActionCommutes(cfg, w, c, req, env, kept); }
    case Disconnect(c) =>
      if c in w.conns {
        if c in kept { RestrictDisconnect(w, kept, c); } else { UnseenDisconnect(w, kept, c); }
      }
    case Sweep(sheet) => SweepCommutes(cfg, w, sheet, env, kept);
    case CleanLocks =>
      assert Restrict(Step(cfg, w, ev, env), kept).locks == Step(cfg, Restrict(w, kept), ev, env).locks;
  }

  lemma JoinKeepsSeparated(cfg: Config, w: World, c: Conn, sheet: string, password: string, kept: set<Conn>)
    requires Separated(w, kept) && c in w.conns && Opens(w, c, sheet, password)
    requires Fits(w, c, sheet, kept) && Bookkeeping(HandleOpen(cfg, w, c, sheet, password))
    ensures Separated(HandleOpen(cfg, w, c, sheet, password), kept)
  {
    var w' := HandleOpen(cfg, w, c, sheet, password);
    assert if c in kept then !Theirs(w, sheet, kept) else !Ours(w, sheet, kept);
    forall a, b | Ours(w', a, kept) && Theirs(w', b, kept) ensures !Leases.Collide(a, b) {
      assert a == sheet || Ours(w, a, kept);
      assert b == sheet || Theirs(w, b, kept);
    }
  }

  lemma OpenKeepsSeparated(cfg: Config, w: World, c: Conn, sheet: string, password: string, kept: set<Conn>)
    requires Separated(w, kept) && c in w.conns && Proper(w, Act(c, Open(sheet, password)), kept)
    ensures Separated(HandleOpen(cfg, w, c, sheet, password), kept)
  {
    OpenKeeps(cfg, w, c, sheet, password);
    if Opens(w, c, sheet, password) {
      JoinKeepsSeparated(cfg, w, c, sheet, password, kept);
    } else {
      var w' := HandleOpen(cfg, w, c, sheet, password);
      assert SameMembership(w, w');
      SameMembersSeparated(w, w', kept);
    }
  }

  /** The same connections in the same sheets are as separate as before. */
  lemma SameMembersSeparated(w: World, w': World, kept: set<Conn>)
    requires Separated(w, kept) && SameMembership(w, w') && Bookkeeping(w')
    ensures Separated(w', kept)
  {
  }

  lemma ActionKeepsSeparated(cfg: Config, w: World, c: Conn, req: Request, env: Env, kept: set<Conn>)
    requires Separated(w, kept) && c in w.conns && Proper(w, Act(c, req), kept)
    requires Bookkeeping(HandleAction(cfg, w, c, req, env))
    ensures Separated(HandleAction(cfg, w, c, req, env), kept)
  {
    match req
    case Open(sheet, password) => OpenKeepsSeparated(cfg, w, c, sheet, password, kept);
    case RegisterReplica(_, _) =>
    case _ =>
      ActionMembership(cfg, w, c, req, env);
      SameMembersSeparated(w, HandleAction(cfg, w, c, req, env), kept);
  }

  lemma ConnectKeepsSeparated(w: World, kept: set<Conn>, c: Conn)
    requires Separated(w, kept) && Bookkeeping(OnConnect(w, c))
    ensures Separated(OnConnect(w, c), kept)
  {
    assert OnConnect(w, c).sheets == w.sheets;
  }

  lemma DisconnectKeepsSeparated(w: World, kept: set<Conn>, c: Conn)
    requires Separated(w, kept) && c in w.conns && Bookkeeping(OnDisconnect(w, c))
    ensures Separated(OnDisconnect(w, c), kept)
  {
    var w' := OnDisconnect(w, c);
    forall id | id in w'.sheets
      ensures id in w.sheets && (Ours(w', id, kept) <==> Ours(w, id, kept))
      ensures w'.sheets[id].collaborators <= w.sheets[id].collaborators
    {
      var d :| d in w'.sheets[id].collaborators;
    }
  }

  lemma SeparatedStep(cfg: Config, w: World, ev: Event, env: Env, kept: set<Conn>)
    requires Separated(w, kept) && Proper(w, ev, kept)
    ensures Separated(Step(cfg, w, ev, env), kept)
  {
    BookkeepingExactly(cfg, w, ev, env);
    match ev
    case Connect(c) => if c !in w.conns { ConnectKeepsSeparated(w, kept, c); }
    case Act(c, req) => if c in w.conns { ActionKeepsSeparated(cfg, w, c, req, env, kept); }
    case Disconnect(c) => if c in w.conns { DisconnectKeepsSeparated(w, kept, c); }
    case Sweep(_) => SameMembersSeparated(w, Step(cfg, w, ev, env), kept);
    case CleanLocks => SameMembersSeparated(w, Step(cfg, w, ev, env), kept);
  }

  /** A proper event is exactly one that commutes and leaves the groups separated. (Module Exposure says what that
      amounts to for those who look on.) */
  lemma StepCommutesExactly(cfg: Config, w: World, ev: Event, env: Env, kept: set<Conn>)
    requires Separated(w, kept)
    ensures Linked(Restrict(w, kept))
    ensures Proper(w, ev, kept)
            <==> Separated(Step(cfg, w, ev, env), kept)
                 && Restrict(Step(cfg, w, ev, env), kept)
                    == if Kept(ev, kept) then Step(cfg, Restrict(w, kept), ev, env) else Restrict(w, kept)
  {
    RestrictLinked(w, kept);
    if Proper(w, ev, kept) {
      StepCommutes(cfg, w, ev, env, kept);
      SeparatedStep(cfg, w, ev, env, kept);
    } else if TakesBothRoles(w, ev) {
      BookkeepingExactly(cfg, w, ev, env);
    } else if ev.req.Open? {
      ImproperOpen(cfg, w, ev.c, ev.req.sheet, ev.req.password, kept);
    }
  }

  lemma ImproperOpen(cfg: Config, w: World, c: Conn, sheet: string, password: string, kept: set<Conn>)
    requires Separated(w, kept) && c in w.conns && !Proper(w, Act(c, Open(sheet, password)), kept)
    requires !TakesBothRoles(w, Act(c, Open(sheet, password)))
    ensures c in kept ==> c in Restrict(w, kept).conns
    ensures Separated(HandleOpen(cfg, w, c, sheet, password), kept) ==>
              c in kept
              && Restrict(HandleOpen(cfg, w, c, sheet, password), kept)
                 != HandleOpen(cfg, Restrict(w, kept), c, sheet, password)
  {
    var w' := HandleOpen(cfg, w, c, sheet, password);
    if Opens(w, c, sheet, password) {
      assert sheet in w'.sheets && c in w'.sheets[sheet].collaborators;
      if sheet in w.sheets {
        var d :| d in w.sheets[sheet].collaborators;
        assert d in w'.sheets[sheet].collaborators;
      }
    } else {
      OpenSeenExactly(cfg, w, c, sheet, password, kept);
      SameQueue(w', kept, c);
    }
  }

  lemma SameQueue(w: World, kept: set<Conn>, c: Conn)
    requires c in kept
    ensures Queue(Restrict(w, kept).sent, c) == Queue(w.sent, c)
  {
  }

  /**
   What a stray open shows of others: the reply differs from the one in a world without them exactly if they have that
   sheet open and the password is wrong or the contents are not empty.
   */
  lemma OpenSeenExactly(cfg: Config, w: World, c: Conn, sheet: string, password: string, kept: set<Conn>)
    requires c in kept && c in w.conns
    ensures c in Restrict(w, kept).conns
    ensures Queue(HandleOpen(cfg, w, c, sheet, password).sent, c)
            == Queue(HandleOpen(cfg, Restrict(w, kept), c, sheet, password).sent, c)
            <==> !(StrayOpen(w, c, sheet, password, kept)
                   && (!Verifies(w.sheets[sheet].hash, password)
                       || Lru.Dump(w.sheets[sheet].cache.entries) != map[]))
  {
    if StrayOpen(w, c, sheet, password, kept) {
      StrayReply(cfg, w, c, sheet, password, kept);
      var data, last := Lru.Dump(w.sheets[sheet].cache.entries), |Queue(w.sent, c)| + 1;
      if Verifies(w.sheets[sheet].hash, password) {
        assert Queue(HandleOpen(cfg, w, c, sheet, password).sent, c)[last] == SheetState(data);
        assert Queue(HandleOpen(cfg, Restrict(w, kept), c, sheet, password).sent, c)[last] == SheetState(map[]);
      }
    } else {
      RestrictOpen(cfg, w, kept, c, sheet, password);
      SameQueue(HandleOpen(cfg, w, c, sheet, password), kept, c);
    }
  }

  lemma StrayReply(cfg: Config, w: World, c: Conn, sheet: string, password: string, kept: set<Conn>)
    requires c in kept && StrayOpen(w, c, sheet, password, kept)
    ensures c in Restrict(w, kept).conns
    ensures var q, joined, data := Queue(w.sent, c), Response(true, sheet, "", Null, 0, "", 0),
                                   Lru.Dump(w.sheets[sheet].cache.entries);
            && Queue(HandleOpen(cfg, w, c, sheet, password).sent, c)
               == q + (if Verifies(w.sheets[sheet].hash, password) then [joined, SheetState(data)]
                       else [Err("invalid password")])
            && Queue(HandleOpen(cfg, Restrict(w, kept), c, sheet, password).sent, c) == q + [joined, SheetState(map[])]
  {
    SameQueue(w, kept, c);
    assert Lru.Dump([]) == map[];
  }

  // ----- whole runs

  /**
   Running only the kept part of a trace from its part of the world gives exactly its part of the
   full run: same sheets, recency orders, locks, and messages in every channel.
   */
  lemma {:induction false} IsolationRun(cfg: Config, w: World, trace: Trace, kept: set<Conn>)
    requires Separated(w, kept) && ProperRun(cfg, w, trace, kept)
    ensures Linked(Restrict(w, kept))
    ensures Run(cfg, Restrict(w, kept), Project(trace, kept)) == Restrict(Run(cfg, w, trace), kept)
    decreases trace
  {
    RestrictLinked(w, kept);
    if trace != [] {
      var (ev, env) := trace[0];
      StepCommutes(cfg, w, ev, env, kept);
      SeparatedStep(cfg, w, ev, env, kept);
      IsolationRun(cfg, Step(cfg, w, ev, env), trace[1..], kept);
      if Kept(ev, kept) {
        assert Project(trace, kept)[1..] == Project(trace[1..], kept);
      } else {
        assert Project(trace, kept) == Project(trace[1..], kept);
      }
    }
  }

  /** From a fresh leader: removing all other connections from a run changes nothing the kept ones see. */
  lemma {:induction false} TenantIsolation(cfg: Config, trace: Trace, kept: set<Conn>)
    requires ProperRun(cfg, EMPTY, trace, kept)
    ensures Run(cfg, EMPTY, Project(trace, kept)) == Restrict(Run(cfg, EMPTY, trace), kept)
  {
    IsolationRun(cfg, EMPTY, trace, kept);
    assert Restrict(EMPTY, kept) == EMPTY;
  }
}
