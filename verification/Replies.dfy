/**
 What a client is told, field by field: the replies to its own requests, in terms of what the leader holds and,
 over a whole run, of the reference history.
 */
module Replies {
  import opened Prelude
  import opened Server
  import opened Session
  import opened Contents
  import opened History
  import opened Readers
  import Lru
  import Writers

  /** Client c, which is no replica, is in sheet `id`. */
  ghost predicate In(w: World, c: Conn, id: string) {
    Linked(w) && Writers.CachesValid(w) && c in w.conns && w.conns[c] == Some(id) && c !in w.replicas
  }

  /** What the client's channel is after its request. */
  function Asked(cfg: Config, w: World, c: Conn, req: Request, env: Env): seq<Message>
    requires Linked(w)
  {
    Queue(Step(cfg, w, Act(c, req), env).sent, c)
  }

  /** A hit exactly as long as the entry is there and its lifetime has not passed. */
  function AnswerToGet(held: Option<Stored>, key: string, now: int): Message {
    if held.Some? && now <= held.value.expiresAt then Response(true, "", key, held.value.value, 0, "", 0)
    else Response(false, "", "", Null, 0, "key not found", 0)
  }

  lemma GetReply(cfg: Config, w: World, c: Conn, id: string, key: string, env: Env)
    requires In(w, c, id)
    ensures Asked(cfg, w, c, Get(key), env) == Queue(w.sent, c) + [AnswerToGet(Held(w, id, key), key, env.now)]
  {
  }

  /** Over a whole run: what was last stored under the key, unless it was removed, displaced or has outlived itself. */
  lemma {:induction false} GetAnswersExactly(cfg: Config, trace: Trace, c: Conn, id: string, key: string, env: Env)
    requires In(Run(cfg, EMPTY, trace), c, id)
    ensures Asked(cfg, Run(cfg, EMPTY, trace), c, Get(key), env)
            == Queue(Run(cfg, EMPTY, trace).sent, c) + [AnswerToGet(StoredBy(cfg, trace, id, key), key, env.now)]
  {
    StoredExactly(cfg, trace, id, key);
    GetReply(cfg, Run(cfg, EMPTY, trace), c, id, key, env);
  }

  /** A dump is every key held, with its value, and their number. */
  lemma DumpReply(cfg: Config, w: World, c: Conn, id: string, env: Env) returns (data: map<string, Json>)
    requires In(w, c, id)
    ensures Asked(cfg, w, c, DumpAll, env)
            == Queue(w.sent, c) + [Response(true, "", "", Object(data), 0, "", |data|)]
    ensures forall key :: key in data <==> Held(w, id, key).Some?
    ensures forall key :: key in data ==> data[key] == Held(w, id, key).value.value
  {
    data := Content(w.sheets[id].cache);
    forall key ensures key in data <==> Held(w, id, key).Some? { DumpHasKey(w.sheets[id].cache.entries, key); }
  }

  lemma {:induction false} DumpAnswersExactly(cfg: Config, trace: Trace, c: Conn, id: string, env: Env)
    returns (data: map<string, Json>)
    requires In(Run(cfg, EMPTY, trace), c, id)
    ensures Asked(cfg, Run(cfg, EMPTY, trace), c, DumpAll, env)
            == Queue(Run(cfg, EMPTY, trace).sent, c) + [Response(true, "", "", Object(data), 0, "", |data|)]
    ensures forall key :: key in data <==> StoredBy(cfg, trace, id, key).Some?
    ensures forall key :: key in data ==> data[key] == StoredBy(cfg, trace, id, key).value.value
  {
    data := DumpReply(cfg, Run(cfg, EMPTY, trace), c, id, env);
    forall key ensures Held(Run(cfg, EMPTY, trace), id, key) == StoredBy(cfg, trace, id, key) {
      StoredExactly(cfg, trace, id, key);
    }
  }

  lemma SetReply(cfg: Config, w: World, c: Conn, id: string, req: Request, env: Env)
    requires In(w, c, id) && (req.Set? || req.SetNull?)
    ensures Asked(cfg, w, c, req, env) == Queue(w.sent, c) + [Response(true, "", req.key, Null, 0, "", 0)]
  {
    if req.Set? {
      OwnSet(cfg, w, c, id, req.key, req.value, req.jitter, env);
    } else {
      OwnSetNull(cfg, w, c, id, req.key, env);
    }
  }

  lemma DeleteReply(cfg: Config, w: World, c: Conn, id: string, key: string, env: Env)
    requires In(w, c, id)
    ensures Asked(cfg, w, c, Delete(key), env) == Queue(w.sent, c) + [Response(true, "", key, Null, 1, "", 0)]
  {
    OwnMutate(w, c, id, Lru.Delete(w.sheets[id].cache, Lru.ByKey(key)), Deleted(key, 1), Invalidate(key, "", ""),
              ReplicateDelete(id, key));
  }

  /** The number of keys held that are the prefix with something after it. */
  lemma DeletePrefixReply(cfg: Config, w: World, c: Conn, id: string, prefix: string, env: Env)
    requires In(w, c, id)
    ensures var n := |set k | k in Content(w.sheets[id].cache) && (exists rest :: k == prefix + rest)|;
            Asked(cfg, w, c, DeletePrefix(prefix), env) == Queue(w.sent, c) + [Response(true, "", "", Null, n, "", 0)]
  {
    RemovedByPrefix(w.sheets[id].cache.entries, prefix);
    BulkReply(cfg, w, c, id, DeletePrefix(prefix), Lru.ByPrefix(prefix), env);
  }

  lemma DeleteSuffixReply(cfg: Config, w: World, c: Conn, id: string, suffix: string, env: Env)
    requires In(w, c, id)
    ensures var n := |set k | k in Content(w.sheets[id].cache) && (exists rest :: k == rest + suffix)|;
            Asked(cfg, w, c, DeleteSuffix(suffix), env) == Queue(w.sent, c) + [Response(true, "", "", Null, n, "", 0)]
  {
    RemovedBySuffix(w.sheets[id].cache.entries, suffix);
    BulkReply(cfg, w, c, id, DeleteSuffix(suffix), Lru.BySuffix(suffix), env);
  }

  lemma BulkReply(cfg: Config, w: World, c: Conn, id: string, req: Request, sel: Lru.Selector, env: Env)
    requires In(w, c, id)
    requires || (req.DeletePrefix? && sel == Lru.ByPrefix(req.prefix))
             || (req.DeleteSuffix? && sel == Lru.BySuffix(req.suffix))
    ensures var es := w.sheets[id].cache.entries;
            Asked(cfg, w, c, req, env)
            == Queue(w.sent, c) + [Response(true, "", "", Null, |es| - |Lru.Without(es, sel)|, "", 0)]
  {
    var cache := w.sheets[id].cache;
    var after := Lru.Delete(cache, sel);
    match req
    case DeletePrefix(prefix) =>
      OwnMutate(w, c, id, after, Removed(cache, after), Invalidate("", prefix, ""), ReplicateDeletePrefix(id, prefix));
    case DeleteSuffix(suffix) =>
      OwnMutate(w, c, id, after, Removed(cache, after), Invalidate("", "", suffix), ReplicateDeleteSuffix(id, suffix));
  }

  /** Requests that get nowhere. */
  lemma RefusalReply(cfg: Config, w: World, c: Conn, req: Request, env: Env)
    requires Linked(w) && c in w.conns && !req.RegisterReplica?
    ensures w.conns[c].None? && !req.Open? ==>
              Asked(cfg, w, c, req, env)
              == Queue(w.sent, c) + [Response(false, "", "", Null, 0, "must open sheet first", 0)]
    ensures w.conns[c].Some? && req.Open? ==>
              Asked(cfg, w, c, req, env)
              == Queue(w.sent, c) + [Response(false, "", "", Null, 0, "already in sheet: " + w.conns[c].value, 0)]
    ensures w.conns[c].None? && req.Open? && (req.sheet == "" || req.password == "") ==>
              Asked(cfg, w, c, req, env)
              == Queue(w.sent, c) + [Response(false, "", "", Null, 0, "sheet and password required", 0)]
    ensures w.conns[c].Some? && req.Unknown? ==>
              Asked(cfg, w, c, req, env)
              == Queue(w.sent, c) + [Response(false, "", "", Null, 0, "unknown action: " + req.action, 0)]
  {
  }

  /** A new connection is a client without a sheet, and its channel is empty. */
  lemma ConnectReply(cfg: Config, w: World, c: Conn, env: Env)
    requires Linked(w) && c !in w.conns
    ensures var w' := Step(cfg, w, Connect(c), env);
            && Queue(w'.sent, c) == [] && c in w'.clients && c in w'.conns && w'.conns[c] == None
            && (forall d :: d != c ==> Queue(w'.sent, d) == Queue(w.sent, d))
            && w'.sheets == w.sheets && w'.locks == w.locks && w'.replicas == w.replicas
  {
  }

  /** A registration is answered with everything the leader holds, and then acknowledged. */
  lemma RegisterReply(cfg: Config, w: World, c: Conn, instanceId: string, env: Env)
    returns (sheets: map<string, map<string, Json>>)
    requires Linked(w) && Writers.CachesValid(w) && c in w.conns && instanceId != ""
    ensures Asked(cfg, w, c, RegisterReplica(instanceId, true), env)
            == Queue(w.sent, c) + [FullState(sheets), Response(true, "", "", Null, 0, "", 0)]
    ensures sheets.Keys == w.sheets.Keys
    ensures forall id, key :: id in sheets ==> (key in sheets[id] <==> Held(w, id, key).Some?)
    ensures forall id, key :: id in sheets && key in sheets[id] ==> sheets[id][key] == Held(w, id, key).value.value
  {
    sheets := map id | id in w.sheets :: Content(w.sheets[id].cache);
    assert FullStateOf(w.(replicas := w.replicas + {c}, clients := w.clients - {c})) == FullState(sheets);
    forall id, key | id in sheets ensures key in sheets[id] <==> Held(w, id, key).Some? {
      DumpHasKey(w.sheets[id].cache.entries, key);
    }
  }

  // ----- the lifetime of what is set

  /** Nothing removes, overwrites or displaces the key, which is to live until `until`, and nothing finds it expired. */
  ghost predicate Spares(cfg: Config, w: World, ev: Event, env: Env, id: string, key: string, until: int)
    requires Linked(w)
  {
    match ev
    case Act(c, req) =>
      c in w.conns && w.conns[c] == Some(id) ==> (
        match req
        case Set(k, _, _) => k != key && PushedOut(w.sheets[id].cache, k) != Some(key)
        case SetNull(k) => k != key && PushedOut(w.sheets[id].cache, k) != Some(key)
        case Get(k) => k == key ==> env.now <= until
        case Delete(k) => k != key
        case DeletePrefix(prefix) => !exists rest :: key == prefix + rest
        case DeleteSuffix(suffix) => !exists rest :: key == rest + suffix
        case _ => true)
    case Sweep(s) => s == id ==> env.now <= until
    case Disconnect(c) => !(c in w.conns && w.conns[c] == Some(id) && w.sheets[id].collaborators == {c})
    case _ => true
  }

  ghost predicate SparesRun(cfg: Config, w: World, trace: Trace, id: string, key: string, until: int)
    requires Linked(w)
    decreases trace
  {
    if trace == [] then true
    else
      StepKeepsLinked(cfg, w, trace[0].0, trace[0].1);
      Spares(cfg, w, trace[0].0, trace[0].1, id, key, until)
      && SparesRun(cfg, Step(cfg, w, trace[0].0, trace[0].1), trace[1..], id, key, until)
  }

  lemma {:induction false} SparedRun(cfg: Config, w: World, trace: Trace, id: string, key: string, s: Stored)
    requires Linked(w) && SparesRun(cfg, w, trace, id, key, s.expiresAt)
    ensures StoredFrom(cfg, w, trace, id, key, Some(s)) == Some(s)
    decreases trace
  {
    if trace != [] {
      var (ev, env) := trace[0];
      StepKeepsLinked(cfg, w, ev, env);
      assert AfterEvent(cfg, w, ev, env, id, key, Some(s)) == Some(s);
      SparedRun(cfg, Step(cfg, w, ev, env), trace[1..], id, key, s);
    }
  }

  /**
   A set lives from `env.now` for one cache lifetime, plus the jitter drawn if it was asked for: as long as the
   key is spared, a get by anyone in the sheet hits up to and including that moment and misses after it.
   */
  lemma {:induction false} SetLives(cfg: Config, w: World, c: Conn, id: string, key: string, value: Json, jitter: bool,
                                    env: Env, between: Trace, d: Conn, later: Env)
    requires In(w, c, id) && Linked(Step(cfg, w, Act(c, Set(key, value, jitter)), env))
    requires SparesRun(cfg, Step(cfg, w, Act(c, Set(key, value, jitter)), env), between, id, key,
                       env.now + cfg.cacheTtl + if jitter then env.jitter else 0)
    requires In(Run(cfg, Step(cfg, w, Act(c, Set(key, value, jitter)), env), between), d, id)
    ensures var w' := Run(cfg, Step(cfg, w, Act(c, Set(key, value, jitter)), env), between);
            Asked(cfg, w', d, Get(key), later)
            == Queue(w'.sent, d) + [if later.now <= env.now + cfg.cacheTtl + (if jitter then env.jitter else 0)
                                    then Response(true, "", key, value, 0, "", 0)
                                    else Response(false, "", "", Null, 0, "key not found", 0)]
  {
    var s := Stored(value, env.now + cfg.cacheTtl + if jitter then env.jitter else 0);
    AnyLives(cfg, w, c, id, Set(key, value, jitter), env, between, d, later, key, s);
  }

  /** So does the placeholder of a set_null, without jitter. */
  lemma {:induction false} SetNullLives(cfg: Config, w: World, c: Conn, id: string, key: string, env: Env,
                                        between: Trace, d: Conn, later: Env)
    requires In(w, c, id) && Linked(Step(cfg, w, Act(c, SetNull(key)), env))
    requires SparesRun(cfg, Step(cfg, w, Act(c, SetNull(key)), env), between, id, key, env.now + cfg.cacheTtl)
    requires In(Run(cfg, Step(cfg, w, Act(c, SetNull(key)), env), between), d, id)
    ensures var w' := Run(cfg, Step(cfg, w, Act(c, SetNull(key)), env), between);
            Asked(cfg, w', d, Get(key), later)
            == Queue(w'.sent, d) + [if later.now <= env.now + cfg.cacheTtl
                                    then Response(true, "", key, Text("__NULL__"), 0, "", 0)
                                    else Response(false, "", "", Null, 0, "key not found", 0)]
  {
    var s := Stored(Text("__NULL__"), env.now + cfg.cacheTtl);
    AnyLives(cfg, w, c, id, SetNull(key), env, between, d, later, key, s);
  }

  lemma {:induction false} AnyLives(cfg: Config, w: World, c: Conn, id: string, req: Request, env: Env,
                                    between: Trace, d: Conn, later: Env, key: string, s: Stored)
    requires In(w, c, id) && Linked(Step(cfg, w, Act(c, req), env))
    requires AfterEvent(cfg, w, Act(c, req), env, id, key, Held(w, id, key)) == Some(s)
    requires SparesRun(cfg, Step(cfg, w, Act(c, req), env), between, id, key, s.expiresAt)
    requires In(Run(cfg, Step(cfg, w, Act(c, req), env), between), d, id)
    ensures var w' := Run(cfg, Step(cfg, w, Act(c, req), env), between);
            Asked(cfg, w', d, Get(key), later) == Queue(w'.sent, d) + [AnswerToGet(Some(s), key, later.now)]
  {
    var w1 := Step(cfg, w, Act(c, req), env);
    EventAgrees(cfg, w, Act(c, req), env, id, key);
    Writers.CachesValidStep(cfg, w, Act(c, req), env);
    SparedRun(cfg, w1, between, id, key, s);
    RunAgrees(cfg, w1, between, id, key);
    GetReply(cfg, Run(cfg, w1, between), d, id, key, later);
  }
}
