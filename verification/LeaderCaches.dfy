/**
 A leader's sheet is the cache of module LruRuns under the requests made in it, so what is proved of runs of
 the cache (recency, which key goes, what is still there) holds of every sheet of every run of the leader.
 */
module LeaderCaches {
  import opened Prelude
  import opened Server
  import opened Session
  import opened Contents
  import Lru
  import LruRuns

  /** The cache call a request makes. */
  function OpsOf(cfg: Config, req: Request, env: Env): seq<LruRuns.Op> {
    match req
    case Get(key) => [LruRuns.DoGet(key, env.now)]
    case Set(key, value, jitter) =>
      [LruRuns.DoSet(key, value, env.now, cfg.cacheTtl + if jitter then env.jitter else 0)]
    case SetNull(key) => [LruRuns.DoSet(key, Text("__NULL__"), env.now, cfg.cacheTtl)]
    case Delete(key) => [LruRuns.DoDelete(Lru.ByKey(key))]
    case DeletePrefix(prefix) => [LruRuns.DoDelete(Lru.ByPrefix(prefix))]
    case DeleteSuffix(suffix) => [LruRuns.DoDelete(Lru.BySuffix(suffix))]
    case _ => []
  }

  /** The calls an event makes on the cache of a sheet. */
  function Calls(cfg: Config, w: World, ev: Event, env: Env, id: string): seq<LruRuns.Op> {
    match ev
    case Act(c, req) => if c in w.conns && w.conns[c] == Some(id) then OpsOf(cfg, req, env) else []
    case Sweep(s) => if s == id then [LruRuns.DoDelete(Lru.ExpiredAt(env.now))] else []
    case _ => []
  }

  /** The calls since the sheet was made. */
  function CallsFrom(cfg: Config, w: World, trace: Trace, id: string, was: seq<LruRuns.Op>): seq<LruRuns.Op>
    requires Linked(w)
    decreases trace
  {
    if trace == [] then was
    else
      var (ev, env) := trace[0];
      StepKeepsLinked(cfg, w, ev, env);
      CallsFrom(cfg, Step(cfg, w, ev, env), trace[1..], id,
                if id in w.sheets then was + Calls(cfg, w, ev, env, id) else [])
  }

  function CallsOn(cfg: Config, trace: Trace, id: string): seq<LruRuns.Op> {
    CallsFrom(cfg, EMPTY, trace, id, [])
  }

  /** The sheet, if it is registered, is what the calls make of an empty cache. */
  predicate IsRun(cfg: Config, w: World, id: string, ops: seq<LruRuns.Op>) {
    id in w.sheets ==> w.sheets[id].cache == LruRuns.Run(Lru.State([], cfg.capacity), ops)
  }

  lemma RunOneMore(s: Lru.State, ops: seq<LruRuns.Op>, more: seq<LruRuns.Op>)
    requires |more| <= 1
    ensures LruRuns.Run(s, ops + more)
            == if more == [] then LruRuns.Run(s, ops) else LruRuns.Apply(LruRuns.Run(s, ops), more[0])
  {
    if more == [] {
      assert ops + more == ops;
    } else {
      assert (ops + more)[..|ops|] == ops && (ops + more)[|ops|] == more[0];
    }
  }

  lemma RequestIsCall(cfg: Config, cache: Lru.State, req: Request, env: Env)
    ensures var ops := OpsOf(cfg, req, env);
            CacheAfter(cfg, cache, req, env) == if ops == [] then cache else LruRuns.Apply(cache, ops[0])
  {
  }

  lemma OpenKeepsRun(cfg: Config, w: World, c: Conn, sheet: string, password: string, id: string)
    requires c in w.conns
    ensures var w' := HandleOpen(cfg, w, c, sheet, password);
            id in w'.sheets ==>
              w'.sheets[id].cache == if id in w.sheets then w.sheets[id].cache else Lru.State([], cfg.capacity)
  {
  }

  lemma ActIsCall(cfg: Config, w: World, c: Conn, req: Request, env: Env, id: string)
    requires Linked(w) && c in w.conns && !req.Open?
    ensures var w', ops := HandleAction(cfg, w, c, req, env), Calls(cfg, w, Act(c, req), env, id);
            && w'.sheets.Keys == w.sheets.Keys
            && (id in w.sheets ==>
                  w'.sheets[id].cache == if ops == [] then w.sheets[id].cache
                                         else LruRuns.Apply(w.sheets[id].cache, ops[0]))
  {
    if !req.RegisterReplica? && w.conns[c].Some? {
      InSheetCaches(cfg, w, c, w.conns[c].value, req, env);
      if w.conns[c] == Some(id) { RequestIsCall(cfg, w.sheets[id].cache, req, env); }
    }
  }

  lemma EventIsCall(cfg: Config, w: World, ev: Event, env: Env, id: string)
    requires Linked(w) && id in Step(cfg, w, ev, env).sheets
    ensures var cache, ops := Step(cfg, w, ev, env).sheets[id].cache, Calls(cfg, w, ev, env, id);
            cache == if id !in w.sheets then Lru.State([], cfg.capacity)
                     else if ops == [] then w.sheets[id].cache
                     else LruRuns.Apply(w.sheets[id].cache, ops[0])
  {
    match ev
    case Act(c, req) =>
      if c in w.conns {
        if req.Open? {
          OpenKeepsRun(cfg, w, c, req.sheet, req.password, id);
        } else {
          ActIsCall(cfg, w, c, req, env, id);
        }
      }
    case _ =>
  }

  lemma {:induction false} RunIsRun(cfg: Config, w: World, trace: Trace, id: string, was: seq<LruRuns.Op>)
    requires Linked(w) && IsRun(cfg, w, id, was)
    ensures IsRun(cfg, Run(cfg, w, trace), id, CallsFrom(cfg, w, trace, id, was))
    decreases trace
  {
    if trace != [] {
      var (ev, env) := trace[0];
      var w' := Step(cfg, w, ev, env);
      StepKeepsLinked(cfg, w, ev, env);
      if id in w'.sheets { EventIsCall(cfg, w, ev, env, id); }
      RunOneMore(Lru.State([], cfg.capacity), was, Calls(cfg, w, ev, env, id));
      RunIsRun(cfg, w', trace[1..], id, if id in w.sheets then was + Calls(cfg, w, ev, env, id) else []);
    }
  }

  /** In every run of a fresh leader every sheet is the cache that the calls since it was made lead to. */
  lemma {:induction false} SheetIsRun(cfg: Config, trace: Trace, id: string)
    requires id in Run(cfg, EMPTY, trace).sheets
    ensures Run(cfg, EMPTY, trace).sheets[id].cache
            == LruRuns.Run(Lru.State([], cfg.capacity), CallsOn(cfg, trace, id))
  {
    RunIsRun(cfg, EMPTY, trace, id, []);
  }

  /** So a set displaces, and everybody is told to drop, the key of the sheet that has not been touched for longest. */
  lemma {:induction false} DisplacesOldest(cfg: Config, trace: Trace, id: string, key: string, other: string)
    requires var w := Run(cfg, EMPTY, trace);
             id in w.sheets && PushedOut(w.sheets[id].cache, key).Some? && Lru.HasKey(w.sheets[id].cache.entries, other)
    ensures var out, s, ops := PushedOut(Run(cfg, EMPTY, trace).sheets[id].cache, key).value,
                               Lru.State([], cfg.capacity), CallsOn(cfg, trace, id);
            0 <= LruRuns.LastTouch(s, ops, out) <= LruRuns.LastTouch(s, ops, other)
  {
    var s, ops := Lru.State([], cfg.capacity), CallsOn(cfg, trace, id);
    SheetIsRun(cfg, trace, id);
    LruRuns.RunKeepsValid(s, ops);
    LruRuns.EvictsOldestTouch(s, ops, key, Null, 0, other);
  }
}
