/**
 What the leader holds and answers, told from the requests alone: a reference history of every key, with lifetimes and
 patterns written out, and the replies to get and dump in terms of it.
 */
module History {
  import opened Prelude
  import opened Server
  import opened Session
  import opened Contents
  import Lru
  import Writers

  datatype Stored = Stored(value: Json, expiresAt: int)

  // ----- the reference history of one key of one sheet

  /** A request in the sheet. A set lives one cache lifetime from now, plus the jitter drawn if it was asked for. */
  ghost function AfterRequest(cfg: Config, cache: Lru.State, req: Request, env: Env, key: string,
                              was: Option<Stored>): Option<Stored> {
    match req
    case Set(k, value, jitter) =>
      if k == key then Some(Stored(value, env.now + cfg.cacheTtl + (if jitter then env.jitter else 0)))
      else if PushedOut(cache, k) == Some(key) then None
      else was
    case SetNull(k) =>
      if k == key then Some(Stored(Text("__NULL__"), env.now + cfg.cacheTtl))
      else if PushedOut(cache, k) == Some(key) then None
      else was
    case Get(k) => if k == key && was.Some? && env.now > was.value.expiresAt then None else was
    case Delete(k) => if k == key then None else was
    case DeletePrefix(prefix) => if exists rest :: key == prefix + rest then None else was
    case DeleteSuffix(suffix) => if exists rest :: key == rest + suffix then None else was
    case _ => was
  }

  /** Any event: requests by connections in the sheet, its sweeps, and the last collaborator's leaving. */
  ghost function AfterEvent(cfg: Config, w: World, ev: Event, env: Env, id: string, key: string,
                            was: Option<Stored>): Option<Stored>
    requires Linked(w)
  {
    match ev
    case Act(c, req) =>
      if c in w.conns && w.conns[c] == Some(id) then AfterRequest(cfg, w.sheets[id].cache, req, env, key, was) else was
    case Sweep(s) => if s == id && was.Some? && env.now > was.value.expiresAt then None else was
    case Disconnect(c) =>
      if c in w.conns && c !in w.replicas && w.conns[c] == Some(id) && w.sheets[id].collaborators == {c} then None
      else was
    case _ => was
  }

  ghost function StoredFrom(cfg: Config, w: World, trace: Trace, id: string, key: string,
                            was: Option<Stored>): Option<Stored>
    requires Linked(w)
    decreases trace
  {
    if trace == [] then was
    else
      StepKeepsLinked(cfg, w, trace[0].0, trace[0].1);
      StoredFrom(cfg, Step(cfg, w, trace[0].0, trace[0].1), trace[1..], id, key,
                 AfterEvent(cfg, w, trace[0].0, trace[0].1, id, key, was))
  }

  /** What a fresh leader has stored under the key after these events. */
  ghost function StoredBy(cfg: Config, trace: Trace, id: string, key: string): Option<Stored> {
    StoredFrom(cfg, EMPTY, trace, id, key, None)
  }

  // ----- what the cache holds

  function Lookup(es: seq<Lru.Entry>, key: string): Option<Stored> {
    if Lru.HasKey(es, key) then var e := Lru.Find(es, key); Some(Stored(e.value, e.expiresAt)) else None
  }

  function Held(w: World, id: string, key: string): Option<Stored> {
    if id in w.sheets then Lookup(w.sheets[id].cache.entries, key) else None
  }

  lemma LookupIs(es: seq<Lru.Entry>, key: string, value: Json, expiresAt: int)
    requires Lru.Unique(es)
    ensures Lookup(es, key) == Some(Stored(value, expiresAt)) <==> Lru.Entry(key, value, expiresAt) in es
  {
    if e :| e in es && e == Lru.Entry(key, value, expiresAt) {
      var i :| 0 <= i < |es| && es[i] == e;
      Lru.FindUnique(es, i);
    }
  }

  /** Lists that agree on the entries under a key look the same there. */
  lemma SameLookup(a: seq<Lru.Entry>, b: seq<Lru.Entry>, key: string)
    requires Lru.Unique(a) && Lru.Unique(b)
    requires forall e: Lru.Entry :: e.key == key ==> (e in a <==> e in b)
    ensures Lookup(a, key) == Lookup(b, key)
  {
    if Lookup(a, key).Some? {
      var s := Lookup(a, key).value;
      LookupIs(a, key, s.value, s.expiresAt);
      LookupIs(b, key, s.value, s.expiresAt);
    } else if Lookup(b, key).Some? {
      var s := Lookup(b, key).value;
      LookupIs(a, key, s.value, s.expiresAt);
      LookupIs(b, key, s.value, s.expiresAt);
    }
  }

  lemma NoLookup(es: seq<Lru.Entry>, key: string)
    requires forall e :: e in es ==> e.key != key
    ensures Lookup(es, key) == None
  {
  }

  lemma LookupFirst(e: Lru.Entry, es: seq<Lru.Entry>, key: string)
    requires Lru.Unique([e] + es)
    ensures Lookup([e] + es, key) == if e.key == key then Some(Stored(e.value, e.expiresAt)) else Lookup(es, key)
  {
    assert ([e] + es)[0] == e && ([e] + es)[1..] == es;
    if e.key == key {
      Lru.FindUnique([e] + es, 0);
    } else {
      forall i, j | 0 <= i < j < |es| ensures es[i].key != es[j].key {
        assert ([e] + es)[i + 1] == es[i] && ([e] + es)[j + 1] == es[j];
      }
      SameLookup([e] + es, es, key);
    }
  }

  /** A removal takes the entry under the key if it selects it. */
  lemma LookupWithout(es: seq<Lru.Entry>, sel: Lru.Selector, key: string)
    requires Lru.Unique(es)
    ensures Lookup(Lru.Without(es, sel), key)
            == match Lookup(es, key)
               case None => None
               case Some(s) => if Lru.Selects(sel, Lru.Entry(key, s.value, s.expiresAt)) then None else Some(s)
  {
    var rest := Lru.Without(es, sel);
    match Lookup(es, key)
    case None =>
      forall e | e in rest ensures e.key != key {
        if e.key == key { LookupIs(es, key, e.value, e.expiresAt); }
      }
      NoLookup(rest, key);
    case Some(s) =>
      LookupIs(es, key, s.value, s.expiresAt);
      LookupIs(rest, key, s.value, s.expiresAt);
      if Lru.Selects(sel, Lru.Entry(key, s.value, s.expiresAt)) {
        forall e | e in rest ensures e.key != key {
          if e.key == key { LookupIs(es, key, e.value, e.expiresAt); }
        }
        NoLookup(rest, key);
      }
  }

  lemma LookupCut(es: seq<Lru.Entry>, key: string)
    requires Lru.Unique(es) && es != []
    ensures Lookup(es[..|es| - 1], key) == if es[|es| - 1].key == key then None else Lookup(es, key)
  {
    WithoutLast(es);
    LookupWithout(es, Lru.ByKey(es[|es| - 1].key), key);
  }

  lemma LookupSet(s: Lru.State, k: string, value: Json, expiresAt: int, key: string)
    requires Lru.Valid(s)
    ensures Lookup(Lru.Set(s, k, value, expiresAt).state.entries, key)
            == if k == key then Some(Stored(value, expiresAt))
               else if PushedOut(s, k) == Some(key) then None
               else Lookup(s.entries, key)
  {
    var e, es := Lru.Entry(k, value, expiresAt), s.entries;
    Lru.SetKeepsValid(s, k, value, expiresAt);
    if Lru.HasKey(es, k) {
      LookupFirst(e, Lru.Without(es, Lru.ByKey(k)), key);
      LookupWithout(es, Lru.ByKey(k), key);
    } else if 0 < s.capacity <= |es| {
      LookupFirst(e, es[..|es| - 1], key);
      LookupCut(es, key);
    } else {
      LookupFirst(e, es, key);
    }
  }

  lemma LookupGet(s: Lru.State, k: string, now: int, key: string)
    requires Lru.Valid(s)
    ensures var was := Lookup(s.entries, key);
            Lookup(Lru.Get(s, k, now).state.entries, key)
            == if k == key && was.Some? && now > was.value.expiresAt then None else was
  {
    Lru.GetKeepsValid(s, k, now);
    if Lru.HasKey(s.entries, k) {
      var e := Lru.Find(s.entries, k);
      LookupWithout(s.entries, Lru.ByKey(k), key);
      if now <= e.expiresAt { LookupFirst(e, Lru.Without(s.entries, Lru.ByKey(k)), key); }
    }
  }

  // ----- the two agree

  lemma RequestAgrees(cfg: Config, s: Lru.State, req: Request, env: Env, key: string)
    requires Lru.Valid(s)
    ensures Lookup(CacheAfter(cfg, s, req, env).entries, key)
            == AfterRequest(cfg, s, req, env, key, Lookup(s.entries, key))
  {
    match req
    case Set(k, value, jitter) => LookupSet(s, k, value, ExpiresAt(cfg, jitter, env), key);
    case SetNull(k) => LookupSet(s, k, NULL_PLACEHOLDER, ExpiresAt(cfg, false, env), key);
    case Get(k) => LookupGet(s, k, env.now, key);
    case Delete(k) => LookupWithout(s.entries, Lru.ByKey(k), key);
    case DeletePrefix(prefix) =>
      LookupWithout(s.entries, Lru.ByPrefix(prefix), key);
      HasPrefixExactly(key, prefix);
    case DeleteSuffix(suffix) =>
      LookupWithout(s.entries, Lru.BySuffix(suffix), key);
      HasSuffixExactly(key, suffix);
    case _ =>
  }

  lemma OpenAgrees(cfg: Config, w: World, c: Conn, sheet: string, password: string, id: string, key: string)
    requires c in w.conns
    ensures Held(HandleOpen(cfg, w, c, sheet, password), id, key) == Held(w, id, key)
  {
    assert Lookup([], key) == None;
  }

  lemma InSheetAgrees(cfg: Config, w: World, c: Conn, own: string, req: Request, env: Env, id: string, key: string)
    requires own in w.sheets && Writers.CachesValid(w)
    ensures Held(HandleInSheet(cfg, w, c, own, req, env), id, key)
            == if own == id then AfterRequest(cfg, w.sheets[id].cache, req, env, key, Held(w, id, key))
               else Held(w, id, key)
  {
    InSheetCaches(cfg, w, c, own, req, env);
    if own == id { RequestAgrees(cfg, w.sheets[id].cache, req, env, key); }
  }

  lemma ActAgrees(cfg: Config, w: World, c: Conn, req: Request, env: Env, id: string, key: string)
    requires Linked(w) && Writers.CachesValid(w) && c in w.conns
    ensures Held(HandleAction(cfg, w, c, req, env), id, key)
            == AfterEvent(cfg, w, Act(c, req), env, id, key, Held(w, id, key))
  {
    match req
    case Open(sheet, password) => OpenAgrees(cfg, w, c, sheet, password, id, key);
    case RegisterReplica(_, _) =>
    case _ => if w.conns[c].Some? { InSheetAgrees(cfg, w, c, w.conns[c].value, req, env, id, key); }
  }

  lemma DisconnectAgrees(cfg: Config, w: World, c: Conn, env: Env, id: string, key: string)
    requires Linked(w) && c in w.conns
    ensures Held(OnDisconnect(w, c), id, key) == AfterEvent(cfg, w, Disconnect(c), env, id, key, Held(w, id, key))
  {
    if c !in w.replicas && w.conns[c] == Some(id) {
      assert w.sheets[id].collaborators - {c} == {} <==> w.sheets[id].collaborators == {c};
    }
  }

  /** One event, whatever it is. */
  lemma EventAgrees(cfg: Config, w: World, ev: Event, env: Env, id: string, key: string)
    requires Linked(w) && Writers.CachesValid(w)
    ensures Held(Step(cfg, w, ev, env), id, key) == AfterEvent(cfg, w, ev, env, id, key, Held(w, id, key))
  {
    match ev
    case Act(c, req) => if c in w.conns { ActAgrees(cfg, w, c, req, env, id, key); }
    case Disconnect(c) => if c in w.conns { DisconnectAgrees(cfg, w, c, env, id, key); }
    case Sweep(s) => if s == id && id in w.sheets {
        LookupWithout(w.sheets[id].cache.entries, Lru.ExpiredAt(env.now), key);
      }
    case _ =>
  }

  lemma {:induction false} RunAgrees(cfg: Config, w: World, trace: Trace, id: string, key: string)
    requires Linked(w) && Writers.CachesValid(w)
    ensures Held(Run(cfg, w, trace), id, key) == StoredFrom(cfg, w, trace, id, key, Held(w, id, key))
    ensures Writers.CachesValid(Run(cfg, w, trace))
    decreases trace
  {
    if trace != [] {
      var (ev, env) := trace[0];
      StepKeepsLinked(cfg, w, ev, env);
      Writers.CachesValidStep(cfg, w, ev, env);
      EventAgrees(cfg, w, ev, env, id, key);
      RunAgrees(cfg, Step(cfg, w, ev, env), trace[1..], id, key);
    }
  }

  /** In every run of a fresh leader, every sheet holds under every key exactly what the history says. */
  lemma {:induction false} StoredExactly(cfg: Config, trace: Trace, id: string, key: string)
    ensures Held(Run(cfg, EMPTY, trace), id, key) == StoredBy(cfg, trace, id, key)
  {
    RunAgrees(cfg, EMPTY, trace, id, key);
  }
}
