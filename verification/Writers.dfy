/**
 Readers that also write (reader/reader.go): each applies its own change at once and is told everybody else's.
 One round is one leader step together with the delivery of every message it sent.
 */
module Writers {
  import opened Prelude
  import opened Server
  import opened Session
  import opened Channels
  import opened Contents
  import opened Readers
  import Lru

  type Locals = map<Conn, Reader>

  /** What the reader does to itself when it sends a request: a change is applied at once, a join starts over. */
  function Issue(rd: Reader, req: Request): Reader {
    match req
    case Open(_, _) => if rd.phase == Live then rd else rd.(phase := Connecting)
    case Set(key, value, _) => if rd.phase == Live then rd.(local := rd.local[key := value]) else rd
    case Delete(key) => if rd.phase == Live then rd.(local := rd.local - {key}) else rd
    case DeletePrefix(prefix) => if rd.phase == Live then rd.(local := Spared(rd.local, Lru.ByPrefix(prefix))) else rd
    case DeleteSuffix(suffix) => if rd.phase == Live then rd.(local := Spared(rd.local, Lru.BySuffix(suffix))) else rd
    case _ => rd
  }

  function Prepared(rd: Reader, ev: Event, d: Conn): Reader {
    if ev.Act? && ev.c == d then Issue(rd, ev.req) else rd
  }

  /** One step and all its deliveries. No set_null, no connection in both roles; anything else may happen. */
  ghost predicate Round(cfg: Config, w: World, rds: Locals, w': World, rds': Locals, ev: Event, env: Env) {
    && Linked(w) && w' == Step(cfg, w, ev, env)
    && !TakesBothRoles(w, ev) && !(ev.Act? && ev.req.SetNull?)
    && (forall d :: d in w'.conns ==> d in rds')
    && (forall d :: d in w'.conns && d in w.conns && d in rds ==>
          rds'[d] == ReceiveAll(Prepared(rds[d], ev, d), Fresh(w, w', d)))
  }

  /** The reader is live and has every pair of the leader's cache. */
  ghost predicate Covers(rd: Reader, s: Lru.State) {
    rd.phase == Live && Lru.Valid(s) && Within(Content(s), rd.local)
  }

  ghost predicate CoversOpen(w: World, rds: Locals, d: Conn) {
    d in w.conns && w.conns[d].Some? ==>
      w.conns[d].value in w.sheets && d in rds && Covers(rds[d], w.sheets[w.conns[d].value].cache)
  }

  ghost predicate Covered(w: World, rds: Locals) {
    && Bookkeeping(w) && CachesValid(w)
    && (forall d :: d in w.conns ==> d in rds)
    && (forall d :: CoversOpen(w, rds, d))
  }

  // ----- the leader's side never gains a pair the reader does not

  lemma WithoutShrinks(es: seq<Lru.Entry>, sel: Lru.Selector)
    requires Lru.Unique(es)
    ensures Within(Lru.Dump(Lru.Without(es, sel)), Lru.Dump(es))
  {
  }

  lemma WithinTrans<K, V>(a: map<K, V>, b: map<K, V>, c: map<K, V>)
    requires Within(a, b) && Within(b, c)
    ensures Within(a, c)
  {
  }

  lemma GetShrinks(s: Lru.State, key: string, now: int)
    requires Lru.Valid(s)
    ensures Within(Content(Lru.Get(s, key, now).state), Content(s))
  {
    if Lru.HasKey(s.entries, key) && now > Lru.Find(s.entries, key).expiresAt {
      WithoutShrinks(s.entries, Lru.ByKey(key));
    } else {
      DumpGet(s, key, now);
    }
  }

  /** Both sides store; the leader may push a key out, the reader may be told to drop that same key. */
  lemma SetCovers(s: Lru.State, key: string, value: Json, expiresAt: int, local: Data)
    requires Lru.Valid(s) && Within(Content(s), local)
    ensures var r := Lru.Set(s, key, value, expiresAt);
            && Within(Content(r.state), local[key := value])
            && (r.evicted != "" ==> Within(Content(r.state), local[key := value] - {r.evicted}))
  {
    DumpSet(s, key, value, expiresAt);
    match PushedOut(s, key)
    case None => WithinPut(Content(s), local, key, value);
    case Some(out) => WithinPutDrop(Content(s), local, key, value, out);
  }

  lemma WithinPut<K, V>(d: map<K, V>, l: map<K, V>, key: K, value: V)
    requires Within(d, l)
    ensures Within(d[key := value], l[key := value])
  {
  }

  lemma WithinPutDrop<K, V>(d: map<K, V>, l: map<K, V>, key: K, value: V, out: K)
    requires Within(d, l) && out != key
    ensures Within((d - {out})[key := value], l[key := value])
            && Within((d - {out})[key := value], l[key := value] - {out})
  {
  }

  lemma DeleteCovers(s: Lru.State, sel: Lru.Selector, local: Data)
    requires Within(Content(s), local) && !sel.ExpiredAt?
    ensures Within(Content(Lru.Delete(s, sel)), Spared(local, sel)) && Within(Content(Lru.Delete(s, sel)), local)
  {
    DumpWithout(s.entries, sel);
  }

  lemma SetTellsEnough(cfg: Config, s: Lru.State, key: string, value: Json, jitter: bool, env: Env, rd: Reader)
    requires Covers(rd, s)
    ensures Covers(ReceiveAll(rd, Told(cfg, s, Set(key, value, jitter), env)),
                   CacheAfter(cfg, s, Set(key, value, jitter), env))
  {
    var r := Lru.Set(s, key, value, ExpiresAt(cfg, jitter, env));
    Lru.SetKeepsValid(s, key, value, ExpiresAt(cfg, jitter, env));
    SetCovers(s, key, value, ExpiresAt(cfg, jitter, env), rd.local);
    StoreThenDrop(rd, key, value, r.evicted);
  }

  /** An invalidation removes what its selector selects, or nothing at all when its pattern is empty. */
  lemma DeleteTellsEnough(s: Lru.State, sel: Lru.Selector, m: Message, rd: Reader)
    requires Covers(rd, s) && !sel.ExpiredAt?
    requires Handle(rd.local, m) == rd.local || Handle(rd.local, m) == Spared(rd.local, sel)
    ensures Covers(ReceiveAll(rd, [m]), Lru.Delete(s, sel))
  {
    ReceiveOne(rd, m);
    DeleteCovers(s, sel, rd.local);
    assert Receive(rd, m) == Reader(Live, Handle(rd.local, m));
    assert Lru.Valid(Lru.Delete(s, sel));
  }

  /** Somebody else's request: what is told keeps every pair the leader still has. */
  lemma TellsEnough(cfg: Config, s: Lru.State, req: Request, env: Env, rd: Reader)
    requires Covers(rd, s) && !req.SetNull?
    ensures Covers(ReceiveAll(rd, Told(cfg, s, req, env)), CacheAfter(cfg, s, req, env))
  {
    assert ReceiveAll(rd, []) == rd;
    match req
    case Set(key, value, jitter) => SetTellsEnough(cfg, s, key, value, jitter, env, rd);
    case Delete(key) =>
      SparedKey(rd.local, key);
      DeleteTellsEnough(s, Lru.ByKey(key), Invalidate(key, "", ""), rd);
    case DeletePrefix(prefix) => DeleteTellsEnough(s, Lru.ByPrefix(prefix), Invalidate("", prefix, ""), rd);
    case DeleteSuffix(suffix) => DeleteTellsEnough(s, Lru.BySuffix(suffix), Invalidate("", "", suffix), rd);
    case Get(key) =>
      CacheStaysValid(cfg, s, req, env);
      GetShrinks(s, key, env.now);
    case _ =>
  }

  /** The reader's own request, applied before it was sent. */
  lemma IssueCovers(cfg: Config, s: Lru.State, req: Request, env: Env, rd: Reader)
    requires Covers(rd, s) && !req.SetNull?
    ensures Covers(Issue(rd, req), CacheAfter(cfg, s, req, env))
  {
    CacheStaysValid(cfg, s, req, env);
    match req
    case Set(key, value, jitter) => SetCovers(s, key, value, ExpiresAt(cfg, jitter, env), rd.local);
    case Delete(key) =>
      DeleteCovers(s, Lru.ByKey(key), rd.local);
      SparedKey(rd.local, key);
    case DeletePrefix(prefix) => DeleteCovers(s, Lru.ByPrefix(prefix), rd.local);
    case DeleteSuffix(suffix) => DeleteCovers(s, Lru.BySuffix(suffix), rd.local);
    case Get(key) => GetShrinks(s, key, env.now);
    case _ =>
  }

  // ----- one round, seen by one reader

  lemma InSheetCovers(cfg: Config, w: World, rd: Reader, ev: Event, env: Env, d: Conn, id: string)
    requires Bookkeeping(w) && d in w.conns && w.conns[d] == Some(id) && id in w.sheets
    requires Covers(rd, w.sheets[id].cache) && InThisSheet(w, ev, id) && !ev.req.SetNull?
    ensures var w' := Step(cfg, w, ev, env);
            id in w'.sheets && Covers(ReceiveAll(Prepared(rd, ev, d), Fresh(w, w', d)), w'.sheets[id].cache)
  {
    var w' := HandleInSheet(cfg, w, ev.c, id, ev.req, env);
    assert Step(cfg, w, ev, env) == w';
    var s := w.sheets[id].cache;
    InSheetCaches(cfg, w, ev.c, id, ev.req, env);
    assert d in w.sheets[id].collaborators && d !in w.replicas;
    if ev.c == d {
      var reply := OwnReply(cfg, w, d, id, ev.req, env);
      assert Fresh(w, w', d) == reply;
      IssueCovers(cfg, s, ev.req, env, rd);
      ResponsesIgnored(Issue(rd, ev.req), reply);
    } else {
      HeardExactly(cfg, w, ev.c, id, ev.req, env, d);
      HeardIsTold(cfg, w, ev.c, id, ev.req, env, d);
      assert Fresh(w, w', d) == Told(cfg, s, ev.req, env);
      TellsEnough(cfg, s, ev.req, env, rd);
    }
  }

  lemma AsideCovers(cfg: Config, w: World, rd: Reader, ev: Event, env: Env, d: Conn, id: string)
    requires Bookkeeping(w) && d in w.conns && w.conns[d] == Some(id) && id in w.sheets && ev != Disconnect(d)
    requires Covers(rd, w.sheets[id].cache) && !InThisSheet(w, ev, id) && !TakesBothRoles(w, ev)
    ensures var w' := Step(cfg, w, ev, env);
            id in w'.sheets && Covers(ReceiveAll(Prepared(rd, ev, d), Fresh(w, w', d)), w'.sheets[id].cache)
  {
    var w' := Step(cfg, w, ev, env);
    AsideCache(cfg, w, ev, env, d, id);
    var more := AsideQueue(cfg, w, ev, env, d, id);
    assert Fresh(w, w', d) == more;
    assert Prepared(rd, ev, d) == rd;
    ResponsesIgnored(rd, more);
    if ev == Sweep(id) {
      WithoutShrinks(w.sheets[id].cache.entries, Lru.ExpiredAt(env.now));
      WithinTrans(Content(w'.sheets[id].cache), Content(w.sheets[id].cache), rd.local);
    }
  }

  lemma JoinCovers(cfg: Config, w: World, rd: Reader, d: Conn, id: string, password: string, env: Env)
    requires Bookkeeping(w) && d in w.conns && Opens(w, d, id, password)
    requires id in w.sheets ==> Lru.Valid(w.sheets[id].cache)
    ensures var w' := Step(cfg, w, Act(d, Open(id, password)), env);
            id in w'.sheets && Covers(ReceiveAll(Issue(rd, Open(id, password)), Fresh(w, w', d)), w'.sheets[id].cache)
  {
    var w' := HandleOpen(cfg, w, d, id, password);
    var ok, state := Response(true, id, "", Null, 0, "", 0), SheetState(Content(w'.sheets[id].cache));
    assert Fresh(w, w', d) == [ok, state];
    ReceiveTwo(Issue(rd, Open(id, password)), ok, state);
  }

  /** Only a connection's own open changes which sheet it has open. */
  ghost predicate OnlyOpens(w: World, w': World, ev: Event, d: Conn) {
    && d in w.conns && d in w'.conns
    && (w'.conns[d] == w.conns[d]
        || (ev.Act? && ev.c == d && ev.req.Open? && Opens(w, d, ev.req.sheet, ev.req.password)
            && w'.conns[d] == Some(ev.req.sheet)))
  }

  lemma OpensOnlyItself(cfg: Config, w: World, ev: Event, env: Env, d: Conn)
    requires Linked(w) && d in Step(cfg, w, ev, env).conns && Step(cfg, w, ev, env).conns[d].Some?
    ensures OnlyOpens(w, Step(cfg, w, ev, env), ev, d)
  {
    if ev.Act? && ev.c in w.conns { ActionConns(cfg, w, ev.c, ev.req, env); }
  }

  lemma RoundCovers(cfg: Config, w: World, rds: Locals, w': World, rds': Locals, ev: Event, env: Env, d: Conn)
    requires Covered(w, rds) && Round(cfg, w, rds, w', rds', ev, env)
    ensures CoversOpen(w', rds', d)
  {
    if d in w'.conns && w'.conns[d].Some? {
      OpensOnlyItself(cfg, w, ev, env, d);
      assert CoversOpen(w, rds, d) && d in rds && d in rds';
      if w.conns[d] != w'.conns[d] {
        JoinCovers(cfg, w, rds[d], d, ev.req.sheet, ev.req.password, env);
      } else if InThisSheet(w, ev, w.conns[d].value) {
        InSheetCovers(cfg, w, rds[d], ev, env, d, w.conns[d].value);
      } else if ev != Disconnect(d) {
        AsideCovers(cfg, w, rds[d], ev, env, d, w.conns[d].value);
      }
    }
  }

  ghost predicate CachesValid(w: World) {
    forall id :: id in w.sheets ==> Lru.Valid(w.sheets[id].cache)
  }

  lemma CachesValidStep(cfg: Config, w: World, ev: Event, env: Env)
    requires Linked(w) && CachesValid(w)
    ensures CachesValid(Step(cfg, w, ev, env))
  {
    if ev.Act? && ev.c in w.conns { CachesValidAction(cfg, w, ev.c, ev.req, env); }
  }

  lemma CachesValidAction(cfg: Config, w: World, c: Conn, req: Request, env: Env)
    requires Linked(w) && c in w.conns && CachesValid(w)
    ensures CachesValid(HandleAction(cfg, w, c, req, env))
  {
    match req
    case Open(id, password) => CachesValidOpen(cfg, w, c, id, password);
    case RegisterReplica(_, _) =>
    case _ =>
      if w.conns[c].Some? { CachesValidInSheet(cfg, w, c, w.conns[c].value, req, env); }
  }

  lemma CachesValidOpen(cfg: Config, w: World, c: Conn, id: string, password: string)
    requires c in w.conns && CachesValid(w)
    ensures CachesValid(HandleOpen(cfg, w, c, id, password))
  {
  }

  lemma CachesValidInSheet(cfg: Config, w: World, c: Conn, id: string, req: Request, env: Env)
    requires id in w.sheets && CachesValid(w)
    ensures CachesValid(HandleInSheet(cfg, w, c, id, req, env))
  {
    InSheetCaches(cfg, w, c, id, req, env);
    CacheStaysValid(cfg, w.sheets[id].cache, req, env);
  }

  lemma RoundKeepsCovered(cfg: Config, w: World, rds: Locals, w': World, rds': Locals, ev: Event, env: Env)
    requires Covered(w, rds) && Round(cfg, w, rds, w', rds', ev, env)
    ensures Covered(w', rds')
  {
    BookkeepingExactly(cfg, w, ev, env);
    CachesValidStep(cfg, w, ev, env);
    forall d ensures CoversOpen(w', rds', d) {
      RoundCovers(cfg, w, rds, w', rds', ev, env, d);
    }
  }

  ghost predicate Rounds(cfg: Config, run: seq<(World, Locals)>) {
    && run != []
    && forall i :: 0 <= i < |run| - 1 ==> AnyRound(cfg, run[i], run[i + 1])
  }

  ghost predicate AnyRound(cfg: Config, s: (World, Locals), s': (World, Locals)) {
    exists ev, env :: Round(cfg, s.0, s.1, s'.0, s'.1, ev, env)
  }

  lemma {:induction false} RoundsKeepCovered(cfg: Config, run: seq<(World, Locals)>, i: nat)
    requires Rounds(cfg, run) && i < |run| && Covered(run[0].0, run[0].1)
    ensures Covered(run[i].0, run[i].1)
  {
    if i > 0 {
      RoundsKeepCovered(cfg, run, i - 1);
      assert AnyRound(cfg, run[i - 1], run[i]);
      var ev, env :| Round(cfg, run[i - 1].0, run[i - 1].1, run[i].0, run[i].1, ev, env);
      RoundKeepsCovered(cfg, run[i - 1].0, run[i - 1].1, run[i].0, run[i].1, ev, env);
    }
  }

  /**
   From a fresh leader on, across evictions, lazy expiry, sweeps and disconnects: after every round each
   joined reader, writers included, has every key of the leader's cache with the leader's value.
   */
  lemma {:induction false} NoLostKeys(cfg: Config, run: seq<(World, Locals)>, i: nat, d: Conn, id: string)
    requires Rounds(cfg, run) && run[0] == (EMPTY, map[]) && i < |run|
    requires d in run[i].0.conns && run[i].0.conns[d] == Some(id)
    ensures id in run[i].0.sheets && d in run[i].1 && run[i].1[d].phase == Live
    ensures Within(Content(run[i].0.sheets[id].cache), run[i].1[d].local)
  {
    RoundsKeepCovered(cfg, run, i);
    assert CoversOpen(run[i].0, run[i].1, d);
  }
}
