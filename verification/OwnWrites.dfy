/** A reader that writes, from both sides: when its map is exactly what the leader has, not only nothing less. */
module OwnWrites {
  import opened Prelude
  import opened Server
  import opened Session
  import opened Channels
  import opened Contents
  import opened Readers
  import Writers
  import Lru

  /** The reader is live with exactly the leader's contents. */
  ghost predicate Synced(w: World, rd: Reader, d: Conn, id: string) {
    Seated(w, d, id) && rd == Reader(Live, Content(w.sheets[id].cache))
  }

  /** The reader after one event: its own change first, then all it is told. */
  function After(cfg: Config, w: World, rd: Reader, ev: Event, env: Env, d: Conn): Reader
    requires Linked(w)
  {
    ReceiveAll(Writers.Prepared(rd, ev, d), Fresh(w, Step(cfg, w, ev, env), d))
  }

  /** A change of its own that the reader cannot get right: nobody tells it what its set displaced. */
  ghost predicate Misses(s: Lru.State, req: Request, env: Env) {
    match req
    case Set(key, _, _) => PushedOut(s, key).Some?
    case SetNull(key) => !(key in Content(s) && Content(s)[key] == NULL_PLACEHOLDER)
    case Get(key) => Lru.HasKey(s.entries, key) && env.now > Lru.Find(s.entries, key).expiresAt
    case _ => false
  }

  ghost predicate Parts(w: World, ev: Event, env: Env, d: Conn, id: string)
    requires id in w.sheets
  {
    if ev.Act? && ev.c == d then InThisSheet(w, ev, id) && Misses(w.sheets[id].cache, ev.req, env)
    else Upsets(w, ev, env, id)
  }

  lemma OwnSetExactly(s: Lru.State, key: string, value: Json, expiresAt: int)
    requires Lru.Valid(s)
    ensures Content(Lru.Set(s, key, value, expiresAt).state) == Content(s)[key := value] <==> PushedOut(s, key).None?
  {
    DumpSet(s, key, value, expiresAt);
    if PushedOut(s, key).Some? {
      assert PushedOut(s, key).value in Content(s)[key := value];
      assert PushedOut(s, key).value !in (Content(s) - {PushedOut(s, key).value})[key := value];
    }
  }

  lemma OwnSetNullExactly(s: Lru.State, key: string, expiresAt: int)
    requires Lru.Valid(s)
    ensures Content(Lru.Set(s, key, NULL_PLACEHOLDER, expiresAt).state) == Content(s)
            <==> key in Content(s) && Content(s)[key] == NULL_PLACEHOLDER
  {
    DumpSet(s, key, NULL_PLACEHOLDER, expiresAt);
    DumpHasKey(s.entries, key);
    if key in Content(s) {
      PutNothingNew(Content(s), key, NULL_PLACEHOLDER);
    } else {
      assert key in Content(Lru.Set(s, key, NULL_PLACEHOLDER, expiresAt).state);
    }
  }

  /** What the reader does to its map at once, against what the leader's cache becomes. */
  lemma OwnExactly(cfg: Config, s: Lru.State, req: Request, env: Env)
    requires Lru.Valid(s)
    ensures Writers.Issue(Reader(Live, Content(s)), req) == Reader(Live, Content(CacheAfter(cfg, s, req, env)))
            <==> !Misses(s, req, env)
  {
    match req
    case Set(key, value, jitter) => OwnSetExactly(s, key, value, ExpiresAt(cfg, jitter, env));
    case SetNull(key) => OwnSetNullExactly(s, key, ExpiresAt(cfg, false, env));
    case Delete(key) =>
      DumpWithout(s.entries, Lru.ByKey(key));
      SparedKey(Content(s), key);
    case DeletePrefix(prefix) => DumpWithout(s.entries, Lru.ByPrefix(prefix));
    case DeleteSuffix(suffix) => DumpWithout(s.entries, Lru.BySuffix(suffix));
    case Get(key) => GetTold(cfg, s, key, env);
    case _ =>
  }

  lemma OwnRequestExactly(cfg: Config, w: World, rd: Reader, req: Request, env: Env, d: Conn, id: string)
    requires Synced(w, rd, d, id) && !req.Open? && !req.RegisterReplica?
    ensures Synced(Step(cfg, w, Act(d, req), env), After(cfg, w, rd, Act(d, req), env, d), d, id)
            <==> !Misses(w.sheets[id].cache, req, env)
  {
    var w' := HandleInSheet(cfg, w, d, id, req, env);
    assert Step(cfg, w, Act(d, req), env) == w';
    InSheetSeated(cfg, w, d, req, env, d, id);
    InSheetCaches(cfg, w, d, id, req, env);
    var reply := OwnReply(cfg, w, d, id, req, env);
    assert Fresh(w, w', d) == reply;
    ResponsesIgnored(Writers.Issue(rd, req), reply);
    OwnExactly(cfg, w.sheets[id].cache, req, env);
  }

  /** Whatever happens short of d's leaving: the reader stays exact exactly if the event does not part the two. */
  lemma SyncedExactly(cfg: Config, w: World, rd: Reader, ev: Event, env: Env, d: Conn, id: string)
    requires Synced(w, rd, d, id) && !TakesBothRoles(w, ev) && ev != Disconnect(d)
    ensures Synced(Step(cfg, w, ev, env), After(cfg, w, rd, ev, env, d), d, id) <==> !Parts(w, ev, env, d, id)
  {
    if ev.Act? && ev.c == d && !ev.req.Open? && !ev.req.RegisterReplica? {
      OwnRequestExactly(cfg, w, rd, ev.req, env, d, id);
    } else if ev != Connect(d) {
      assert ReceiveAll(rd, []) == rd;
      assert Converges(w, rd, [], d, id);
      StepConvergesExactly(cfg, w, ev, env, rd, [], d, id);
      assert [] + Fresh(w, Step(cfg, w, ev, env), d) == Fresh(w, Step(cfg, w, ev, env), d);
    } else {
      assert Step(cfg, w, ev, env) == w && Fresh(w, w, d) == [];
    }
  }

  /** In particular for the only writer of a sheet, as long as nothing expires and none of its sets displaces a key. */
  lemma OnlyWriterStays(w: World, ev: Event, env: Env, d: Conn, id: string)
    requires Seated(w, d, id)
    requires InThisSheet(w, ev, id) ==>
               if ev.c != d then !Mutates(ev.req)
               else !ev.req.SetNull? && (ev.req.Set? ==> PushedOut(w.sheets[id].cache, ev.req.key).None?)
    requires forall e :: e in w.sheets[id].cache.entries ==> env.now <= e.expiresAt
    ensures !Parts(w, ev, env, d, id)
  {
  }

  // ----- whole runs, every event with all its deliveries

  /** Nobody takes both roles, d stays, and no event parts the two. */
  ghost predicate Kept(cfg: Config, w: World, trace: Trace, d: Conn, id: string)
    requires Linked(w)
    decreases trace
  {
    if trace == [] then true
    else
      var (ev, env) := trace[0];
      StepKeepsLinked(cfg, w, ev, env);
      && id in w.sheets && !TakesBothRoles(w, ev) && ev != Disconnect(d) && !Parts(w, ev, env, d, id)
      && Kept(cfg, Step(cfg, w, ev, env), trace[1..], d, id)
  }

  function AfterAll(cfg: Config, w: World, rd: Reader, trace: Trace, d: Conn): Reader
    requires Linked(w)
    decreases trace
  {
    if trace == [] then rd
    else
      var (ev, env) := trace[0];
      StepKeepsLinked(cfg, w, ev, env);
      AfterAll(cfg, Step(cfg, w, ev, env), After(cfg, w, rd, ev, env, d), trace[1..], d)
  }

  lemma {:induction false} KeptSynced(cfg: Config, w: World, rd: Reader, trace: Trace, d: Conn, id: string)
    requires Synced(w, rd, d, id) && Kept(cfg, w, trace, d, id)
    ensures Synced(Run(cfg, w, trace), AfterAll(cfg, w, rd, trace, d), d, id)
    decreases trace
  {
    if trace != [] {
      var (ev, env) := trace[0];
      SyncedExactly(cfg, w, rd, ev, env, d, id);
      KeptSynced(cfg, Step(cfg, w, ev, env), After(cfg, w, rd, ev, env, d), trace[1..], d, id);
    }
  }

  /**
   From its open on, whatever it held before: a reader that sets and deletes as it likes, while others do too, has after
   every event exactly the leader's contents, if no event in between parts the two.
   */
  lemma {:induction false} WriterHasExactly(cfg: Config, w: World, d: Conn, id: string, password: string, env: Env,
                                            before: Data, trace: Trace)
    requires Bookkeeping(w) && d in w.clients && d in w.conns && Opens(w, d, id, password)
    requires id in w.sheets ==> Lru.Valid(w.sheets[id].cache)
    requires Linked(Step(cfg, w, Act(d, Open(id, password)), env))
    requires Kept(cfg, Step(cfg, w, Act(d, Open(id, password)), env), trace, d, id)
    ensures var w1 := Step(cfg, w, Act(d, Open(id, password)), env);
            var rd := After(cfg, w, Reader(Connecting, before), Act(d, Open(id, password)), env, d);
            var end := Run(cfg, w1, trace);
            id in end.sheets && AfterAll(cfg, w1, rd, trace, d) == Reader(Live, Content(end.sheets[id].cache))
  {
    var w1 := HandleOpen(cfg, w, d, id, password);
    var rd := Reader(Connecting, before);
    OpenedConverges(cfg, d, id, password, w, System(w1, rd, Fresh(w, w1, d)));
    KeptSynced(cfg, w1, ReceiveAll(rd, Fresh(w, w1, d)), trace, d, id);
  }
}
