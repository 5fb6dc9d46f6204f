/** Readers (reader/reader.go): what a local map becomes as messages arrive, and when it equals or covers the
    leader's. */
module Readers {
  import opened Prelude
  import opened Server
  import opened Session
  import opened Channels
  import opened Contents
  import Lru

  /** Connecting until the open is acknowledged, Authenticated until the sheet state arrives. */
  datatype Phase = Connecting | Authenticated | Live | Failed

  datatype Reader = Reader(phase: Phase, local: Data)

  /** handleMessage on a connected reader; messages without a known type change nothing. */
  function Handle(local: Data, m: Message): Data {
    match m
    case SheetState(data) => data
    case SetBroadcast(key, value) => local[key := value]
    case Replicate(_, key, value, _) => local[key := value]
    case Invalidate(key, prefix, suffix) =>
      if key != "" then local - {key}
      else if prefix != "" then Spared(local, Lru.ByPrefix(prefix))
      else if suffix != "" then Spared(local, Lru.BySuffix(suffix))
      else local
    case _ => local
  }

  /** What a pair adds and a whole state puts in the place of the map, at a reader that is live. */
  lemma StoresExactly(local: Data, key: string, value: Json, sheet: string, jitter: bool, data: Data)
    ensures Receive(Reader(Live, local), SetBroadcast(key, value)) == Reader(Live, local[key := value])
    ensures Receive(Reader(Live, local), Replicate(sheet, key, value, jitter)) == Reader(Live, local[key := value])
    ensures Receive(Reader(Live, local), SheetState(data)) == Reader(Live, data)
  {
  }

  /** What an invalidation drops, with the pattern written out. */
  lemma InvalidatesExactly(local: Data, key: string, prefix: string, suffix: string)
    ensures var after := Handle(local, Invalidate(key, prefix, suffix));
            && (forall k :: k in after ==> k in local && after[k] == local[k])
            && (forall k :: k in local ==> (k !in after <==>
                  if key != "" then k == key
                  else if prefix != "" then exists rest :: k == prefix + rest
                  else suffix != "" && exists rest :: k == rest + suffix))
  {
    PrefixesExactly(prefix);
    SuffixesExactly(suffix);
  }

  /** One message read, by the loop of connectTo until the reader is live and by listen afterwards. */
  function Receive(rd: Reader, m: Message): Reader {
    match rd.phase
    case Connecting =>
      if m.Response? && m.success then rd.(phase := Authenticated)
      else if m.Response? && m.error != "" then rd.(phase := Failed)
      else rd
    case Authenticated => if m.SheetState? then Reader(Live, m.data) else rd
    case Live => rd.(local := Handle(rd.local, m))
    case Failed => rd
  }

  function ReceiveAll(rd: Reader, queue: seq<Message>): Reader
    decreases queue
  {
    if queue == [] then rd else ReceiveAll(Receive(rd, queue[0]), queue[1..])
  }

  lemma {:induction false} ReceiveMore(rd: Reader, q: seq<Message>, more: seq<Message>)
    ensures ReceiveAll(rd, q + more) == ReceiveAll(ReceiveAll(rd, q), more)
    decreases q
  {
    if q == [] {
      assert q + more == more;
    } else {
      assert (q + more)[1..] == q[1..] + more;
      ReceiveMore(Receive(rd, q[0]), q[1..], more);
    }
  }

  lemma ReceiveOne(rd: Reader, m: Message)
    ensures ReceiveAll(rd, [m]) == Receive(rd, m)
  {
  }

  lemma ReceiveTwo(rd: Reader, m: Message, n: Message)
    ensures ReceiveAll(rd, [m, n]) == Receive(Receive(rd, m), n)
  {
    assert [m, n] == [m] + [n];
    ReceiveMore(rd, [m], [n]);
    ReceiveOne(rd, m);
    ReceiveOne(Receive(rd, m), n);
  }

  predicate Mutates(req: Request) {
    req.Set? || req.SetNull? || req.Delete? || req.DeletePrefix? || req.DeleteSuffix?
  }

  // ----- one request, seen by a live collaborator

  /** When a request of another collaborator makes the leader's contents and what is broadcast part ways. */
  ghost predicate Spoils(s: Lru.State, req: Request, env: Env) {
    match req
    case Set(key, _, _) => PushedOut(s, key) == Some("")
    case SetNull(key) => !(key in Content(s) && Content(s)[key] == NULL_PLACEHOLDER)
    case Delete(key) => key == "" && "" in Content(s)
    case DeletePrefix(prefix) => prefix == "" && Content(s) != map[]
    case DeleteSuffix(suffix) => suffix == "" && Content(s) != map[]
    case Get(key) => Lru.HasKey(s.entries, key) && env.now > Lru.Find(s.entries, key).expiresAt
    case _ => false
  }

  /** The broadcasts of a request, as Heard gives them to a collaborator that is no replica. */
  function Told(cfg: Config, s: Lru.State, req: Request, env: Env): seq<Message> {
    match req
    case Set(key, value, jitter) =>
      [SetBroadcast(key, value)]
      + HeardEviction(true, false, "", Lru.Set(s, key, value, ExpiresAt(cfg, jitter, env)).evicted)
    case SetNull(key) =>
      HeardEviction(true, false, "", Lru.Set(s, key, NULL_PLACEHOLDER, ExpiresAt(cfg, false, env)).evicted)
    case Delete(key) => [Invalidate(key, "", "")]
    case DeletePrefix(prefix) => [Invalidate("", prefix, "")]
    case DeleteSuffix(suffix) => [Invalidate("", "", suffix)]
    case _ => []
  }

  lemma HeardIsTold(cfg: Config, w: World, c: Conn, id: string, req: Request, env: Env, d: Conn)
    requires id in w.sheets && d in w.sheets[id].collaborators && d !in w.replicas
    ensures Heard(cfg, w, c, id, req, env, d) == Told(cfg, w.sheets[id].cache, req, env)
  {
  }

  /** Storing the pair, then dropping the evicted key if its name is not empty. */
  lemma StoreThenDrop(live: Reader, key: string, value: Json, evicted: string)
    requires live.phase == Live
    ensures ReceiveAll(live, [SetBroadcast(key, value)] + HeardEviction(true, false, "", evicted))
            == Reader(Live, if evicted == "" then live.local[key := value] else live.local[key := value] - {evicted})
  {
    if evicted == "" {
      ReceiveOne(live, SetBroadcast(key, value));
      assert [SetBroadcast(key, value)] + [] == [SetBroadcast(key, value)];
    } else {
      assert HeardEviction(true, false, "", evicted) == [Invalidate(evicted, "", "")];
      ReceiveTwo(live, SetBroadcast(key, value), Invalidate(evicted, "", ""));
      assert [SetBroadcast(key, value)] + [Invalidate(evicted, "", "")]
          == [SetBroadcast(key, value), Invalidate(evicted, "", "")];
    }
  }

  lemma SetTold(cfg: Config, s: Lru.State, key: string, value: Json, jitter: bool, env: Env)
    requires Lru.Valid(s)
    ensures ReceiveAll(Reader(Live, Content(s)), Told(cfg, s, Set(key, value, jitter), env))
              == Reader(Live, Content(CacheAfter(cfg, s, Set(key, value, jitter), env)))
            <==> PushedOut(s, key) != Some("")
  {
    var r := Lru.Set(s, key, value, ExpiresAt(cfg, jitter, env));
    DumpSet(s, key, value, ExpiresAt(cfg, jitter, env));
    StoreThenDrop(Reader(Live, Content(s)), key, value, r.evicted);
    if r.evicted != "" {
      PutThenDrop(Content(s), key, value, r.evicted);
    } else if PushedOut(s, key) == Some("") {
      EmptyKeyStays(Content(s), key, value);
    }
  }

  lemma EmptyKeyStays(d: Data, key: string, value: Json)
    requires key != "" && "" in d
    ensures d[key := value] != (d - {""})[key := value]
  {
    assert "" in d[key := value] && "" !in (d - {""})[key := value];
  }

  lemma SetNullTold(cfg: Config, s: Lru.State, key: string, env: Env)
    requires Lru.Valid(s)
    ensures ReceiveAll(Reader(Live, Content(s)), Told(cfg, s, SetNull(key), env))
              == Reader(Live, Content(CacheAfter(cfg, s, SetNull(key), env)))
            <==> key in Content(s) && Content(s)[key] == NULL_PLACEHOLDER
  {
    var r := Lru.Set(s, key, NULL_PLACEHOLDER, ExpiresAt(cfg, false, env));
    DumpSet(s, key, NULL_PLACEHOLDER, ExpiresAt(cfg, false, env));
    DumpHasKey(s.entries, key);
    var live := Reader(Live, Content(s));
    if r.evicted == "" {
      assert Told(cfg, s, SetNull(key), env) == [];
      assert ReceiveAll(live, []) == live;
      PutNothingNew(Content(s), key, NULL_PLACEHOLDER);
    } else {
      assert Told(cfg, s, SetNull(key), env) == [Invalidate(r.evicted, "", "")];
      ReceiveOne(live, Invalidate(r.evicted, "", ""));
      assert key !in Content(s) - {r.evicted};
    }
  }

  lemma PutNothingNew(d: Data, key: string, value: Json)
    ensures d[key := value] == d <==> key in d && d[key] == value
    ensures "" in d && key !in d ==> (d - {""})[key := value] != d
  {
  }

  lemma DeleteTold(cfg: Config, s: Lru.State, key: string, env: Env)
    ensures ReceiveAll(Reader(Live, Content(s)), Told(cfg, s, Delete(key), env))
            == Reader(Live, Content(CacheAfter(cfg, s, Delete(key), env)))
            <==> !(key == "" && "" in Content(s))
  {
    var d := Content(s);
    ReceiveOne(Reader(Live, d), Invalidate(key, "", ""));
    assert Handle(d, Invalidate(key, "", "")) == if key != "" then d - {key} else d;
    DumpWithout(s.entries, Lru.ByKey(key));
    SparedKey(d, key);
    assert Content(CacheAfter(cfg, s, Delete(key), env)) == d - {key};
  }

  lemma DeletePrefixTold(cfg: Config, s: Lru.State, prefix: string, env: Env)
    ensures ReceiveAll(Reader(Live, Content(s)), Told(cfg, s, DeletePrefix(prefix), env))
              == Reader(Live, Content(CacheAfter(cfg, s, DeletePrefix(prefix), env)))
            <==> !(prefix == "" && Content(s) != map[])
  {
    ReceiveOne(Reader(Live, Content(s)), Invalidate("", prefix, ""));
    DumpWithout(s.entries, Lru.ByPrefix(prefix));
    if prefix == "" { EmptyPatternMatchesAll(Content(s)); }
  }

  lemma DeleteSuffixTold(cfg: Config, s: Lru.State, suffix: string, env: Env)
    ensures ReceiveAll(Reader(Live, Content(s)), Told(cfg, s, DeleteSuffix(suffix), env))
              == Reader(Live, Content(CacheAfter(cfg, s, DeleteSuffix(suffix), env)))
            <==> !(suffix == "" && Content(s) != map[])
  {
    ReceiveOne(Reader(Live, Content(s)), Invalidate("", "", suffix));
    DumpWithout(s.entries, Lru.BySuffix(suffix));
    if suffix == "" { EmptyPatternMatchesAll(Content(s)); }
  }

  lemma EmptyPatternMatchesAll(d: Data)
    ensures Spared(d, Lru.ByPrefix("")) == map[] && Spared(d, Lru.BySuffix("")) == map[]
  {
  }

  lemma GetTold(cfg: Config, s: Lru.State, key: string, env: Env)
    requires Lru.Valid(s)
    ensures Content(s) == Content(CacheAfter(cfg, s, Get(key), env)) <==> !Spoils(s, Get(key), env)
  {
    if Spoils(s, Get(key), env) {
      DumpHasKey(s.entries, key);
      DumpWithout(s.entries, Lru.ByKey(key));
      assert key !in Spared(Content(s), Lru.ByKey(key));
    } else {
      DumpGet(s, key, env.now);
    }
  }

  /** A request keeps a live collaborator's map equal to the leader's exactly when it does not spoil it. */
  lemma TellsExactly(cfg: Config, s: Lru.State, req: Request, env: Env)
    requires Lru.Valid(s)
    ensures ReceiveAll(Reader(Live, Content(s)), Told(cfg, s, req, env))
            == Reader(Live, Content(CacheAfter(cfg, s, req, env)))
            <==> !Spoils(s, req, env)
  {
    match req
    case Set(key, value, jitter) => SetTold(cfg, s, key, value, jitter, env);
    case SetNull(key) => SetNullTold(cfg, s, key, env);
    case Delete(key) => DeleteTold(cfg, s, key, env);
    case DeletePrefix(prefix) => DeletePrefixTold(cfg, s, prefix, env);
    case DeleteSuffix(suffix) => DeleteSuffixTold(cfg, s, suffix, env);
    case Get(key) =>
      assert ReceiveAll(Reader(Live, Content(s)), []) == Reader(Live, Content(s));
      GetTold(cfg, s, key, env);
    case _ => assert ReceiveAll(Reader(Live, Content(s)), []) == Reader(Live, Content(s));
  }

  /** A key or pattern is named, nothing is a null placeholder and nothing met has expired. */
  predicate Ordinary(s: Lru.State, req: Request, env: Env) {
    match req
    case Set(key, _, _) => key != ""
    case SetNull(_) => false
    case Delete(key) => key != ""
    case DeletePrefix(prefix) => prefix != ""
    case DeleteSuffix(suffix) => suffix != ""
    case Get(key) => Lru.HasKey(s.entries, key) ==> env.now <= Lru.Find(s.entries, key).expiresAt
    case _ => true
  }

  /** Ordinary requests never spoil anything, as long as the empty key was never stored; and they do not store it. */
  lemma OrdinaryNeverSpoils(cfg: Config, s: Lru.State, req: Request, env: Env)
    requires Lru.Valid(s) && "" !in Content(s) && Ordinary(s, req, env)
    ensures !Spoils(s, req, env) && "" !in Content(CacheAfter(cfg, s, req, env))
  {
    match req
    case Set(key, value, jitter) => DumpSet(s, key, value, ExpiresAt(cfg, jitter, env));
    case Delete(key) => DumpWithout(s.entries, Lru.ByKey(key));
    case DeletePrefix(prefix) => DumpWithout(s.entries, Lru.ByPrefix(prefix));
    case DeleteSuffix(suffix) => DumpWithout(s.entries, Lru.BySuffix(suffix));
    case Get(key) => DumpGet(s, key, env.now);
    case _ =>
  }

  // ----- replies to a connection's own requests

  ghost predicate OnlyResponses(q: seq<Message>) {
    forall i :: 0 <= i < |q| ==> q[i].Response?
  }

  lemma {:induction false} ResponsesIgnored(rd: Reader, q: seq<Message>)
    requires rd.phase == Live && OnlyResponses(q)
    ensures ReceiveAll(rd, q) == rd
    decreases q
  {
    if q != [] { ResponsesIgnored(rd, q[1..]); }
  }

  lemma OwnMutate(w: World, c: Conn, id: string, cache: Lru.State, reply: Message, m: Message, rep: Message)
    requires id in w.sheets && c !in w.replicas
    ensures Queue(Mutate(w, c, id, cache, reply, m, rep).sent, c) == Queue(w.sent, c) + [reply]
  {
  }

  lemma OwnSet(cfg: Config, w: World, c: Conn, id: string, key: string, value: Json, jitter: bool, env: Env)
    requires id in w.sheets && c !in w.replicas
    ensures Queue(HandleSet(cfg, w, c, id, key, value, jitter, env).sent, c) == Queue(w.sent, c) + [Ok(key)]
  {
  }

  lemma OwnSetNull(cfg: Config, w: World, c: Conn, id: string, key: string, env: Env)
    requires id in w.sheets && c !in w.replicas
    ensures Queue(HandleSetNull(cfg, w, c, id, key, env).sent, c) == Queue(w.sent, c) + [Ok(key)]
  {
  }

  lemma OwnDelete(cfg: Config, w: World, c: Conn, id: string, req: Request, env: Env) returns (reply: Message)
    requires id in w.sheets && c !in w.replicas && (req.Delete? || req.DeletePrefix? || req.DeleteSuffix?)
    ensures reply.Response? && Queue(HandleInSheet(cfg, w, c, id, req, env).sent, c) == Queue(w.sent, c) + [reply]
  {
    var cache := w.sheets[id].cache;
    match req
    case Delete(key) =>
      reply := Deleted(key, 1);
      OwnMutate(w, c, id, Lru.Delete(cache, Lru.ByKey(key)), reply, Invalidate(key, "", ""), ReplicateDelete(id, key));
    case DeletePrefix(prefix) =>
      var after := Lru.Delete(cache, Lru.ByPrefix(prefix));
      reply := Removed(cache, after);
      OwnMutate(w, c, id, after, reply, Invalidate("", prefix, ""), ReplicateDeletePrefix(id, prefix));
    case DeleteSuffix(suffix) =>
      var after := Lru.Delete(cache, Lru.BySuffix(suffix));
      reply := Removed(cache, after);
      OwnMutate(w, c, id, after, reply, Invalidate("", "", suffix), ReplicateDeleteSuffix(id, suffix));
  }

  lemma OwnOther(cfg: Config, w: World, c: Conn, id: string, req: Request, env: Env) returns (reply: seq<Message>)
    requires id in w.sheets && c !in w.replicas && !Mutates(req)
    ensures OnlyResponses(reply) && Queue(HandleInSheet(cfg, w, c, id, req, env).sent, c) == Queue(w.sent, c) + reply
  {
    if req.Lock? {
      reply := OwnLock(cfg, w, c, id, req.key, req.ttl, env);
    } else if req.Unlock? {
      reply := OwnUnlock(w, c, id, req.key);
    } else {
      reply := Queue(HandleInSheet(cfg, w, c, id, req, env).sent, c)[|Queue(w.sent, c)|..];
    }
  }

  lemma OwnLock(cfg: Config, w: World, c: Conn, id: string, key: string, ttl: int, env: Env)
    returns (reply: seq<Message>)
    requires c !in w.replicas
    ensures OnlyResponses(reply) && Queue(HandleLock(cfg, w, c, id, key, ttl, env).sent, c) == Queue(w.sent, c) + reply
  {
    reply := Queue(HandleLock(cfg, w, c, id, key, ttl, env).sent, c)[|Queue(w.sent, c)|..];
  }

  lemma OwnUnlock(w: World, c: Conn, id: string, key: string) returns (reply: seq<Message>)
    requires c !in w.replicas
    ensures OnlyResponses(reply) && Queue(HandleUnlock(w, c, id, key).sent, c) == Queue(w.sent, c) + reply
  {
    reply := Queue(HandleUnlock(w, c, id, key).sent, c)[|Queue(w.sent, c)|..];
  }

  /** The sender of a request hears one response and none of its own broadcasts. */
  lemma OwnReply(cfg: Config, w: World, c: Conn, id: string, req: Request, env: Env) returns (reply: seq<Message>)
    requires id in w.sheets && c !in w.replicas
    ensures OnlyResponses(reply)
    ensures Queue(HandleInSheet(cfg, w, c, id, req, env).sent, c) == Queue(w.sent, c) + reply
  {
    if !Mutates(req) {
      reply := OwnOther(cfg, w, c, id, req, env);
    } else if req.Set? {
      OwnSet(cfg, w, c, id, req.key, req.value, req.jitter, env);
      reply := [Ok(req.key)];
    } else if req.SetNull? {
      OwnSetNull(cfg, w, c, id, req.key, env);
      reply := [Ok(req.key)];
    } else {
      var r := OwnDelete(cfg, w, c, id, req, env);
      reply := [r];
    }
  }

  // ----- a passive collaborator converges

  /** The leader, one collaborator's reader, and what is under way to it. */
  datatype System = System(world: World, reader: Reader, pending: seq<Message>)

  /** Collaborator d stays and changes nothing, and nobody takes both roles. */
  ghost predicate Passive(w: World, ev: Event, d: Conn) {
    && !TakesBothRoles(w, ev)
    && match ev
       case Connect(c) => c != d
       case Disconnect(c) => c != d
       case Act(c, req) => c == d ==> !Mutates(req)
       case _ => true
  }

  /** A spoiling request in sheet `id`, or a sweep of it that finds an expired entry and tells nobody. */
  ghost predicate Upsets(w: World, ev: Event, env: Env, id: string)
    requires id in w.sheets
  {
    match ev
    case Act(c, req) => c in w.conns && w.conns[c] == Some(id) && Spoils(w.sheets[id].cache, req, env)
    case Sweep(s) => s == id && exists e :: e in w.sheets[id].cache.entries && env.now > e.expiresAt
    case _ => false
  }

  ghost predicate Calm(w: World, ev: Event, env: Env, d: Conn, id: string)
    requires id in w.sheets
  {
    Passive(w, ev, d) && !Upsets(w, ev, env, id)
  }

  /** Collaborator d is in its place in a world with its bookkeeping in order. */
  ghost predicate Seated(w: World, d: Conn, id: string) {
    && Bookkeeping(w) && d in w.clients && d in w.conns && w.conns[d] == Some(id) && id in w.sheets
    && Lru.Valid(w.sheets[id].cache)
  }

  /** Applying what is pending makes the reader live with exactly the leader's contents. */
  ghost predicate Converges(w: World, rd: Reader, pending: seq<Message>, d: Conn, id: string) {
    Seated(w, d, id) && ReceiveAll(rd, pending) == Reader(Live, Content(w.sheets[id].cache))
  }

  ghost predicate LeaderMoves(cfg: Config, d: Conn, id: string, s: System, s': System, ev: Event, env: Env) {
    && Linked(s.world) && id in s.world.sheets && Calm(s.world, ev, env, d, id)
    && s' == System(Step(cfg, s.world, ev, env), s.reader, s.pending + Fresh(s.world, s'.world, d))
  }

  ghost predicate Delivers(s: System, s': System) {
    s.pending != [] && s' == System(s.world, Receive(s.reader, s.pending[0]), s.pending[1..])
  }

  ghost predicate Next(cfg: Config, d: Conn, id: string, s: System, s': System) {
    Delivers(s, s') || exists ev, env :: LeaderMoves(cfg, d, id, s, s', ev, env)
  }

  /** Connection d has just opened the sheet with a reader that may still hold anything from before. */
  ghost predicate JustOpened(cfg: Config, d: Conn, id: string, password: string, w: World, s: System) {
    && Bookkeeping(w) && d in w.clients && d in w.conns && Opens(w, d, id, password)
    && (id in w.sheets ==> Lru.Valid(w.sheets[id].cache))
    && s.world == HandleOpen(cfg, w, d, id, password)
    && s.reader.phase == Connecting && s.pending == Fresh(w, s.world, d)
  }

  lemma OpenedConverges(cfg: Config, d: Conn, id: string, password: string, w: World, s: System)
    requires JustOpened(cfg, d, id, password, w, s)
    ensures Converges(s.world, s.reader, s.pending, d, id)
  {
    OpenKeeps(cfg, w, d, id, password);
    var data := Lru.Dump(s.world.sheets[id].cache.entries);
    assert s.pending == [Response(true, id, "", Null, 0, "", 0), SheetState(data)];
    ReceiveTwo(s.reader, Response(true, id, "", Null, 0, "", 0), SheetState(data));
  }

  /** A step that sends d only responses keeps it converging exactly if it leaves the sheet's contents alone. */
  lemma UnchangedConverges(w: World, w': World, rd: Reader, pending: seq<Message>, more: seq<Message>, d: Conn,
                           id: string)
    requires Converges(w, rd, pending, d, id) && OnlyResponses(more) && Seated(w', d, id)
    ensures Converges(w', rd, pending + more, d, id)
            <==> Content(w'.sheets[id].cache) == Content(w.sheets[id].cache)
  {
    ReceiveMore(rd, pending, more);
    ResponsesIgnored(ReceiveAll(rd, pending), more);
  }

  lemma CacheStaysValid(cfg: Config, s: Lru.State, req: Request, env: Env)
    requires Lru.Valid(s)
    ensures Lru.Valid(CacheAfter(cfg, s, req, env))
  {
    match req
    case Set(key, value, jitter) => Lru.SetKeepsValid(s, key, value, ExpiresAt(cfg, jitter, env));
    case SetNull(key) => Lru.SetKeepsValid(s, key, NULL_PLACEHOLDER, ExpiresAt(cfg, false, env));
    case Get(key) => Lru.GetKeepsValid(s, key, env.now);
    case _ =>
  }

  lemma InSheetSeated(cfg: Config, w: World, c: Conn, req: Request, env: Env, d: Conn, id: string)
    requires Seated(w, d, id) && c in w.conns && w.conns[c] == Some(id)
    ensures Seated(HandleInSheet(cfg, w, c, id, req, env), d, id)
  {
    InSheetKeeps(cfg, w, c, id, req, env);
    InSheetCaches(cfg, w, c, id, req, env);
    InSheetMembership(cfg, w, c, id, req, env);
    CacheStaysValid(cfg, w.sheets[id].cache, req, env);
  }

  /** Another collaborator's request in the same sheet. */
  lemma OthersConverge(cfg: Config, w: World, c: Conn, req: Request, env: Env, rd: Reader, pending: seq<Message>,
                       d: Conn, id: string)
    requires Converges(w, rd, pending, d, id) && c in w.conns && w.conns[c] == Some(id) && c != d
    ensures var w', more := HandleInSheet(cfg, w, c, id, req, env), Heard(cfg, w, c, id, req, env, d);
            && Queue(w'.sent, d) == Queue(w.sent, d) + more
            && (Converges(w', rd, pending + more, d, id) <==> !Spoils(w.sheets[id].cache, req, env))
  {
    var more := Heard(cfg, w, c, id, req, env, d);
    InSheetSeated(cfg, w, c, req, env, d, id);
    InSheetCaches(cfg, w, c, id, req, env);
    HeardExactly(cfg, w, c, id, req, env, d);
    assert d in w.sheets[id].collaborators && d !in w.replicas;
    HeardIsTold(cfg, w, c, id, req, env, d);
    TellsExactly(cfg, w.sheets[id].cache, req, env);
    ReceiveMore(rd, pending, more);
  }

  /** The reader's own request that mutates nothing. */
  lemma OwnConverges(cfg: Config, w: World, req: Request, env: Env, rd: Reader, pending: seq<Message>, d: Conn,
                     id: string) returns (more: seq<Message>)
    requires Converges(w, rd, pending, d, id) && !Mutates(req)
    ensures var w' := HandleInSheet(cfg, w, d, id, req, env);
            && Queue(w'.sent, d) == Queue(w.sent, d) + more
            && (Converges(w', rd, pending + more, d, id) <==> !Spoils(w.sheets[id].cache, req, env))
  {
    more := OwnReply(cfg, w, d, id, req, env);
    InSheetSeated(cfg, w, d, req, env, d, id);
    InSheetCaches(cfg, w, d, id, req, env);
    if req.Get? { GetTold(cfg, w.sheets[id].cache, req.key, env); }
    UnchangedConverges(w, HandleInSheet(cfg, w, d, id, req, env), rd, pending, more, d, id);
  }

  lemma StaysOpen(cfg: Config, w: World, ev: Event, env: Env, d: Conn, id: string)
    requires Linked(w) && d in w.conns && w.conns[d] == Some(id) && ev != Disconnect(d)
    ensures var w' := Step(cfg, w, ev, env); d in w'.conns && w'.conns[d] == Some(id)
  {
    if ev.Act? && ev.c in w.conns { ActionConns(cfg, w, ev.c, ev.req, env); }
  }

  /** The step is a request that some connection makes in this very sheet. */
  predicate InThisSheet(w: World, ev: Event, id: string) {
    ev.Act? && ev.c in w.conns && w.conns[ev.c] == Some(id) && !ev.req.Open? && !ev.req.RegisterReplica?
  }

  lemma AsideCache(cfg: Config, w: World, ev: Event, env: Env, d: Conn, id: string)
    requires Linked(w) && d in w.conns && w.conns[d] == Some(id) && ev != Disconnect(d) && !InThisSheet(w, ev, id)
    ensures var w' := Step(cfg, w, ev, env);
            && id in w'.sheets
            && w'.sheets[id].cache
               == if ev == Sweep(id) then Lru.Delete(w.sheets[id].cache, Lru.ExpiredAt(env.now)) else w.sheets[id].cache
  {
    match ev
    case Act(c, req) => if c in w.conns { AsideAction(cfg, w, c, req, env, id); }
    case Disconnect(c) => if c in w.conns { AsideDisconnect(w, c, d, id); }
    case _ =>
  }

  lemma AsideOpen(cfg: Config, w: World, c: Conn, sheet: string, password: string, id: string)
    requires c in w.conns && id in w.sheets
    ensures var w' := HandleOpen(cfg, w, c, sheet, password);
            id in w'.sheets && w'.sheets[id].cache == w.sheets[id].cache
  {
  }

  lemma AsideAction(cfg: Config, w: World, c: Conn, req: Request, env: Env, id: string)
    requires Linked(w) && c in w.conns && id in w.sheets && !InThisSheet(w, Act(c, req), id)
    ensures var w' := HandleAction(cfg, w, c, req, env); id in w'.sheets && w'.sheets[id].cache == w.sheets[id].cache
  {
    match req
    case Open(sheet, password) => AsideOpen(cfg, w, c, sheet, password, id);
    case RegisterReplica(_, _) =>
    case _ =>
      if w.conns[c].Some? { InSheetCaches(cfg, w, c, w.conns[c].value, req, env); }
  }

  /** A collaborator that stays keeps its sheet alive. */
  lemma AsideDisconnect(w: World, c: Conn, d: Conn, id: string)
    requires Linked(w) && d in w.conns && w.conns[d] == Some(id) && c in w.conns && c != d
    ensures id in OnDisconnect(w, c).sheets && OnDisconnect(w, c).sheets[id].cache == w.sheets[id].cache
  {
    assert d in w.sheets[id].collaborators - {c};
  }

  /** What any step outside the sheet writes to one of its collaborators: at most a response of its own. */
  lemma AsideQueue(cfg: Config, w: World, ev: Event, env: Env, d: Conn, id: string) returns (more: seq<Message>)
    requires Bookkeeping(w) && d in w.conns && w.conns[d] == Some(id) && d in w.clients && ev != Disconnect(d)
    requires !InThisSheet(w, ev, id) && !TakesBothRoles(w, ev)
    ensures OnlyResponses(more) && Queue(Step(cfg, w, ev, env).sent, d) == Queue(w.sent, d) + more
  {
    if ActsItself(ev, d) {
      more := if ev.Connect? then [] else if ev.req.Open? then [Err("already in sheet: " + id)]
              else if !ev.req.validTime then [Err("invalid started_at timestamp (use RFC3339)")]
              else [Err("instance_id required")];
    } else {
      AppendedExactly(cfg, w, ev, env, d);
      more := Appended(cfg, w, ev, env, d);
      if ev.Act? && ev.c in w.conns && w.conns[ev.c].Some? && !ev.req.Open? && !ev.req.RegisterReplica? {
        assert d !in w.sheets[w.conns[ev.c].value].collaborators && d !in w.replicas;
      }
    }
  }

  lemma AsideConverges(cfg: Config, w: World, ev: Event, env: Env, rd: Reader, pending: seq<Message>, d: Conn,
                       id: string)
    requires Converges(w, rd, pending, d, id) && Passive(w, ev, d) && !InThisSheet(w, ev, id)
    ensures var w' := Step(cfg, w, ev, env);
            Converges(w', rd, pending + Fresh(w, w', d), d, id) <==> !Upsets(w, ev, env, id)
  {
    var w' := Step(cfg, w, ev, env);
    BookkeepingExactly(cfg, w, ev, env);
    StaysOpen(cfg, w, ev, env, d, id);
    AsideCache(cfg, w, ev, env, d, id);
    var more := AsideQueue(cfg, w, ev, env, d, id);
    SweepShows(w.sheets[id].cache.entries, env.now);
    UnchangedConverges(w, w', rd, pending, more, d, id);
    assert Fresh(w, w', d) == more;
  }

  /** While d is passive, a step keeps it converging exactly when it does not upset the sheet. */
  lemma StepConvergesExactly(cfg: Config, w: World, ev: Event, env: Env, rd: Reader, pending: seq<Message>, d: Conn,
                             id: string)
    requires Converges(w, rd, pending, d, id) && Passive(w, ev, d)
    ensures var w' := Step(cfg, w, ev, env);
            Converges(w', rd, pending + Fresh(w, w', d), d, id) <==> !Upsets(w, ev, env, id)
  {
    if InThisSheet(w, ev, id) {
      var w' := HandleInSheet(cfg, w, ev.c, id, ev.req, env);
      assert Step(cfg, w, ev, env) == w';
      if ev.c == d {
        var more := OwnConverges(cfg, w, ev.req, env, rd, pending, d, id);
        assert Fresh(w, w', d) == more;
      } else {
        OthersConverge(cfg, w, ev.c, ev.req, env, rd, pending, d, id);
        assert Fresh(w, w', d) == Heard(cfg, w, ev.c, id, ev.req, env, d);
      }
    } else {
      AsideConverges(cfg, w, ev, env, rd, pending, d, id);
    }
  }

  lemma NextConverges(cfg: Config, d: Conn, id: string, s: System, s': System)
    requires Converges(s.world, s.reader, s.pending, d, id) && Next(cfg, d, id, s, s')
    ensures Converges(s'.world, s'.reader, s'.pending, d, id)
  {
    if !Delivers(s, s') {
      var ev, env :| LeaderMoves(cfg, d, id, s, s', ev, env);
      StepConvergesExactly(cfg, s.world, ev, env, s.reader, s.pending, d, id);
    }
  }

  ghost predicate Behavior(cfg: Config, d: Conn, id: string, run: seq<System>) {
    run != [] && forall i :: 0 <= i < |run| - 1 ==> Next(cfg, d, id, run[i], run[i + 1])
  }

  lemma {:induction false} BehaviorConverges(cfg: Config, d: Conn, id: string, run: seq<System>, i: nat)
    requires Behavior(cfg, d, id, run) && i < |run|
    requires Converges(run[0].world, run[0].reader, run[0].pending, d, id)
    ensures Converges(run[i].world, run[i].reader, run[i].pending, d, id)
  {
    if i > 0 {
      BehaviorConverges(cfg, d, id, run, i - 1);
      NextConverges(cfg, d, id, run[i - 1], run[i]);
    }
  }

  /**
   From the moment it opens the sheet, whatever it held before, in every reachable state of every interleaving
   of leader steps and deliveries: the collaborator's map with everything pending applied is the leader's Dump.
   */
  lemma {:induction false} ReaderConverges(cfg: Config, d: Conn, id: string, password: string, w: World,
                                           run: seq<System>, i: nat)
    requires Behavior(cfg, d, id, run) && JustOpened(cfg, d, id, password, w, run[0]) && i < |run|
    ensures id in run[i].world.sheets
    ensures ReceiveAll(run[i].reader, run[i].pending) == Reader(Live, Content(run[i].world.sheets[id].cache))
  {
    OpenedConverges(cfg, d, id, password, w, run[0]);
    BehaviorConverges(cfg, d, id, run, i);
  }
}
