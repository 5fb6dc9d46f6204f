/** Runs of the leader and the bookkeeping that ties connections, collaborators, sheets and locks together. */
module Session {
  import opened Prelude
  import opened Server
  import Leases

  type Trace = seq<(Event, Env)>

  function Run(cfg: Config, w: World, trace: Trace): (w': World)
    requires Linked(w)
    ensures Linked(w')
    decreases trace
  {
    if trace == [] then w
    else
      StepKeepsLinked(cfg, w, trace[0].0, trace[0].1);
      Run(cfg, Step(cfg, w, trace[0].0, trace[0].1), trace[1..])
  }

  /** A connection is a client or a replica, and exactly the clients with a sheet open are its collaborators. */
  ghost predicate Members(w: World) {
    && Linked(w)
    && w.replicas <= w.conns.Keys && w.clients == w.conns.Keys - w.replicas
    && (forall id, c :: id in w.sheets && c in w.sheets[id].collaborators ==>
          c in w.clients && w.conns[c] == Some(id))
  }

  /** Every lock sits in its own slot, and its owner is a connected client whose open sheet is the lock's. */
  ghost predicate LocksOwned(w: World) {
    && Leases.WellKeyed(w.locks)
    && (forall ck :: ck in w.locks ==>
          w.locks[ck].owner in w.clients && w.locks[ck].owner in w.conns
          && w.conns[w.locks[ck].owner] == Some(w.locks[ck].sheet))
  }

  ghost predicate Bookkeeping(w: World) {
    && Members(w)
    && (forall id :: id in w.sheets ==> w.sheets[id].collaborators != {})
    && LocksOwned(w)
  }

  predicate Opens(w: World, c: Conn, id: string, password: string)
    requires c in w.conns
  {
    w.conns[c].None? && id != "" && password != "" && (id in w.sheets ==> Verifies(w.sheets[id].hash, password))
  }

  /** Which sheet a connection has open changes by its own successful open and by nothing else it asks for. */
  lemma ActionConns(cfg: Config, w: World, c: Conn, req: Request, env: Env)
    requires Linked(w) && c in w.conns
    ensures HandleAction(cfg, w, c, req, env).conns
            == if req.Open? && Opens(w, c, req.sheet, req.password) then w.conns[c := Some(req.sheet)] else w.conns
  {
    match req
    case Open(_, _) =>
    case RegisterReplica(_, _) =>
    case _ => ActionMembership(cfg, w, c, req, env);
  }

  /** The one thing that breaks the bookkeeping: a connection with a sheet open registers as a replica, or a replica
      opens a sheet. */
  predicate TakesBothRoles(w: World, ev: Event) {
    ev.Act? && ev.c in w.conns &&
    match ev.req
    case RegisterReplica(instanceId, validTime) => validTime && instanceId != "" && w.conns[ev.c].Some?
    case Open(id, password) => ev.c in w.replicas && Opens(w, ev.c, id, password)
    case _ => false
  }

  /** A reply changes no fact of the bookkeeping. */
  lemma SentIsFree(w: World, w': World)
    requires SameButSent(w, w')
    ensures Bookkeeping(w) <==> Bookkeeping(w')
  {
  }

  lemma OpenKeeps(cfg: Config, w: World, c: Conn, id: string, password: string)
    requires Bookkeeping(w) && c in w.conns
    ensures Bookkeeping(HandleOpen(cfg, w, c, id, password)) <==> !(c in w.replicas && Opens(w, c, id, password))
  {
    var w' := HandleOpen(cfg, w, c, id, password);
    if !Opens(w, c, id, password) {
      SentIsFree(w, w');
    } else if c in w.replicas {
      assert c in w'.sheets[id].collaborators && c !in w'.clients;
    } else {
      JoinKeeps(cfg, w, c, id, password);
    }
  }

  lemma JoinKeeps(cfg: Config, w: World, c: Conn, id: string, password: string)
    requires Bookkeeping(w) && c in w.conns && Opens(w, c, id, password) && c !in w.replicas
    ensures Bookkeeping(HandleOpen(cfg, w, c, id, password))
  {
    OpenKeepsLinked(cfg, w, c, id, password);
    var w' := HandleOpen(cfg, w, c, id, password);
    forall i, d | i in w'.sheets && d in w'.sheets[i].collaborators
      ensures d in w'.clients && w'.conns[d] == Some(i)
    {
      if d != c { assert i in w.sheets && d in w.sheets[i].collaborators; }
    }
  }

  lemma RegisterKeeps(w: World, c: Conn, instanceId: string, validTime: bool)
    requires Bookkeeping(w) && c in w.conns
    ensures Bookkeeping(HandleRegisterReplica(w, c, instanceId, validTime))
            <==> !(validTime && instanceId != "" && w.conns[c].Some?)
  {
  }

  lemma LockCallKeeps(w: World, call: Leases.Call, now: int)
    requires LocksOwned(w)
    requires call.Acquire? ==>
               call.owner in w.clients && call.owner in w.conns && w.conns[call.owner] == Some(call.sheet)
    ensures LocksOwned(w.(locks := Leases.Apply(w.locks, call, now)))
  {
  }

  lemma InSheetLocks(cfg: Config, w: World, c: Conn, id: string, req: Request, env: Env)
    requires id in w.sheets
    requires LocksOwned(w) && c in w.clients && c in w.conns && w.conns[c] == Some(id)
    ensures LocksOwned(w.(locks := HandleInSheet(cfg, w, c, id, req, env).locks))
  {
    InSheetFrame(cfg, w, c, id, req, env);
    match req
    case Lock(key, seconds) =>
      LockCallKeeps(w, Leases.Acquire(id, key, c, if seconds > 0 then seconds else cfg.lockTtl), env.now);
    case Unlock(key) => LockCallKeeps(w, Leases.Free(id, key, c), env.now);
    case _ => assert w.(locks := w.locks) == w;
  }

  /** The same connections in the same sheets, with locks that are in order for them. */
  lemma SameMembersKeep(w: World, w': World)
    requires Bookkeeping(w) && SameMembership(w, w') && LocksOwned(w.(locks := w'.locks))
    ensures Bookkeeping(w')
  {
  }

  lemma InSheetKeeps(cfg: Config, w: World, c: Conn, id: string, req: Request, env: Env)
    requires Bookkeeping(w) && c in w.conns && w.conns[c] == Some(id)
    ensures Bookkeeping(HandleInSheet(cfg, w, c, id, req, env))
  {
    InSheetMembership(cfg, w, c, id, req, env);
    InSheetLocks(cfg, w, c, id, req, env);
    SameMembersKeep(w, HandleInSheet(cfg, w, c, id, req, env));
  }

  lemma ReplicaDisconnectKeeps(w: World, c: Conn)
    requires Bookkeeping(w) && c in w.conns && c in w.replicas
    ensures Bookkeeping(OnDisconnect(w, c))
  {
  }

  lemma ClientDisconnectKeeps(w: World, c: Conn)
    requires Bookkeeping(w) && c in w.conns && c !in w.replicas
    ensures Bookkeeping(OnDisconnect(w, c))
  {
    DisconnectKeepsLinked(w, c);
    var w' := OnDisconnect(w, c);
    assert w'.clients == w'.conns.Keys - w'.replicas;
    forall id, d | id in w'.sheets && d in w'.sheets[id].collaborators
      ensures d in w'.clients && w'.conns[d] == Some(id)
    {
      assert id in w.sheets && d in w.sheets[id].collaborators;
      assert d != c;
    }
    forall id | id in w'.sheets ensures w'.sheets[id].collaborators != {} {
      assert id in w.sheets;
    }
    forall ck | ck in w'.locks
      ensures w'.locks[ck].owner in w'.clients && w'.conns[w'.locks[ck].owner] == Some(w'.locks[ck].sheet)
    {
      assert ck in w.locks && w'.locks[ck] == w.locks[ck];
    }
  }

  lemma ActionKeeps(cfg: Config, w: World, c: Conn, req: Request, env: Env)
    requires Bookkeeping(w) && c in w.conns
    ensures Bookkeeping(HandleAction(cfg, w, c, req, env)) <==> !TakesBothRoles(w, Act(c, req))
  {
    match req
    case Open(id, password) => OpenKeeps(cfg, w, c, id, password);
    case RegisterReplica(instanceId, validTime) => RegisterKeeps(w, c, instanceId, validTime);
    case _ => if w.conns[c].Some? { InSheetKeeps(cfg, w, c, w.conns[c].value, req, env); }
  }

  /** One step keeps the bookkeeping exactly when it gives no connection both roles. */
  lemma BookkeepingExactly(cfg: Config, w: World, ev: Event, env: Env)
    requires Bookkeeping(w)
    ensures Bookkeeping(Step(cfg, w, ev, env)) <==> !TakesBothRoles(w, ev)
  {
    match ev
    case Act(c, req) => if c in w.conns { ActionKeeps(cfg, w, c, req, env); }
    case Disconnect(c) => if c in w.conns {
        if c in w.replicas { ReplicaDisconnectKeeps(w, c); } else { ClientDisconnectKeeps(w, c); }
      }
    case Connect(c) =>
    case Sweep(id) =>
    case CleanLocks => LockCallKeeps(w, Leases.Cleanup, env.now);
  }

  /** No step of the run gives a connection both roles. */
  ghost predicate SingleRoles(cfg: Config, w: World, trace: Trace)
    requires Linked(w)
    decreases trace
  {
    if trace == [] then true
    else
      StepKeepsLinked(cfg, w, trace[0].0, trace[0].1);
      !TakesBothRoles(w, trace[0].0) && SingleRoles(cfg, Step(cfg, w, trace[0].0, trace[0].1), trace[1..])
  }

  lemma {:induction false} BookkeepingRun(cfg: Config, w: World, trace: Trace)
    requires Bookkeeping(w) && SingleRoles(cfg, w, trace)
    ensures Bookkeeping(Run(cfg, w, trace))
    decreases trace
  {
    if trace != [] {
      BookkeepingExactly(cfg, w, trace[0].0, trace[0].1);
      BookkeepingRun(cfg, Step(cfg, w, trace[0].0, trace[0].1), trace[1..]);
    }
  }

  /** The four facts, in every state a fresh leader can reach. */
  lemma {:induction false} BookkeepingAlways(cfg: Config, trace: Trace)
    requires SingleRoles(cfg, EMPTY, trace)
    ensures Bookkeeping(Run(cfg, EMPTY, trace))
  {
    BookkeepingRun(cfg, EMPTY, trace);
  }

  /** So with sheet ids free of ":", listing a sheet's locks gives exactly its unexpired ones, in every such state. */
  lemma {:induction false} ListingAlways(cfg: Config, trace: Trace, sheet: string, now: int)
    requires SingleRoles(cfg, EMPTY, trace) && ':' !in sheet
    requires forall id :: id in Run(cfg, EMPTY, trace).sheets ==> ':' !in id
    ensures var t := Run(cfg, EMPTY, trace).locks;
            Leases.GetAllBySheet(t, sheet, now)
            == set ck | ck in t && t[ck].sheet == sheet && !Leases.Expired(t[ck], now) :: t[ck]
  {
    BookkeepingAlways(cfg, trace);
    Leases.ListingIsExact(Run(cfg, EMPTY, trace).locks, sheet, now);
  }

  /** A connection is stuck among the collaborators: its disconnect will be taken for a replica's, or already was. */
  ghost predicate Stuck(w: World, c: Conn, id: string) {
    id in w.sheets && c in w.sheets[id].collaborators && (c in w.conns ==> c in w.replicas)
  }

  /** The sheet that a connection taking both roles has open or is opening. */
  function StuckIn(w: World, ev: Event): string
    requires TakesBothRoles(w, ev)
  {
    if ev.req.Open? then ev.req.sheet else w.conns[ev.c].value
  }

  /** Taking both roles is how a connection gets stuck. */
  lemma BothRolesStick(cfg: Config, w: World, ev: Event, env: Env)
    requires Bookkeeping(w) && TakesBothRoles(w, ev)
    ensures Stuck(Step(cfg, w, ev, env), ev.c, StuckIn(w, ev))
  {
  }

  lemma StuckDisconnect(w: World, a: Conn, c: Conn, id: string)
    requires Linked(w) && Stuck(w, c, id) && a in w.conns
    ensures Stuck(OnDisconnect(w, a), c, id)
  {
  }

  lemma StuckOpen(cfg: Config, w: World, a: Conn, sheet: string, password: string, c: Conn, id: string)
    requires Linked(w) && Stuck(w, c, id) && a in w.conns
    ensures Stuck(HandleOpen(cfg, w, a, sheet, password), c, id)
  {
  }

  lemma StuckAction(cfg: Config, w: World, a: Conn, req: Request, env: Env, c: Conn, id: string)
    requires Linked(w) && Stuck(w, c, id) && a in w.conns
    ensures Stuck(HandleAction(cfg, w, a, req, env), c, id)
  {
    match req
    case Open(sheet, password) => StuckOpen(cfg, w, a, sheet, password, c, id);
    case RegisterReplica(_, _) =>
    case _ => ActionMembership(cfg, w, a, req, env);
  }

  lemma StuckStep(cfg: Config, w: World, ev: Event, env: Env, c: Conn, id: string)
    requires Linked(w) && Stuck(w, c, id) && ev != Connect(c)
    ensures Stuck(Step(cfg, w, ev, env), c, id)
  {
    match ev
    case Act(a, req) => if a in w.conns { StuckAction(cfg, w, a, req, env, c, id); }
    case Disconnect(a) => if a in w.conns { StuckDisconnect(w, a, c, id); }
    case _ =>
  }

  /** What both roles lead to: unless the connection's address is used again, the sheet outlives every collaborator. */
  lemma {:induction false} SheetNeverDeleted(cfg: Config, w: World, trace: Trace, c: Conn, id: string)
    requires Linked(w) && Stuck(w, c, id)
    requires forall i :: 0 <= i < |trace| ==> trace[i].0 != Connect(c)
    ensures Stuck(Run(cfg, w, trace), c, id)
    decreases trace
  {
    if trace != [] {
      StepKeepsLinked(cfg, w, trace[0].0, trace[0].1);
      StuckStep(cfg, w, trace[0].0, trace[0].1, c, id);
      SheetNeverDeleted(cfg, Step(cfg, w, trace[0].0, trace[0].1), trace[1..], c, id);
    }
  }

  /** From any state in order: the step that first gives a connection both roles makes its sheet permanent. */
  lemma {:induction false} BothRolesKeepTheSheet(cfg: Config, w: World, ev: Event, env: Env, trace: Trace)
    requires Bookkeeping(w) && TakesBothRoles(w, ev)
    requires forall i :: 0 <= i < |trace| ==> trace[i].0 != Connect(ev.c)
    ensures Linked(Step(cfg, w, ev, env))
    ensures StuckIn(w, ev) in Run(cfg, Step(cfg, w, ev, env), trace).sheets
  {
    StepKeepsLinked(cfg, w, ev, env);
    BothRolesStick(cfg, w, ev, env);
    SheetNeverDeleted(cfg, Step(cfg, w, ev, env), trace, ev.c, StuckIn(w, ev));
  }
}
