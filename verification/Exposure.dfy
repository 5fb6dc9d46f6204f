/** Why tenants must be kept separate in just this way: whatever is not separate can come to show in some channel. */
module Exposure {
  import opened Prelude
  import opened Server
  import opened Session
  import opened Channels
  import opened Isolation
  import Lru
  import Leases

  /** Requests that are made within sheets: nobody comes, goes, opens or registers. */
  predicate InSheets(trace: Trace) {
    forall i :: 0 <= i < |trace| ==>
      trace[i].0.Act? && !trace[i].0.req.Open? && !trace[i].0.req.RegisterReplica?
  }

  /** The kept connections make a world of their own, and no requests within sheets ever let one of them see from its
      channel that the others are there. */
  ghost predicate Discreet(cfg: Config, w: World, kept: set<Conn>)
    requires Linked(w)
  {
    && Linked(Restrict(w, kept))
    && forall trace: Trace, c: Conn :: InSheets(trace) && c in kept ==> SeesNothing(cfg, w, kept, trace, c)
  }

  ghost predicate SeesNothing(cfg: Config, w: World, kept: set<Conn>, trace: Trace, c: Conn)
    requires Linked(w) && Linked(Restrict(w, kept))
  {
    Queue(Run(cfg, Restrict(w, kept), Project(trace, kept)).sent, c) == Queue(Run(cfg, w, trace).sent, c)
  }

  lemma {:induction false} InSheetsIsProper(cfg: Config, w: World, trace: Trace, kept: set<Conn>)
    requires Linked(w) && InSheets(trace)
    ensures ProperRun(cfg, w, trace, kept)
    decreases trace
  {
    if trace != [] {
      StepKeepsLinked(cfg, w, trace[0].0, trace[0].1);
      InSheetsIsProper(cfg, Step(cfg, w, trace[0].0, trace[0].1), trace[1..], kept);
    }
  }

  lemma SeparatedIsDiscreet(cfg: Config, w: World, kept: set<Conn>)
    requires Separated(w, kept)
    ensures Discreet(cfg, w, kept)
  {
    RestrictLinked(w, kept);
    forall trace: Trace, c: Conn | InSheets(trace) && c in kept ensures SeesNothing(cfg, w, kept, trace, c) {
      InSheetsIsProper(cfg, w, trace, kept);
      IsolationRun(cfg, w, trace, kept);
      SameQueue(Run(cfg, w, trace), kept, c);
    }
  }

  // ----- one request shows a shared replica, two show a shared slot

  lemma RunOne(cfg: Config, w: World, e: (Event, Env))
    requires Linked(w)
    ensures Run(cfg, w, [e]) == Step(cfg, w, e.0, e.1)
  {
    StepKeepsLinked(cfg, w, e.0, e.1);
    assert [e][1..] == [];
  }

  lemma RunTwo(cfg: Config, w: World, e: (Event, Env), f: (Event, Env))
    requires Linked(w)
    ensures Linked(Step(cfg, w, e.0, e.1))
    ensures Run(cfg, w, [e, f]) == Step(cfg, Step(cfg, w, e.0, e.1), f.0, f.1)
  {
    StepKeepsLinked(cfg, w, e.0, e.1);
    assert [e, f][1..] == [f];
    RunOne(cfg, Step(cfg, w, e.0, e.1), f);
  }

  lemma ProjectNone(e: (Event, Env), kept: set<Conn>)
    requires !Kept(e.0, kept)
    ensures Project([e], kept) == []
  {
    assert [e][1..] == [];
  }

  /** A kept replica hears of a set in a sheet of theirs. */
  lemma ReplicaShows(cfg: Config, w: World, kept: set<Conn>, d: Conn, o: Conn, b: string)
    requires Linked(w) && Linked(Restrict(w, kept)) && d in kept && d in w.replicas
    requires o !in kept && o in w.conns && w.conns[o] == Some(b)
    ensures !Discreet(cfg, w, kept)
  {
    var e := (Act(o, Set("k", Null, false)), Env(0, 0, 0));
    ReplicaSees(cfg, w, kept, d, o, b, e);
    assert InSheets([e]);
  }

  lemma ReplicaSees(cfg: Config, w: World, kept: set<Conn>, d: Conn, o: Conn, b: string, e: (Event, Env))
    requires Linked(w) && Linked(Restrict(w, kept)) && d in kept && d in w.replicas
    requires o !in kept && o in w.conns && w.conns[o] == Some(b) && e.0 == Act(o, Set("k", Null, false))
    ensures !SeesNothing(cfg, w, kept, [e], d)
  {
    RunOne(cfg, w, e);
    ReplicaHears(cfg, w, o, b, e.1, d);
    ProjectNone(e, kept);
    SameQueue(w, kept, d);
  }

  lemma ReplicaHears(cfg: Config, w: World, o: Conn, b: string, env: Env, d: Conn)
    requires b in w.sheets && d != o && d in w.replicas
    ensures Queue(HandleInSheet(cfg, w, o, b, Set("k", Null, false), env).sent, d) != Queue(w.sent, d)
  {
    var heard := Heard(cfg, w, o, b, Set("k", Null, false), env, d);
    HeardExactly(cfg, w, o, b, Set("k", Null, false), env, d);
    assert Replicate(b, "k", Null, false) in heard;
  }

  /** Client o takes the slot, so client c, whose id and key name the same one, is refused. */
  lemma RefusedAfter(cfg: Config, w: World, o: Conn, b: string, k: string, c: Conn, a: string, l: string, env: Env)
    requires o != c && c !in w.replicas && Leases.CompositeKey(b, k) == Leases.CompositeKey(a, l)
    requires var ck := Leases.CompositeKey(a, l); ck in w.locks ==> Leases.Expired(w.locks[ck], env.now)
    ensures var q := Queue(HandleLock(cfg, HandleLock(cfg, w, o, b, k, 1, env), c, a, l, 1, env).sent, c);
            |q| == |Queue(w.sent, c)| + 1 && q[|q| - 1].Response? && !q[|q| - 1].success
  {
    var w1 := HandleLock(cfg, w, o, b, k, 1, env);
    assert Queue(w1.sent, c) == Queue(w.sent, c);
    var m := if Leases.IsLocked(w1.locks, a, l, env.later).Some?
             then Response(false, "", l, Null, 0, "lock held by another client", 0)
             else Err("lock held by another client");
    assert HandleLock(cfg, w1, c, a, l, 1, env) == Reply(w1, c, m);
  }

  lemma Granted(cfg: Config, w: World, c: Conn, a: string, l: string, env: Env)
    requires c !in w.replicas
    requires var ck := Leases.CompositeKey(a, l); ck in w.locks ==> Leases.Expired(w.locks[ck], env.now)
    ensures Queue(HandleLock(cfg, w, c, a, l, 1, env).sent, c) == Queue(w.sent, c) + [Ok(l)]
  {
  }

  lemma ProjectLast(e: (Event, Env), f: (Event, Env), kept: set<Conn>)
    requires !Kept(e.0, kept) && Kept(f.0, kept)
    ensures Project([e, f], kept) == [f]
  {
    assert [e, f][1..] == [f] && [f][1..] == [];
    assert Project([f], kept) == [f] + Project([], kept);
  }

  /** A request to lock, as a step of the leader. */
  function Locking(c: Conn, key: string, now: int): (Event, Env) {
    (Act(c, Lock(key, 1)), Env(now, now, 0))
  }

  lemma RunLocks(cfg: Config, w: World, o: Conn, b: string, k: string, c: Conn, a: string, l: string, now: int)
    requires Linked(w) && c in w.conns && w.conns[c] == Some(a) && o in w.conns && w.conns[o] == Some(b)
    ensures Run(cfg, w, [Locking(o, k, now), Locking(c, l, now)])
            == HandleLock(cfg, HandleLock(cfg, w, o, b, k, 1, Env(now, now, 0)), c, a, l, 1, Env(now, now, 0))
  {
    RunTwo(cfg, w, Locking(o, k, now), Locking(c, l, now));
    LockStep(cfg, w, o, b, k, now);
    var w1 := HandleLock(cfg, w, o, b, k, 1, Env(now, now, 0));
    InSheetMembership(cfg, w, o, b, Lock(k, 1), Env(now, now, 0));
    LockStep(cfg, w1, c, a, l, now);
  }

  lemma LockStep(cfg: Config, w: World, c: Conn, a: string, l: string, now: int)
    requires Linked(w) && c in w.conns && w.conns[c] == Some(a)
    ensures Step(cfg, w, Locking(c, l, now).0, Locking(c, l, now).1) == HandleLock(cfg, w, c, a, l, 1, Env(now, now, 0))
  {
  }

  lemma RunLock(cfg: Config, w: World, c: Conn, a: string, l: string, now: int)
    requires Linked(w) && c in w.conns && w.conns[c] == Some(a)
    ensures Run(cfg, w, [Locking(c, l, now)]) == HandleLock(cfg, w, c, a, l, 1, Env(now, now, 0))
  {
    RunOne(cfg, w, Locking(c, l, now));
  }

  lemma CollisionShows(cfg: Config, w: World, kept: set<Conn>, c: Conn, a: string, o: Conn, b: string)
    requires Linked(w) && Linked(Restrict(w, kept)) && Leases.Collide(a, b)
    requires c in kept && c in w.conns && w.conns[c] == Some(a) && c !in w.replicas
    requires o !in kept && o in w.conns && w.conns[o] == Some(b)
    ensures !Discreet(cfg, w, kept)
  {
    Leases.CollisionsExactly(a, b);
    var l, k :| Leases.CompositeKey(a, l) == Leases.CompositeKey(b, k);
    var ck := Leases.CompositeKey(a, l);
    var now := if ck in w.locks then w.locks[ck].expiresAt + 1 else 0;
    SlotShows(cfg, w, kept, o, b, k, c, a, l, now);
    assert InSheets([Locking(o, k, now), Locking(c, l, now)]);
  }

  lemma SlotShows(cfg: Config, w: World, kept: set<Conn>, o: Conn, b: string, k: string, c: Conn, a: string, l: string,
                  now: int)
    requires Linked(w) && Linked(Restrict(w, kept))
    requires c in kept && c in w.conns && w.conns[c] == Some(a) && c !in w.replicas
    requires o !in kept && o in w.conns && w.conns[o] == Some(b)
    requires Leases.CompositeKey(b, k) == Leases.CompositeKey(a, l)
    requires var ck := Leases.CompositeKey(a, l); ck in w.locks ==> Leases.Expired(w.locks[ck], now)
    ensures !SeesNothing(cfg, w, kept, [Locking(o, k, now), Locking(c, l, now)], c)
  {
    RunLocks(cfg, w, o, b, k, c, a, l, now);
    RunLock(cfg, Restrict(w, kept), c, a, l, now);
    ProjectLast(Locking(o, k, now), Locking(c, l, now), kept);
    LocksShow(cfg, w, kept, o, b, k, c, a, l, now);
  }

  lemma LocksShow(cfg: Config, w: World, kept: set<Conn>, o: Conn, b: string, k: string, c: Conn, a: string, l: string,
                  now: int)
    requires c in kept && o !in kept && c !in w.replicas && Leases.CompositeKey(b, k) == Leases.CompositeKey(a, l)
    requires var ck := Leases.CompositeKey(a, l); ck in w.locks ==> Leases.Expired(w.locks[ck], now)
    ensures var env := Env(now, now, 0);
            Queue(HandleLock(cfg, HandleLock(cfg, w, o, b, k, 1, env), c, a, l, 1, env).sent, c)
            != Queue(HandleLock(cfg, Restrict(w, kept), c, a, l, 1, env).sent, c)
  {
    var env := Env(now, now, 0);
    RefusedAfter(cfg, w, o, b, k, c, a, l, env);
    Granted(cfg, Restrict(w, kept), c, a, l, env);
    SameQueue(w, kept, c);
    assert (Queue(w.sent, c) + [Ok(l)])[|Queue(w.sent, c)|] == Ok(l);
  }

  // ----- so separation is what discretion takes

  /** The sheet one of these has open is not the sheet the others have open. */
  lemma SharedShows(w: World, kept: set<Conn>, id: string, c: Conn, o: Conn)
    requires Members(w) && id in w.sheets && c in w.sheets[id].collaborators && o in w.sheets[id].collaborators
    requires c in kept && o !in kept
    ensures !Linked(Restrict(w, kept))
  {
    assert w.conns[c] == Some(id);
    assert c in Restrict(w, kept).conns && id !in Restrict(w, kept).sheets;
  }

  lemma DiscreetIsUnshared(cfg: Config, w: World, kept: set<Conn>)
    requires Bookkeeping(w) && Discreet(cfg, w, kept)
    ensures forall id :: id in w.sheets ==> w.sheets[id].collaborators <= kept || w.sheets[id].collaborators !! kept
  {
    forall id | id in w.sheets ensures w.sheets[id].collaborators <= kept || w.sheets[id].collaborators !! kept {
      if c, o :| c in w.sheets[id].collaborators && c in kept && o in w.sheets[id].collaborators && o !in kept {
        SharedShows(w, kept, id, c, o);
      }
    }
  }

  lemma Seat(w: World, id: string, c: Conn)
    requires Members(w) && id in w.sheets && c in w.sheets[id].collaborators
    ensures c in w.conns && w.conns[c] == Some(id) && c !in w.replicas
  {
  }

  lemma DiscreetIsApart(cfg: Config, w: World, kept: set<Conn>, a: string, b: string)
    requires Bookkeeping(w) && Discreet(cfg, w, kept) && Ours(w, a, kept) && Theirs(w, b, kept)
    ensures !Leases.Collide(a, b)
  {
    var c :| c in w.sheets[a].collaborators;
    var o :| o in w.sheets[b].collaborators && o !in kept;
    Seat(w, a, c);
    Seat(w, b, o);
    if Leases.Collide(a, b) { CollisionShows(cfg, w, kept, c, a, o, b); }
  }

  lemma DiscreetIsUnheard(cfg: Config, w: World, kept: set<Conn>)
    requires Bookkeeping(w) && Discreet(cfg, w, kept)
    ensures w.replicas !! kept || AllOurs(w, kept)
  {
    if d, b :| d in w.replicas && d in kept && Theirs(w, b, kept) {
      var o :| o in w.sheets[b].collaborators && o !in kept;
      Seat(w, b, o);
      ReplicaShows(cfg, w, kept, d, o, b);
    } else if d :| d in w.replicas && d in kept {
      assert forall id :: id in w.sheets ==> !Theirs(w, id, kept);
    }
  }

  /** With the bookkeeping in order, two groups are separated exactly if nothing done in the sheets can show one of
      them to the other. */
  lemma SeparatedExactly(cfg: Config, w: World, kept: set<Conn>)
    requires Bookkeeping(w)
    ensures Separated(w, kept) <==> Discreet(cfg, w, kept)
  {
    if Separated(w, kept) {
      SeparatedIsDiscreet(cfg, w, kept);
    } else if Discreet(cfg, w, kept) {
      DiscreetIsUnshared(cfg, w, kept);
      DiscreetIsUnheard(cfg, w, kept);
      forall a, b | Ours(w, a, kept) && Theirs(w, b, kept) ensures !Leases.Collide(a, b) {
        DiscreetIsApart(cfg, w, kept, a, b);
      }
    }
  }

  /**
   An event is proper exactly if it keeps the bookkeeping in order, has the same effect on the kept connections
   as in a world of their own, and leaves a world in which nothing done in the sheets can show them the others.
   */
  lemma ProperExactly(cfg: Config, w: World, ev: Event, env: Env, kept: set<Conn>)
    requires Separated(w, kept)
    ensures Linked(Restrict(w, kept)) && Linked(Step(cfg, w, ev, env))
    ensures var w' := Step(cfg, w, ev, env);
            Proper(w, ev, kept)
            <==> Bookkeeping(w') && Discreet(cfg, w', kept)
                 && Restrict(w', kept)
                    == if Kept(ev, kept) then Step(cfg, Restrict(w, kept), ev, env) else Restrict(w, kept)
  {
    StepKeepsLinked(cfg, w, ev, env);
    StepCommutesExactly(cfg, w, ev, env, kept);
    if Bookkeeping(Step(cfg, w, ev, env)) { SeparatedExactly(cfg, Step(cfg, w, ev, env), kept); }
  }
}
