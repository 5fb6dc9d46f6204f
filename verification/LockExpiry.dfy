/**
 lock/lock.go under concurrency when leases do run out. Acting on a check that is out of date is the one
 thing that can put two running leases on a slot, and each of its three forms does.
 */
module LockExpiry {
  import opened Prelude
  import opened LockSteps

  /** The client was granted the slot, has not given it up, and its lease is still running. */
  predicate HoldsNow(s: State, p: string, ck: string) {
    (p, ck) in s.held && s.clock <= s.held[(p, ck)]
  }

  // ----- takeovers are safe as long as nobody acts on a stale check

  /** The step overwrites or deletes another lock than the one its client has checked. */
  predicate Stale(s: State, p: string, a: Action) {
    match PcOf(s, p)
    case Storing(ck, _, tested) => a.Go? && ck in s.store && s.store[ck] != tested
    case Deleting(ck, checked) => a.Go? && ck in s.store && s.store[ck] != checked
    case Sweeping(found) => a.Sweep? && a.ck in found && a.ck in s.store && s.store[a.ck] != found[a.ck]
    case _ => false
  }

  /** The client may remove this lock: it is its own, or has expired. */
  predicate Lapsed(s: State, p: string, lock: nat)
    requires lock < |s.objects|
  {
    s.objects[lock].owner == p || Expired(s, lock)
  }

  ghost predicate PcSound(s: State, p: string, pc: Pc)
    requires PcKnown(pc, |s.objects|)
  {
    match pc
    case Testing(ck, _, _, existing) =>
      s.objects[existing].owner == p && !Expired(s, existing) ==> ck in s.store && s.store[ck] == existing
    case Inserting(_, lock) => lock.owner == p
    case Retesting(_, lock, _) => lock.owner == p
    case Storing(_, lock, tested) => lock.owner == p && Lapsed(s, p, tested)
    case Deleting(_, checked) => s.objects[checked].owner == p
    case Scanning(_, _, found) => forall ck :: ck in found ==> Lapsed(s, p, found[ck])
    case Sweeping(found) => forall ck :: ck in found ==> Lapsed(s, p, found[ck])
    case _ => true
  }

  /** No lock sits in two slots. */
  ghost predicate Apart(s: State) {
    forall a, b :: a in s.store && b in s.store && a != b ==> s.store[a] != s.store[b]
  }

  /** A running lease is backed by a lock of its owner that lasts at least as long. */
  ghost predicate Backed(s: State, p: string, ck: string)
    requires WellFormed(s)
  {
    HoldsNow(s, p, ck) ==> Owns(s, p, ck) && s.held[(p, ck)] <= s.objects[s.store[ck]].expiresAt
  }

  ghost predicate Leased(s: State) {
    && WellFormed(s) && Apart(s)
    && (forall p :: p in s.pcs ==> PcSound(s, p, s.pcs[p]))
    && (forall p, ck :: Backed(s, p, ck))
  }

  /** Locks keep their owners, and once expired they stay so. */
  ghost predicate Ages(s: State, s': State) {
    && FramesOwners(s, s') && s.clock <= s'.clock
    && (forall i :: 0 <= i < |s.objects| && Expired(s, i) ==> Expired(s', i))
  }

  lemma StepAges(s: State, p: string, a: Action)
    requires WellFormed(s) && Step(s, p, a).Some?
    ensures Ages(s, Step(s, p, a).value)
  {
    KeepsOwners(s, p, a);
  }

  /** Only a lapsed lock leaves its slot, and only p's own lock changes or comes in. */
  lemma SlotAfter(s: State, p: string, a: Action, ck: string)
    requires Leased(s) && Step(s, p, a).Some? && !Stale(s, p, a)
    ensures var s' := Step(s, p, a).value;
            && (ck in s.store && !Lapsed(s, p, s.store[ck]) ==>
                  ck in s'.store && s'.store[ck] == s.store[ck] && s'.objects[s.store[ck]] == s.objects[s.store[ck]])
            && (ck in s'.store ==> (ck in s.store && s'.store[ck] == s.store[ck]) || s'.store[ck] == |s.objects|)
  {
    if p in s.pcs { assert PcSound(s, p, s.pcs[p]); }
  }

  lemma StaysApart(s: State, p: string, a: Action)
    requires Leased(s) && Step(s, p, a).Some? && !Stale(s, p, a)
    ensures Apart(Step(s, p, a).value)
  {
    var s' := Step(s, p, a).value;
    forall c, d | c in s'.store && d in s'.store && c != d ensures s'.store[c] != s'.store[d] {
      SlotAfter(s, p, a, c);
      SlotAfter(s, p, a, d);
      OnePut(s, p, a, c, d);
    }
  }

  /** A step puts a new lock in at most one slot. */
  lemma OnePut(s: State, p: string, a: Action, c: string, d: string)
    requires WellFormed(s) && Step(s, p, a).Some? && c != d
    ensures var s' := Step(s, p, a).value;
            c in s'.store && d in s'.store && s'.store[c] == |s.objects| ==> s'.store[d] < |s.objects|
  {
  }

  lemma OwnSoundGo(s: State, p: string)
    requires Leased(s) && p in s.pcs && Step(s, p, Go).Some? && !Stale(s, p, Go)
    ensures var s' := Step(s, p, Go).value; p in s'.pcs && PcSound(s', p, s'.pcs[p])
  {
    assert PcSound(s, p, s.pcs[p]);
  }

  lemma OwnSoundScan(s: State, p: string, a: Action)
    requires Leased(s) && p in s.pcs && Step(s, p, a).Some? && (a.Visit? || a.EndScan? || a.Sweep?)
    ensures var s' := Step(s, p, a).value; p in s'.pcs && PcSound(s', p, s'.pcs[p])
  {
    assert PcSound(s, p, s.pcs[p]);
  }

  lemma OwnSoundTick(s: State, p: string, now: int)
    requires Leased(s) && p in s.pcs && now >= s.clock
    ensures PcSound(s.(clock := now), p, s.pcs[p])
  {
    assert PcSound(s, p, s.pcs[p]);
  }

  lemma OwnSoundBegin(s: State, p: string, call: Call)
    requires WellFormed(s) && Step(s, p, Begin(call)).Some?
    ensures var s' := Step(s, p, Begin(call)).value; p in s'.pcs && PcSound(s', p, s'.pcs[p])
  {
  }

  lemma OwnSound(s: State, p: string, a: Action)
    requires Leased(s) && Step(s, p, a).Some? && !Stale(s, p, a)
    ensures var s' := Step(s, p, a).value; p in s'.pcs ==> PcSound(s', p, s'.pcs[p])
  {
    if a.Begin? {
      OwnSoundBegin(s, p, a.call);
    } else if p in s.pcs {
      match a
      case Go => OwnSoundGo(s, p);
      case Tick(now) => OwnSoundTick(s, p, now);
      case _ => OwnSoundScan(s, p, a);
    }
  }

  lemma OthersSound(s: State, s': State, q: string, pc: Pc)
    requires WellFormed(s) && WellFormed(s') && Ages(s, s') && PcKnown(pc, |s.objects|) && PcSound(s, q, pc)
    requires forall ck :: ck in s.store && s.objects[s.store[ck]].owner == q && !Expired(s, s.store[ck]) ==>
               ck in s'.store && s'.store[ck] == s.store[ck]
    ensures PcKnown(pc, |s'.objects|) && PcSound(s', q, pc)
  {
  }

  lemma OwnBackedGo(s: State, p: string, ck: string)
    requires Leased(s) && Step(s, p, Go).Some? && !Stale(s, p, Go)
    ensures Backed(Step(s, p, Go).value, p, ck)
  {
    assert Backed(s, p, ck);
    if p in s.pcs { assert PcSound(s, p, s.pcs[p]); }
  }

  lemma OwnBacked(s: State, p: string, a: Action, ck: string)
    requires Leased(s) && Step(s, p, a).Some? && !Stale(s, p, a)
    ensures Backed(Step(s, p, a).value, p, ck)
  {
    if a.Go? { OwnBackedGo(s, p, ck); } else { assert Backed(s, p, ck); }
  }

  lemma OthersBacked(s: State, p: string, a: Action, q: string, ck: string)
    requires Leased(s) && Step(s, p, a).Some? && !Stale(s, p, a) && q != p
    ensures Backed(Step(s, p, a).value, q, ck)
  {
    assert Backed(s, q, ck);
    SlotAfter(s, p, a, ck);
    HeldByOthers(s, p, a, q, ck);
  }

  lemma HeldByOthers(s: State, p: string, a: Action, q: string, ck: string)
    requires WellFormed(s) && Step(s, p, a).Some? && q != p
    ensures var s' := Step(s, p, a).value;
            s'.clock >= s.clock && ((q, ck) in s'.held ==> (q, ck) in s.held && s'.held[(q, ck)] == s.held[(q, ck)])
  {
  }

  lemma StepIsLeased(s: State, p: string, a: Action)
    requires Leased(s) && Step(s, p, a).Some? && !Stale(s, p, a)
    ensures Leased(Step(s, p, a).value)
  {
    var s' := Step(s, p, a).value;
    StaysApart(s, p, a);
    forall q | q in s'.pcs ensures PcSound(s', q, s'.pcs[q]) {
      if q == p {
        OwnSound(s, p, a);
      } else {
        KeepsPc(s, p, a, q);
        StepAges(s, p, a);
        forall ck | ck in s.store && s.objects[s.store[ck]].owner == q && !Expired(s, s.store[ck])
          ensures ck in s'.store && s'.store[ck] == s.store[ck]
        {
          SlotAfter(s, p, a, ck);
        }
        OthersSound(s, s', q, s.pcs[q]);
      }
    }
    forall q, ck ensures Backed(s', q, ck) {
      if q == p { OwnBacked(s, p, a, ck); } else { OthersBacked(s, p, a, q, ck); }
    }
  }

  // ----- exactly which removals do harm

  /** The slot that the step overwrites or deletes, whatever it holds. */
  predicate Removes(s: State, p: string, a: Action, ck: string) {
    match PcOf(s, p)
    case Storing(c, _, _) => a.Go? && c == ck
    case Deleting(c, _) => a.Go? && c == ck
    case Sweeping(found) => a == Sweep(ck) && ck in found
    case _ => false
  }

  /** Client q counts on the lock in the slot: its lease is running, or it has found it there and is to refresh it. */
  predicate Needs(s: State, q: string, ck: string)
    requires WellFormed(s)
  {
    || HoldsNow(s, q, ck)
    || (q in s.pcs && s.pcs[q].Testing? && s.pcs[q].ck == ck
        && s.objects[s.pcs[q].existing].owner == q && !Expired(s, s.pcs[q].existing))
  }

  ghost predicate Robs(s: State, p: string, a: Action)
    requires WellFormed(s)
  {
    exists q, ck :: Removes(s, p, a, ck) && q != p && Needs(s, q, ck)
  }

  /** A removal changes one slot and refreshes nothing; what it puts there is its client's. */
  lemma RemovalFrame(s: State, p: string, a: Action, ck: string)
    requires Leased(s) && Step(s, p, a).Some? && Removes(s, p, a, ck)
    ensures var s' := Step(s, p, a).value;
            && s'.clock == s.clock && |s.objects| <= |s'.objects| && s'.objects[..|s.objects|] == s.objects
            && (forall c :: c != ck ==>
                  (c in s'.store <==> c in s.store) && (c in s.store ==> s'.store[c] == s.store[c]))
            && (forall q, c :: q != p || c != ck ==> ((q, c) in s'.held <==> (q, c) in s.held)
                                                     && ((q, c) in s.held ==> s'.held[(q, c)] == s.held[(q, c)]))
            && (ck in s'.store ==> s'.store[ck] == |s.objects| < |s'.objects| && s'.objects[|s.objects|].owner == p
                                   && (p, ck) in s'.held && s'.held[(p, ck)] <= s'.objects[|s.objects|].expiresAt)
            && (ck !in s'.store ==> (p, ck) !in s'.held)
  {
    assert PcSound(s, p, s.pcs[p]);
  }

  lemma RemovalPc(s: State, p: string, a: Action, ck: string)
    requires Leased(s) && Step(s, p, a).Some? && Removes(s, p, a, ck)
    ensures var s' := Step(s, p, a).value; p in s'.pcs && PcSound(s', p, s'.pcs[p])
  {
    assert PcSound(s, p, s.pcs[p]);
  }

  lemma RemovalApart(s: State, p: string, a: Action, ck: string)
    requires Leased(s) && Step(s, p, a).Some? && Removes(s, p, a, ck)
    ensures Apart(Step(s, p, a).value)
  {
    RemovalFrame(s, p, a, ck);
  }

  lemma RemovalOtherPc(s: State, p: string, a: Action, ck: string, q: string)
    requires Leased(s) && Step(s, p, a).Some? && Removes(s, p, a, ck) && q != p && q in s.pcs && !Needs(s, q, ck)
    ensures var s' := Step(s, p, a).value; PcKnown(s.pcs[q], |s'.objects|) && PcSound(s', q, s.pcs[q])
  {
    assert PcSound(s, q, s.pcs[q]);
    RemovalFrame(s, p, a, ck);
    var s' := Step(s, p, a).value;
    assert forall i :: 0 <= i < |s.objects| ==> s'.objects[i] == s'.objects[..|s.objects|][i];
  }

  lemma RemovalBacked(s: State, p: string, a: Action, ck: string, q: string, c: string)
    requires Leased(s) && Step(s, p, a).Some? && Removes(s, p, a, ck) && (q != p ==> !Needs(s, q, ck))
    ensures Backed(Step(s, p, a).value, q, c)
  {
    assert Backed(s, q, c);
    RemovalFrame(s, p, a, ck);
    var s' := Step(s, p, a).value;
    assert forall i :: 0 <= i < |s.objects| ==> s'.objects[i] == s'.objects[..|s.objects|][i];
  }

  lemma HarmlessRemoval(s: State, p: string, a: Action, ck: string)
    requires Leased(s) && Step(s, p, a).Some? && Removes(s, p, a, ck) && !Robs(s, p, a)
    ensures Leased(Step(s, p, a).value)
  {
    var s' := Step(s, p, a).value;
    RemovalApart(s, p, a, ck);
    forall q | q in s'.pcs ensures PcSound(s', q, s'.pcs[q]) {
      if q == p {
        RemovalPc(s, p, a, ck);
      } else {
        KeepsPc(s, p, a, q);
        RemovalOtherPc(s, p, a, ck, q);
      }
    }
    forall q, c ensures Backed(s', q, c) { RemovalBacked(s, p, a, ck, q, c); }
  }

  lemma RobbedIsUnbacked(s: State, p: string, a: Action, ck: string, q: string)
    requires Leased(s) && Step(s, p, a).Some? && Removes(s, p, a, ck) && q != p && Needs(s, q, ck)
    ensures !Leased(Step(s, p, a).value)
  {
    var s' := Step(s, p, a).value;
    RemovalFrame(s, p, a, ck);
    if HoldsNow(s, q, ck) {
      assert HoldsNow(s', q, ck) && !Backed(s', q, ck);
    } else {
      KeepsPc(s, p, a, q);
      var existing := s.pcs[q].existing;
      assert s'.objects[existing] == s'.objects[..|s.objects|][existing];
      assert !PcSound(s', q, s'.pcs[q]);
    }
  }

  /** The leases stay backed exactly if the step removes no lock that another client counts on; only a stale act can. */
  lemma LeasedExactly(s: State, p: string, a: Action)
    requires Leased(s) && Step(s, p, a).Some?
    ensures Leased(Step(s, p, a).value) <==> !Robs(s, p, a)
    ensures Robs(s, p, a) ==> Stale(s, p, a)
  {
    if Robs(s, p, a) {
      var q, ck :| Removes(s, p, a, ck) && q != p && Needs(s, q, ck);
      RobbedIsUnbacked(s, p, a, ck, q);
      if !Stale(s, p, a) { StepIsLeased(s, p, a); }
    } else if Stale(s, p, a) {
      HarmlessRemoval(s, p, a, if a.Sweep? then a.ck else PcOf(s, p).ck);
    } else {
      StepIsLeased(s, p, a);
    }
  }

  // ----- whole runs

  /** Every step is enabled and none acts on a stale check. Locks may expire, be taken over and be cleaned up. */
  ghost predicate ReachesFresh(s: State, schedule: Schedule, end: State)
    requires WellFormed(s)
    decreases schedule
  {
    if schedule == [] then end == s
    else
      var (p, a) := schedule[0];
      !Stale(s, p, a) && Step(s, p, a).Some? && ReachesFresh(Step(s, p, a).value, schedule[1..], end)
  }

  lemma {:induction false} RunIsLeased(s: State, schedule: Schedule, end: State)
    requires Leased(s) && ReachesFresh(s, schedule, end)
    ensures Leased(end)
    decreases schedule
  {
    if schedule != [] {
      StepIsLeased(s, schedule[0].0, schedule[0].1);
      RunIsLeased(Step(s, schedule[0].0, schedule[0].1).value, schedule[1..], end);
    }
  }

  /** In every interleaving in which nobody acts on a stale check, no two owners have running leases on a slot. */
  lemma {:induction false} LeasesExclude(schedule: Schedule, end: State, owner1: string, owner2: string, ck: string)
    requires ReachesFresh(START, schedule, end) && HoldsNow(end, owner1, ck) && HoldsNow(end, owner2, ck)
    ensures owner1 == owner2
  {
    RunIsLeased(START, schedule, end);
    assert Backed(end, owner1, ck) && Backed(end, owner2, ck);
  }

  // ----- what a takeover, a cleanup or a release can do once leases run out

  /** Runs a schedule whatever its expiry tests answer. */
  function Exec(s: State, schedule: Schedule): (r: Option<State>)
    requires WellFormed(s)
    ensures r.Some? ==> WellFormed(r.value)
    decreases schedule
  {
    if schedule == [] then Some(s)
    else
      match Step(s, schedule[0].0, schedule[0].1)
      case None => None
      case Some(next) => Exec(next, schedule[1..])
  }

  ghost predicate Leads(s: State, t: State)
    requires WellFormed(s)
  {
    exists schedule: Schedule :: Exec(s, schedule) == Some(t)
  }

  ghost predicate BothHold(s: State, p: string, q: string, ck: string)
    requires WellFormed(s)
  {
    exists t :: Leads(s, t) && HoldsNow(t, p, ck) && HoldsNow(t, q, ck)
  }

  lemma {:induction false} ExecMore(s: State, first: Schedule, more: Schedule, t: State)
    requires WellFormed(s) && Exec(s, first) == Some(t)
    ensures Exec(s, first + more) == Exec(t, more)
    decreases first
  {
    if first == [] {
      assert first + more == more;
    } else {
      assert (first + more)[1..] == first[1..] + more;
      ExecMore(Step(s, first[0].0, first[0].1).value, first[1..], more, t);
    }
  }

  lemma LeadsOn(s: State, t: State, u: State)
    requires WellFormed(s) && WellFormed(t) && Leads(s, t) && Leads(t, u)
    ensures Leads(s, u)
  {
    var first :| Exec(s, first) == Some(t);
    var more :| Exec(t, more) == Some(u);
    ExecMore(s, first, more, t);
  }

  lemma LeadsTo(s: State, t: State, p: string, a: Action, u: State)
    requires WellFormed(s) && WellFormed(t) && Leads(s, t) && Step(t, p, a) == Some(u)
    ensures WellFormed(u) && Leads(s, u)
  {
    assert [(p, a)][1..] == [];
    assert Exec(t, [(p, a)]) == Exec(u, []);
    LeadsOn(s, t, u);
  }

  lemma LeadsHere(s: State)
    requires WellFormed(s)
    ensures Leads(s, s)
  {
    assert Exec(s, []) == Some(s);
  }

  /** A slot that a newcomer can get: absent, or holding somebody else's expired lock. */
  predicate Available(s: State, r: string, ck: string)
    requires WellFormed(s)
  {
    ck in s.store ==> s.objects[s.store[ck]].owner != r && Expired(s, s.store[ck])
  }

  lemma ToRetesting(s: State, r: string, ck: string, ttl: int) returns (t: State)
    requires WellFormed(s) && PcOf(s, r).Idle? && ck in s.store && Available(s, r, ck)
    ensures t == At(s, r, Retesting(ck, LockObject(r, s.clock + ttl), s.store[ck])) && WellFormed(t) && Leads(s, t)
  {
    var lock := LockObject(r, s.clock + ttl);
    var t1 := ToTesting(s, r, ck, ttl);
    var t2 := At(t1, r, Inserting(ck, lock));
    LeadsTo(s, t1, r, Go, t2);
    t := At(t2, r, Retesting(ck, lock, s.store[ck]));
    LeadsTo(s, t2, r, Go, t);
    assert t.pcs == s.pcs[r := Retesting(ck, lock, s.store[ck])];
  }

  lemma ToTesting(s: State, r: string, ck: string, ttl: int) returns (t: State)
    requires WellFormed(s) && PcOf(s, r).Idle? && ck in s.store
    ensures t == At(s, r, Testing(ck, s.clock, ttl, s.store[ck])) && WellFormed(t) && Leads(s, t)
  {
    LeadsHere(s);
    var t1 := At(s, r, Loading(ck, s.clock, ttl));
    LeadsTo(s, s, r, Begin(TryAcquire(ck, ttl)), t1);
    t := At(t1, r, Testing(ck, s.clock, ttl, s.store[ck]));
    LeadsTo(s, t1, r, Go, t);
    assert t.pcs == s.pcs[r := Testing(ck, s.clock, ttl, s.store[ck])];
  }

  lemma ToInserting(s: State, r: string, ck: string, ttl: int) returns (t: State)
    requires WellFormed(s) && PcOf(s, r).Idle? && ck !in s.store
    ensures t == At(s, r, Inserting(ck, LockObject(r, s.clock + ttl))) && WellFormed(t) && Leads(s, t)
  {
    LeadsHere(s);
    var t1 := At(s, r, Loading(ck, s.clock, ttl));
    LeadsTo(s, s, r, Begin(TryAcquire(ck, ttl)), t1);
    t := At(t1, r, Inserting(ck, LockObject(r, s.clock + ttl)));
    LeadsTo(s, t1, r, Go, t);
    assert t.pcs == s.pcs[r := Inserting(ck, LockObject(r, s.clock + ttl))];
  }

  lemma GetsAbsent(s: State, r: string, ck: string, ttl: int) returns (t: State)
    requires WellFormed(s) && PcOf(s, r).Idle? && ck !in s.store
    ensures t == Grant(Put(s, ck, LockObject(r, s.clock + ttl)), r, ck, s.clock + ttl) && WellFormed(t) && Leads(s, t)
  {
    var t2 := ToInserting(s, r, ck, ttl);
    t := Grant(Put(t2, ck, LockObject(r, s.clock + ttl)), r, ck, s.clock + ttl);
    LeadsTo(s, t2, r, Go, t);
    assert t.pcs == s.pcs[r := Idle];
  }

  lemma ToStoring(s: State, r: string, ck: string, ttl: int) returns (t: State)
    requires WellFormed(s) && PcOf(s, r).Idle? && ck in s.store && Available(s, r, ck)
    ensures t == At(s, r, Storing(ck, LockObject(r, s.clock + ttl), s.store[ck])) && WellFormed(t) && Leads(s, t)
  {
    var lock := LockObject(r, s.clock + ttl);
    var t1 := ToRetesting(s, r, ck, ttl);
    t := At(t1, r, Storing(ck, lock, s.store[ck]));
    LeadsTo(s, t1, r, Go, t);
    assert t.pcs == s.pcs[r := Storing(ck, lock, s.store[ck])];
  }

  lemma GetsExpired(s: State, r: string, ck: string, ttl: int) returns (t: State)
    requires WellFormed(s) && PcOf(s, r).Idle? && ck in s.store && Available(s, r, ck)
    ensures t == Grant(Put(s, ck, LockObject(r, s.clock + ttl)), r, ck, s.clock + ttl) && WellFormed(t) && Leads(s, t)
  {
    var lock := LockObject(r, s.clock + ttl);
    var t2 := ToStoring(s, r, ck, ttl);
    t := Grant(Put(t2, ck, lock), r, ck, lock.expiresAt);
    LeadsTo(s, t2, r, Go, t);
    assert t.pcs == s.pcs[r := Idle];
  }

  /** An idle client that runs alone gets an available slot. */
  lemma Gets(s: State, r: string, ck: string, ttl: int) returns (t: State)
    requires WellFormed(s) && PcOf(s, r).Idle? && Available(s, r, ck)
    ensures t == Grant(Put(s, ck, LockObject(r, s.clock + ttl)), r, ck, s.clock + ttl) && WellFormed(t) && Leads(s, t)
  {
    if ck in s.store { t := GetsExpired(s, r, ck, ttl); } else { t := GetsAbsent(s, r, ck, ttl); }
  }

  /**
   Whenever a client goes on to overwrite an expired lock with a lease that still runs, any idle client can
   get the slot before it does, and both then hold it.
   */
  lemma TakeoverBreaks(s: State, p: string, r: string, ck: string, ttl: nat)
    requires WellFormed(s) && TakesOver(s, p, Go) && s.pcs[p].ck == ck && s.clock <= s.pcs[p].lock.expiresAt
    requires r != p && PcOf(s, r).Idle? && Available(s, r, ck)
    ensures BothHold(s, p, r, ck)
  {
    var lock := s.pcs[p].lock;
    LeadsHere(s);
    var s1 := At(s, p, Storing(ck, lock, s.pcs[p].existing));
    LeadsTo(s, s, p, Go, s1);
    var s2 := Gets(s1, r, ck, ttl);
    LeadsOn(s, s1, s2);
    var s3 := Grant(Put(s2, ck, lock), p, ck, lock.expiresAt);
    LeadsTo(s, s2, p, Go, s3);
    assert HoldsNow(s3, p, ck) && HoldsNow(s3, r, ck);
  }

  /** The client is about to delete the slot, whatever it holds by then. */
  predicate Deletes(s: State, p: string, a: Action, ck: string) {
    p in s.pcs && ((a == Go && s.pcs[p].Deleting? && s.pcs[p].ck == ck)
                   || (a == Sweep(ck) && s.pcs[p].Sweeping? && ck in s.pcs[p].found))
  }

  lemma DeletionFrees(s: State, p: string, a: Action, ck: string)
    requires WellFormed(s) && Deletes(s, p, a, ck)
    ensures Step(s, p, a).Some?
    ensures var s' := Step(s, p, a).value;
            && ck !in s'.store && s'.clock == s.clock && s'.held == s.held - {(p, ck)}
            && forall q :: q != p ==> PcOf(s', q) == PcOf(s, q)
  {
  }

  /** A client about to delete what it takes for a dead lock deletes a newcomer's, and a second newcomer gets in. */
  lemma DeletionBreaks(s: State, p: string, a: Action, r: string, u: string, ck: string, ttl: nat)
    requires WellFormed(s) && Deletes(s, p, a, ck) && Available(s, r, ck)
    requires r != p && u != p && r != u && PcOf(s, r).Idle? && PcOf(s, u).Idle?
    ensures BothHold(s, r, u, ck)
  {
    var s1 := Gets(s, r, ck, ttl);
    DeletionFrees(s1, p, a, ck);
    var s2 := Step(s1, p, a).value;
    LeadsTo(s, s1, p, a, s2);
    var s3 := Gets(s2, u, ck, ttl);
    LeadsOn(s, s2, s3);
    assert HoldsNow(s3, r, ck) && HoldsNow(s3, u, ck);
  }

  lemma BothHoldLater(s: State, t: State, p: string, q: string, ck: string)
    requires WellFormed(s) && WellFormed(t) && Leads(s, t) && BothHold(t, p, q, ck)
    ensures BothHold(s, p, q, ck)
  {
    var u :| Leads(t, u) && HoldsNow(u, p, ck) && HoldsNow(u, q, ck);
    LeadsOn(s, t, u);
  }

  /** Whenever a cleanup collects an expired lock, two idle clients can come to hold the slot together. */
  lemma CollectionBreaks(s: State, p: string, r: string, u: string, ck: string, ttl: nat)
    requires WellFormed(s) && p in s.pcs && Collects(s, p, Visit(ck)) && Available(s, r, ck)
    requires r != p && u != p && r != u && PcOf(s, r).Idle? && PcOf(s, u).Idle?
    ensures BothHold(s, r, u, ck)
  {
    var found := s.pcs[p].found[ck := s.store[ck]];
    LeadsHere(s);
    var s1 := Step(s, p, Visit(ck)).value;
    LeadsTo(s, s, p, Visit(ck), s1);
    var s2 := At(s1, p, Sweeping(found));
    LeadsTo(s, s1, p, EndScan, s2);
    DeletionBreaks(s2, p, Sweep(ck), r, u, ck, ttl);
    BothHoldLater(s, s2, r, u, ck);
  }

  /** From nothing: some client's lease on the slot has run out. */
  lemma ToExpired() returns (t: State)
    ensures t == Grant(Put(START, "k", LockObject("c", 1)), "c", "k", 1).(clock := 5)
    ensures WellFormed(t) && Leads(START, t)
  {
    var t1 := GetsAbsent(START, "c", "k", 1);
    t := t1.(clock := 5);
    LeadsTo(START, t1, "c", Tick(5), t);
  }

  /** Two clients that both find the same expired lock come to hold the slot with running leases. */
  lemma ExpiryBreaksExclusion()
    ensures BothHold(START, "a", "b", "k")
  {
    var t := ToExpired();
    var t1 := ToRetesting(t, "a", "k", 10);
    LeadsOn(START, t, t1);
    TakeoverBreaks(t1, "a", "b", "k", 10);
    BothHoldLater(START, t1, "a", "b", "k");
  }

  /** So do two clients while a cleanup deletes what it collected earlier. */
  lemma CleanupBreaksExclusion()
    ensures BothHold(START, "a", "b", "k")
  {
    var t := ToExpired();
    var t1 := At(t, "x", Scanning(true, {}, map[]));
    LeadsTo(START, t, "x", Begin(Cleanup), t1);
    CollectionBreaks(t1, "x", "a", "b", "k", 10);
    BothHoldLater(START, t1, "a", "b", "k");
  }

  /** And while a client releases the lock it has checked, but which has expired and been taken over since. */
  lemma ReleaseBreaksExclusion()
    ensures BothHold(START, "a", "b", "k")
  {
    var t1 := GetsAbsent(START, "c", "k", 1);
    var t2 := At(t1, "c", Releasing("k"));
    LeadsTo(START, t1, "c", Begin(Release("k")), t2);
    var t3 := At(t2, "c", Deleting("k", 0));
    LeadsTo(START, t2, "c", Go, t3);
    var t4 := t3.(clock := 5);
    LeadsTo(START, t3, "c", Tick(5), t4);
    DeletionBreaks(t4, "c", Go, "a", "b", "k", 10);
    BothHoldLater(START, t4, "a", "b", "k");
  }
}
