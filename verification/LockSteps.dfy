/**
 lock/lock.go under concurrency. Each step is one atomic operation on the sync.Map (Load, LoadOrStore, Store,
 Delete, or one visit of Range) together with the local work up to the next one. Any number of clients run
 one call each, interleaved in any way.
 */
module LockSteps {
  import opened Prelude

  datatype LockObject = LockObject(owner: string, expiresAt: int)

  /** Where a client is inside its call. */
  datatype Pc =
    | Idle
    | Loading(ck: string, now: int, ttl: int)                   // before Load in TryAcquire
    | Testing(ck: string, now: int, ttl: int, existing: nat)    // holds a loaded lock, before the first IsExpired
    | Inserting(ck: string, lock: LockObject)                   // before LoadOrStore
    | Retesting(ck: string, lock: LockObject, existing: nat)    // before the second IsExpired
    | Storing(ck: string, lock: LockObject, tested: nat)        // before the overwriting Store
    | Releasing(ck: string)                                     // before Load in Release
    | Deleting(ck: string, checked: nat)                        // before Delete in Release
    | Scanning(cleanup: bool, seen: set<string>, found: map<string, nat>)  // inside Range
    | Sweeping(found: map<string, nat>)                         // deleting what Range collected

  datatype Call = TryAcquire(ck: string, ttl: int) | Release(ck: string) | ReleaseAll | Cleanup

  datatype Action = Begin(call: Call) | Go | Visit(ck: string) | EndScan | Sweep(ck: string) | Tick(now: int)

  /**
   `store` maps slots to lock objects, which live in `objects` because a refresh writes through a pointer.
   `held` records who was granted which slot until when and has not deleted it since; `outcome` is the last
   answer of TryAcquire to each client about each slot.
   */
  datatype State = State(
    store: map<string, nat>, objects: seq<LockObject>, clock: int, pcs: map<string, Pc>,
    held: map<(string, string), int>, outcome: map<(string, string), bool>)

  function PcOf(s: State, p: string): Pc {
    if p in s.pcs then s.pcs[p] else Idle
  }

  function At(s: State, p: string, pc: Pc): State {
    s.(pcs := s.pcs[p := pc])
  }

  function Grant(s: State, p: string, ck: string, expiresAt: int): State {
    s.(pcs := s.pcs[p := Idle], held := s.held[(p, ck) := expiresAt], outcome := s.outcome[(p, ck) := true])
  }

  function Refuse(s: State, p: string, ck: string): State {
    s.(pcs := s.pcs[p := Idle], outcome := s.outcome[(p, ck) := false])
  }

  function Put(s: State, ck: string, lock: LockObject): State {
    s.(store := s.store[ck := |s.objects|], objects := s.objects + [lock])
  }

  function Drop(s: State, p: string, ck: string): State {
    s.(store := s.store - {ck}, held := s.held - {(p, ck)})
  }

  /** The lock objects a state mentions exist. */
  ghost predicate WellFormed(s: State) {
    && (forall ck :: ck in s.store ==> s.store[ck] < |s.objects|)
    && (forall p :: p in s.pcs ==> PcKnown(s.pcs[p], |s.objects|))
  }

  ghost predicate PcKnown(pc: Pc, n: nat) {
    match pc
    case Testing(_, _, _, existing) => existing < n
    case Retesting(_, _, existing) => existing < n
    case Storing(_, _, tested) => tested < n
    case Deleting(_, checked) => checked < n
    case Scanning(_, _, found) => forall ck :: ck in found ==> found[ck] < n
    case Sweeping(found) => forall ck :: ck in found ==> found[ck] < n
    case _ => true
  }

  predicate Expired(s: State, lock: nat)
    requires lock < |s.objects|
  {
    s.clock > s.objects[lock].expiresAt
  }

  /** What a scan collects: a cleanup the expired locks, a disconnect the client's own. */
  predicate Hits(s: State, p: string, cleanup: bool, ck: string)
    requires WellFormed(s) && ck in s.store
  {
    if cleanup then Expired(s, s.store[ck]) else s.objects[s.store[ck]].owner == p
  }

  /** One step of client p; None when the action is not its next one. */
  function Step(s: State, p: string, a: Action): (r: Option<State>)
    requires WellFormed(s)
    ensures r.Some? ==> WellFormed(r.value)
  {
    var pc := PcOf(s, p);
    match a
    case Tick(now) => if now >= s.clock then Some(s.(clock := now)) else None
    case Begin(call) =>
      if !pc.Idle? then None
      else (
        match call
        case TryAcquire(ck, ttl) => Some(At(s, p, Loading(ck, s.clock, ttl)))
        case Release(ck) => Some(At(s, p, Releasing(ck)))
        case ReleaseAll => Some(At(s, p, Scanning(false, {}, map[])))
        case Cleanup => Some(At(s, p, Scanning(true, {}, map[])))
      )
    case Go => Advance(s, p, pc)
    case Visit(ck) =>
      if pc.Scanning? && ck in s.store && ck !in pc.seen then
        Some(At(s, p, Scanning(pc.cleanup, pc.seen + {ck},
                               if Hits(s, p, pc.cleanup, ck) then pc.found[ck := s.store[ck]] else pc.found)))
      else None
    case EndScan => if pc.Scanning? then Some(At(s, p, Sweeping(pc.found))) else None
    case Sweep(ck) =>
      if pc.Sweeping? && ck in pc.found then Some(At(Drop(s, p, ck), p, Sweeping(pc.found - {ck}))) else None
  }

  function Advance(s: State, p: string, pc: Pc): (r: Option<State>)
    requires WellFormed(s) && pc == PcOf(s, p)
    ensures r.Some? ==> WellFormed(r.value)
  {
    match pc
    case Loading(ck, now, ttl) =>
      if ck in s.store then Some(At(s, p, Testing(ck, now, ttl, s.store[ck])))
      else Some(At(s, p, Inserting(ck, LockObject(p, now + ttl))))
    case Testing(ck, now, ttl, existing) =>
      if Expired(s, existing) then Some(At(s, p, Inserting(ck, LockObject(p, now + ttl))))
      else if s.objects[existing].owner == p then
        Some(Grant(s.(objects := s.objects[existing := LockObject(p, now + ttl)]), p, ck, now + ttl))
      else Some(Refuse(s, p, ck))
    case Inserting(ck, lock) =>
      if ck in s.store then Some(At(s, p, Retesting(ck, lock, s.store[ck])))
      else Some(Grant(Put(s, ck, lock), p, ck, lock.expiresAt))
    case Retesting(ck, lock, existing) =>
      if s.objects[existing].owner != p && !Expired(s, existing) then Some(Refuse(s, p, ck))
      else Some(At(s, p, Storing(ck, lock, existing)))
    case Storing(ck, lock, _) => Some(Grant(Put(s, ck, lock), p, ck, lock.expiresAt))
    case Releasing(ck) =>
      if ck in s.store && s.objects[s.store[ck]].owner == p then Some(At(s, p, Deleting(ck, s.store[ck])))
      else Some(At(s, p, Idle))
    case Deleting(ck, _) => Some(At(Drop(s, p, ck), p, Idle))
    case Sweeping(found) => if found == map[] then Some(At(s, p, Idle)) else None
    case _ => None
  }

  /** The step goes on to overwrite another owner's lock because it has expired. */
  predicate TakesOver(s: State, p: string, a: Action)
    requires WellFormed(s)
  {
    var pc := PcOf(s, p);
    a.Go? && p in s.pcs && pc.Retesting? && s.objects[pc.existing].owner != p && Expired(s, pc.existing)
  }

  /** The step is a cleanup's visit to another owner's lock that has expired. */
  predicate Collects(s: State, p: string, a: Action)
    requires WellFormed(s)
  {
    var pc := PcOf(s, p);
    && a.Visit? && pc.Scanning? && pc.cleanup && a.ck in s.store && a.ck !in pc.seen
    && s.objects[s.store[a.ck]].owner != p && Expired(s, s.store[a.ck])
  }

  predicate Harms(s: State, p: string, a: Action)
    requires WellFormed(s)
  {
    TakesOver(s, p, a) || Collects(s, p, a)
  }

  type Schedule = seq<(string, Action)>

  /** The schedule leads from s to `end`: every step is enabled, and none is a takeover or a cleanup's find. */
  ghost predicate Reaches(s: State, schedule: Schedule, end: State)
    requires WellFormed(s)
    decreases schedule
  {
    if schedule == [] then end == s
    else
      var (p, a) := schedule[0];
      !Harms(s, p, a) && Step(s, p, a).Some? && Reaches(Step(s, p, a).value, schedule[1..], end)
  }

  // ----- mutual exclusion

  /** The slot holds a lock of p. */
  ghost predicate Owns(s: State, p: string, ck: string)
    requires WellFormed(s)
  {
    ck in s.store && s.objects[s.store[ck]].owner == p
  }

  /** The client relies on its own lock being in the slot: it loaded it, or is about to delete or overwrite it. */
  ghost predicate Claims(s: State, p: string, ck: string)
    requires WellFormed(s)
  {
    (p, ck) in s.held || (p in s.pcs && PcClaims(s, p, s.pcs[p], ck))
  }

  ghost predicate PcClaims(s: State, p: string, pc: Pc, ck: string)
    requires WellFormed(s) && p in s.pcs && s.pcs[p] == pc
  {
    match pc
    case Testing(c, _, _, existing) => c == ck && s.objects[existing].owner == p
    case Retesting(c, _, existing) => c == ck && s.objects[existing].owner == p
    case Storing(c, _, _) => c == ck
    case Deleting(c, _) => c == ck
    case Scanning(_, _, found) => ck in found
    case Sweeping(found) => ck in found
    case _ => false
  }

  /** A lock waiting to be stored names its client, and a client facing another's lock has none in the slot. */
  ghost predicate PcTidy(s: State, p: string, pc: Pc)
    requires WellFormed(s) && p in s.pcs && s.pcs[p] == pc
  {
    match pc
    case Inserting(_, lock) => lock.owner == p
    case Retesting(ck, lock, existing) => lock.owner == p && (s.objects[existing].owner != p ==> !Owns(s, p, ck))
    case Storing(_, lock, _) => lock.owner == p
    case _ => true
  }

  /** Every claim is backed by the map. */
  ghost predicate Safe(s: State) {
    && WellFormed(s)
    && (forall p :: p in s.pcs ==> PcTidy(s, p, s.pcs[p]))
    && (forall p, ck :: Claims(s, p, ck) ==> Owns(s, p, ck))
  }

  /** What no step of p does to the other clients. */
  ghost predicate Frames(s: State, s': State, p: string) {
    && WellFormed(s) && WellFormed(s')
    && FramesPcs(s, s', p) && FramesHeld(s, s', p) && FramesOwners(s, s')
  }

  ghost predicate FramesPcs(s: State, s': State, p: string) {
    forall q :: q != p ==> (q in s.pcs <==> q in s'.pcs) && (q in s.pcs ==> s'.pcs[q] == s.pcs[q])
  }

  ghost predicate FramesHeld(s: State, s': State, p: string) {
    forall q, ck :: q != p ==> ((q, ck) in s.held <==> (q, ck) in s'.held)
  }

  ghost predicate FramesOwners(s: State, s': State) {
    |s.objects| <= |s'.objects| && forall i :: 0 <= i < |s.objects| ==> s'.objects[i].owner == s.objects[i].owner
  }

  lemma AdvanceKeepsPc(s: State, p: string, q: string)
    requires WellFormed(s) && Advance(s, p, PcOf(s, p)).Some? && q != p
    ensures var s' := Advance(s, p, PcOf(s, p)).value;
            (q in s.pcs <==> q in s'.pcs) && (q in s.pcs ==> s'.pcs[q] == s.pcs[q])
  {
  }

  lemma KeepsPc(s: State, p: string, a: Action, q: string)
    requires WellFormed(s) && Step(s, p, a).Some? && q != p
    ensures var s' := Step(s, p, a).value; (q in s.pcs <==> q in s'.pcs) && (q in s.pcs ==> s'.pcs[q] == s.pcs[q])
  {
    if a.Go? { AdvanceKeepsPc(s, p, q); }
  }

  lemma KeepsHeld(s: State, p: string, a: Action)
    requires WellFormed(s) && Step(s, p, a).Some?
    ensures FramesHeld(s, Step(s, p, a).value, p)
  {
  }

  lemma KeepsOwners(s: State, p: string, a: Action)
    requires WellFormed(s) && Step(s, p, a).Some?
    ensures FramesOwners(s, Step(s, p, a).value)
  {
  }

  lemma StepFrames(s: State, p: string, a: Action)
    requires WellFormed(s) && Step(s, p, a).Some?
    ensures Frames(s, Step(s, p, a).value, p)
  {
    forall q | q != p
      ensures var s' := Step(s, p, a).value; (q in s.pcs <==> q in s'.pcs) && (q in s.pcs ==> s'.pcs[q] == s.pcs[q])
    {
      KeepsPc(s, p, a, q);
    }
    KeepsHeld(s, p, a);
    KeepsOwners(s, p, a);
  }

  /** Only a client's own steps can take its lock out of a slot. */
  lemma OwnershipIsStable(s: State, p: string, a: Action, q: string, ck: string)
    requires Safe(s) && Step(s, p, a).Some? && Owns(s, q, ck) && q != p
    ensures Owns(Step(s, p, a).value, q, ck)
  {
    var pc := PcOf(s, p);
    if a.Sweep? { assert Claims(s, p, a.ck); }
    if a.Go? && pc.Deleting? { assert Claims(s, p, pc.ck); }
    if a.Go? && pc.Storing? { assert Claims(s, p, pc.ck); }
  }

  /** ... and nobody else's step puts one of its locks there. */
  lemma OwnershipIsOwn(s: State, p: string, a: Action, q: string, ck: string)
    requires Safe(s) && Step(s, p, a).Some? && Owns(Step(s, p, a).value, q, ck) && q != p
    ensures Owns(s, q, ck)
  {
    if p in s.pcs { assert PcTidy(s, p, s.pcs[p]); }
  }

  lemma OwnClaimsGo(s: State, p: string, ck: string)
    requires Safe(s) && !Harms(s, p, Go) && Step(s, p, Go).Some? && Claims(Step(s, p, Go).value, p, ck)
    ensures Owns(Step(s, p, Go).value, p, ck)
  {
    if p in s.pcs { assert PcTidy(s, p, s.pcs[p]); }
    if Claims(s, p, ck) { assert Owns(s, p, ck); }
  }

  lemma OwnClaims(s: State, p: string, a: Action, ck: string)
    requires Safe(s) && !Harms(s, p, a) && Step(s, p, a).Some? && Claims(Step(s, p, a).value, p, ck)
    ensures Owns(Step(s, p, a).value, p, ck)
  {
    match a
    case Go => OwnClaimsGo(s, p, ck);
    case Sweep(c) => OwnClaimsSweep(s, p, c, ck);
    case _ => if Claims(s, p, ck) { assert Owns(s, p, ck); }
  }

  lemma OwnClaimsSweep(s: State, p: string, c: string, ck: string)
    requires Safe(s) && Step(s, p, Sweep(c)).Some? && Claims(Step(s, p, Sweep(c)).value, p, ck)
    ensures Owns(Step(s, p, Sweep(c)).value, p, ck)
  {
    assert Claims(s, p, ck) && Owns(s, p, ck);
  }

  lemma OthersClaims(s: State, s': State, p: string, q: string, ck: string)
    requires Frames(s, s', p) && Claims(s', q, ck) && q != p
    ensures Claims(s, q, ck)
  {
  }

  lemma OwnTidy(s: State, p: string, a: Action)
    requires Safe(s) && Step(s, p, a).Some?
    ensures var s' := Step(s, p, a).value; p in s'.pcs ==> PcTidy(s', p, s'.pcs[p])
  {
    if p in s.pcs { assert PcTidy(s, p, s.pcs[p]); }
  }

  lemma OthersTidy(s: State, s': State, p: string, q: string)
    requires Frames(s, s', p) && q != p && q in s.pcs && PcTidy(s, q, s.pcs[q])
    requires forall ck :: Owns(s', q, ck) ==> Owns(s, q, ck)
    ensures q in s'.pcs && PcTidy(s', q, s'.pcs[q])
  {
  }

  lemma StepIsTidy(s: State, p: string, a: Action)
    requires Safe(s) && Step(s, p, a).Some?
    ensures var s' := Step(s, p, a).value; forall q :: q in s'.pcs ==> PcTidy(s', q, s'.pcs[q])
  {
    StepFrames(s, p, a);
    var s' := Step(s, p, a).value;
    forall q | q in s'.pcs ensures PcTidy(s', q, s'.pcs[q]) {
      if q == p {
        OwnTidy(s, p, a);
      } else {
        forall ck | Owns(s', q, ck) ensures Owns(s, q, ck) { OwnershipIsOwn(s, p, a, q, ck); }
        OthersTidy(s, s', p, q);
      }
    }
  }

  lemma StepIsSafe(s: State, p: string, a: Action)
    requires Safe(s) && !Harms(s, p, a) && Step(s, p, a).Some?
    ensures Safe(Step(s, p, a).value)
  {
    StepIsTidy(s, p, a);
    StepFrames(s, p, a);
    var s' := Step(s, p, a).value;
    forall q, ck | Claims(s', q, ck) ensures Owns(s', q, ck) {
      if q == p {
        OwnClaims(s, p, a, ck);
      } else {
        OthersClaims(s, s', p, q, ck);
        OwnershipIsStable(s, p, a, q, ck);
      }
    }
  }

  /**
   Exactly two steps put a client in a position to remove a lock that is not its own: going on to overwrite
   another owner's expired lock, and a cleanup's collecting one.
   */
  lemma SafeExactly(s: State, p: string, a: Action)
    requires Safe(s) && Step(s, p, a).Some?
    ensures Safe(Step(s, p, a).value) <==> !Harms(s, p, a)
  {
    if Harms(s, p, a) {
      var pc, s' := s.pcs[p], Step(s, p, a).value;
      assert PcTidy(s, p, pc);
      var ck := if a.Go? then pc.ck else a.ck;
      assert Claims(s', p, ck) && !Owns(s', p, ck);
    } else {
      StepIsSafe(s, p, a);
    }
  }

  const START := State(map[], [], 0, map[], map[], map[])

  lemma {:induction false} RunIsSafe(s: State, schedule: Schedule, end: State)
    requires Safe(s) && Reaches(s, schedule, end)
    ensures Safe(end)
    decreases schedule
  {
    if schedule != [] {
      StepIsSafe(s, schedule[0].0, schedule[0].1);
      RunIsSafe(Step(s, schedule[0].0, schedule[0].1).value, schedule[1..], end);
    }
  }

  /**
   In every interleaving without a takeover and without a cleanup's find, no two owners hold the same slot,
   even long after their leases have run out.
   */
  lemma {:induction false} MutualExclusion(schedule: Schedule, end: State, owner1: string, owner2: string, ck: string)
    requires Reaches(START, schedule, end)
    requires (owner1, ck) in end.held && (owner2, ck) in end.held
    ensures owner1 == owner2
  {
    RunIsSafe(START, schedule, end);
    assert Claims(end, owner1, ck) && Claims(end, owner2, ck);
  }

  // ----- a race for one absent slot

  /** Nobody is in the middle of a call that concerns the slot. */
  ghost predicate Engaged(pc: Pc, ck: string) {
    match pc
    case Loading(c, _, _) => c == ck
    case Testing(c, _, _, _) => c == ck
    case Inserting(c, _) => c == ck
    case Retesting(c, _, _) => c == ck
    case Storing(c, _, _) => c == ck
    case Releasing(c) => c == ck
    case Deleting(c, _) => c == ck
    case Scanning(_, _, found) => ck in found
    case Sweeping(found) => ck in found
    case Idle => false
  }

  /** An absent slot nobody is engaged at; anything may go on elsewhere. The record of answers about it begins here. */
  ghost predicate Open(s: State, ck: string) {
    && Safe(s) && ck !in s.store
    && (forall p :: p in s.pcs ==> !Engaged(s.pcs[p], ck))
    && (forall p :: (p, ck) !in s.outcome)
  }

  /** The step does not give the slot up: no release of it begins and no scan collects it. */
  predicate Contends(s: State, p: string, a: Action, ck: string)
    requires WellFormed(s)
  {
    && a != Begin(Release(ck))
    && (a.Visit? && a.ck == ck && PcOf(s, p).Scanning? && ck in s.store ==> !Hits(s, p, PcOf(s, p).cleanup, ck))
  }

  /** The slot is taken exactly when some client was granted it; grants and answers tell the same story. */
  ghost predicate Racing(s: State, ck: string) {
    && Safe(s)
    && (ck in s.store ==> (s.objects[s.store[ck]].owner, ck) in s.held)
    && (forall p :: Answered(s, p, ck))
    && (forall p :: p in s.pcs ==> RacingPc(s, p, s.pcs[p], ck))
  }

  ghost predicate Answered(s: State, p: string, ck: string) {
    && ((p, ck) in s.held ==> (p, ck) in s.outcome && s.outcome[(p, ck)])
    && ((p, ck) in s.outcome ==> if s.outcome[(p, ck)] then (p, ck) in s.held else ck in s.store)
  }

  ghost predicate RacingPc(s: State, p: string, pc: Pc, ck: string)
    requires WellFormed(s) && p in s.pcs && s.pcs[p] == pc
  {
    match pc
    case Testing(c, _, _, existing) =>
      c == ck ==> ck in s.store && ((p, ck) in s.held ==> s.objects[existing].owner == p)
    case Retesting(c, _, existing) =>
      c == ck ==> ck in s.store && ((p, ck) in s.held ==> s.objects[existing].owner == p)
    case Storing(c, _, _) => c == ck ==> (p, ck) in s.held
    case Releasing(c) => c != ck
    case Deleting(c, _) => c != ck
    case Scanning(_, _, found) => ck !in found
    case Sweeping(found) => ck !in found
    case _ => true
  }

  lemma OpenRaces(s: State, ck: string)
    requires Open(s, ck)
    ensures Racing(s, ck)
  {
    forall p ensures (p, ck) !in s.held {
      if (p, ck) in s.held { assert Claims(s, p, ck); }
    }
    forall p | p in s.pcs ensures RacingPc(s, p, s.pcs[p], ck) {
      assert !Engaged(s.pcs[p], ck);
    }
  }

  /** A taken slot keeps its owner, and whoever takes an absent one has been granted it. */
  lemma RaceSlot(s: State, p: string, a: Action, ck: string)
    requires Racing(s, ck) && Contends(s, p, a, ck) && !Harms(s, p, a) && Step(s, p, a).Some?
    ensures var s' := Step(s, p, a).value;
            if ck in s.store then ck in s'.store && s'.objects[s'.store[ck]].owner == s.objects[s.store[ck]].owner
            else ck in s'.store ==> s'.objects[s'.store[ck]].owner == p && (p, ck) in s'.held
  {
    if p in s.pcs { assert RacingPc(s, p, s.pcs[p], ck) && PcTidy(s, p, s.pcs[p]); }
    if (p, ck) in s.held { assert Claims(s, p, ck); }
  }

  /** A step changes the grants and answers of its own client only, and grants are never lost. */
  lemma RaceHeld(s: State, p: string, a: Action, ck: string, q: string)
    requires Racing(s, ck) && Contends(s, p, a, ck) && !Harms(s, p, a) && Step(s, p, a).Some?
    ensures var s' := Step(s, p, a).value;
            && ((q, ck) in s.held ==> (q, ck) in s'.held)
            && ((q, ck) in s'.held && (q, ck) !in s.held ==> (q, ck) in s'.outcome && s'.outcome[(q, ck)])
            && (q != p ==> ((q, ck) in s'.outcome <==> (q, ck) in s.outcome))
            && (q != p && (q, ck) in s.outcome ==> s'.outcome[(q, ck)] == s.outcome[(q, ck)])
  {
    if p in s.pcs { assert RacingPc(s, p, s.pcs[p], ck); }
  }

  lemma RaceAnswered(s: State, p: string, a: Action, ck: string, q: string)
    requires Racing(s, ck) && Contends(s, p, a, ck) && !Harms(s, p, a) && Step(s, p, a).Some?
    ensures Answered(Step(s, p, a).value, q, ck)
  {
    assert Answered(s, q, ck);
    RaceSlot(s, p, a, ck);
    RaceHeld(s, p, a, ck, q);
    if q == p { RaceOwnAnswer(s, p, a, ck); }
  }

  lemma RaceOwnAnswer(s: State, p: string, a: Action, ck: string)
    requires Racing(s, ck) && Contends(s, p, a, ck) && !Harms(s, p, a) && Step(s, p, a).Some?
    ensures Answered(Step(s, p, a).value, p, ck)
  {
    assert Answered(s, p, ck);
    if p in s.pcs { assert RacingPc(s, p, s.pcs[p], ck); }
  }

  lemma RaceOwnPcGo(s: State, p: string, ck: string)
    requires Racing(s, ck) && !Harms(s, p, Go) && p in s.pcs && Step(s, p, Go).Some?
    ensures var s' := Step(s, p, Go).value; p in s'.pcs && RacingPc(s', p, s'.pcs[p], ck)
  {
    assert RacingPc(s, p, s.pcs[p], ck);
    if (p, ck) in s.held { assert Claims(s, p, ck); }
    if PcClaims(s, p, s.pcs[p], ck) { assert Claims(s, p, ck) && Owns(s, p, ck); }
  }

  lemma RaceOwnPc(s: State, p: string, a: Action, ck: string)
    requires Racing(s, ck) && Contends(s, p, a, ck) && !Harms(s, p, a) && Step(s, p, a).Some?
    ensures var s' := Step(s, p, a).value; p in s'.pcs ==> RacingPc(s', p, s'.pcs[p], ck)
  {
    if p in s.pcs {
      assert RacingPc(s, p, s.pcs[p], ck);
      if a.Go? { RaceOwnPcGo(s, p, ck); }
    }
  }

  lemma RaceOtherPc(s: State, p: string, a: Action, ck: string, q: string)
    requires Racing(s, ck) && Contends(s, p, a, ck) && !Harms(s, p, a) && Step(s, p, a).Some?
    requires q != p && q in s.pcs
    ensures var s' := Step(s, p, a).value; q in s'.pcs && RacingPc(s', q, s'.pcs[q], ck)
  {
    assert RacingPc(s, q, s.pcs[q], ck);
    StepFrames(s, p, a);
    RaceSlot(s, p, a, ck);
    RaceHeld(s, p, a, ck, q);
  }

  lemma RaceStep(s: State, p: string, a: Action, ck: string)
    requires Racing(s, ck) && Contends(s, p, a, ck) && !Harms(s, p, a) && Step(s, p, a).Some?
    ensures Racing(Step(s, p, a).value, ck)
  {
    StepIsSafe(s, p, a);
    RaceSlot(s, p, a, ck);
    var s' := Step(s, p, a).value;
    if ck in s.store { RaceHeld(s, p, a, ck, s.objects[s.store[ck]].owner); }
    forall q ensures Answered(s', q, ck) { RaceAnswered(s, p, a, ck, q); }
    forall q | q in s'.pcs ensures RacingPc(s', q, s'.pcs[q], ck) {
      if q == p {
        RaceOwnPc(s, p, a, ck);
      } else {
        KeepsPc(s, p, a, q);
        RaceOtherPc(s, p, a, ck, q);
      }
    }
  }

  /** Every step of the schedule leaves the race for the slot on. */
  ghost predicate RaceGoesOn(s: State, schedule: Schedule, ck: string)
    requires WellFormed(s)
    decreases schedule
  {
    if schedule == [] then true
    else
      var (p, a) := schedule[0];
      Contends(s, p, a, ck) && (Step(s, p, a).Some? ==> RaceGoesOn(Step(s, p, a).value, schedule[1..], ck))
  }

  lemma {:induction false} RaceRun(s: State, schedule: Schedule, end: State, ck: string)
    requires Racing(s, ck) && Reaches(s, schedule, end) && RaceGoesOn(s, schedule, ck)
    ensures Racing(end, ck)
    decreases schedule
  {
    if schedule != [] {
      RaceStep(s, schedule[0].0, schedule[0].1, ck);
      RaceRun(Step(s, schedule[0].0, schedule[0].1).value, schedule[1..], end, ck);
    }
  }

  /**
   Any number of clients race for an absent slot, whatever goes on at the other slots meanwhile: as soon as
   one of them has an answer, exactly one has won.
   */
  lemma {:induction false} ExactlyOneWinner(s: State, schedule: Schedule, end: State, ck: string, answered: string)
    requires Open(s, ck) && Reaches(s, schedule, end) && RaceGoesOn(s, schedule, ck)
    requires (answered, ck) in end.outcome
    ensures exists winner :: (winner, ck) in end.outcome && end.outcome[(winner, ck)]
              && forall p :: (p, ck) in end.outcome && p != winner ==> !end.outcome[(p, ck)]
  {
    OpenRaces(s, ck);
    RaceRun(s, schedule, end, ck);
    assert Answered(end, answered, ck);
    assert ck in end.store by {
      if end.outcome[(answered, ck)] { assert Claims(end, answered, ck); }
    }
    var winner := end.objects[end.store[ck]].owner;
    assert Answered(end, winner, ck);
    forall q | (q, ck) in end.outcome && end.outcome[(q, ck)] ensures q == winner {
      assert Answered(end, q, ck) && Claims(end, q, ck);
    }
  }
}
