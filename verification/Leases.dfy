/** The lock table of lock/lock.go as a plain map, one manager call per step, and what whole runs of it guarantee. */
module Leases {
  import opened Prelude

  datatype Lease = Lease(key: string, owner: string, sheet: string, acquiredAt: int, expiresAt: int)

  /** Composite key to stored lock. */
  type Table = map<string, Lease>

  datatype Error = LockHeld | NotOwner | LockNotFound

  datatype Acquisition = Acquisition(table: Table, granted: Option<Lease>)
  datatype Removal = Removal(table: Table, error: Option<Error>)

  function CompositeKey(sheet: string, key: string): string {
    sheet + ":" + key
  }

  predicate Expired(lease: Lease, now: int) {
    now > lease.expiresAt
  }

  function TryAcquire(t: Table, sheet: string, key: string, owner: string, now: int, ttl: int): Acquisition {
    var ck := CompositeKey(sheet, key);
    if ck in t && !Expired(t[ck], now) then
      if t[ck].owner == owner then
        var refreshed := t[ck].(expiresAt := now + ttl);
        Acquisition(t[ck := refreshed], Some(refreshed))
      else Acquisition(t, None)
    else
      var lease := Lease(key, owner, sheet, now, now + ttl);
      Acquisition(t[ck := lease], Some(lease))
  }

  function Release(t: Table, sheet: string, key: string, owner: string): Removal {
    var ck := CompositeKey(sheet, key);
    if ck !in t then Removal(t, Some(LockNotFound))
    else if t[ck].owner != owner then Removal(t, Some(NotOwner))
    else Removal(t - {ck}, None)
  }

  function IsLocked(t: Table, sheet: string, key: string, now: int): Option<Lease> {
    var ck := CompositeKey(sheet, key);
    if ck in t && !Expired(t[ck], now) then Some(t[ck]) else None
  }

  function ReleaseAllByOwner(t: Table, owner: string): Table {
    map ck | ck in t && t[ck].owner != owner :: t[ck]
  }

  function CleanupExpired(t: Table, now: int): Table {
    map ck | ck in t && !Expired(t[ck], now) :: t[ck]
  }

  function GetAllBySheet(t: Table, sheet: string, now: int): set<Lease> {
    set ck | ck in t && HasPrefix(ck, sheet + ":") && !Expired(t[ck], now) :: t[ck]
  }

  // ----- composite keys

  /** Sheet ids without ":" never share a slot, whatever the keys contain. */
  lemma CompositeKeysDiffer(sheet1: string, key1: string, sheet2: string, key2: string)
    requires ':' !in sheet1 && ':' !in sheet2
    requires CompositeKey(sheet1, key1) == CompositeKey(sheet2, key2)
    ensures sheet1 == sheet2 && key1 == key2
  {
    var c := CompositeKey(sheet1, key1);
    assert forall i :: 0 <= i < |sheet1| ==> c[i] == sheet1[i] && sheet1[i] in sheet1;
    assert forall i :: 0 <= i < |sheet2| ==> c[i] == sheet2[i] && sheet2[i] in sheet2;
    assert c[|sheet1|] == ':' && c[|sheet2|] == ':';
    assert |sheet1| == |sheet2|;
    assert c[..|sheet1|] == sheet1 && c[..|sheet2|] == sheet2;
    assert c[|sheet1| + 1..] == key1 && c[|sheet2| + 1..] == key2;
  }

  /** One id, with its separator, is a prefix of the other. */
  predicate Collide(sheet1: string, sheet2: string) {
    HasPrefix(sheet1 + ":", sheet2 + ":") || HasPrefix(sheet2 + ":", sheet1 + ":")
  }

  /** That is exactly when two sheets can share a slot. */
  lemma CollisionsExactly(sheet1: string, sheet2: string)
    ensures (exists key1, key2 :: CompositeKey(sheet1, key1) == CompositeKey(sheet2, key2))
            <==> Collide(sheet1, sheet2)
  {
    if HasPrefix(sheet1 + ":", sheet2 + ":") { ExtendCollides(sheet1, sheet2); }
    if HasPrefix(sheet2 + ":", sheet1 + ":") { ExtendCollides(sheet2, sheet1); }
    forall key1, key2 | CompositeKey(sheet1, key1) == CompositeKey(sheet2, key2)
      ensures Collide(sheet1, sheet2)
    {
      var c := CompositeKey(sheet1, key1);
      assert c[..|sheet1| + 1] == sheet1 + ":" && c[..|sheet2| + 1] == sheet2 + ":";
      if |sheet1| <= |sheet2| {
        assert (sheet2 + ":")[..|sheet1| + 1] == c[..|sheet2| + 1][..|sheet1| + 1] == c[..|sheet1| + 1];
      } else {
        assert (sheet1 + ":")[..|sheet2| + 1] == c[..|sheet1| + 1][..|sheet2| + 1] == c[..|sheet2| + 1];
      }
    }
  }

  lemma ExtendCollides(long: string, short: string)
    requires HasPrefix(long + ":", short + ":")
    ensures exists key :: CompositeKey(long, "") == CompositeKey(short, key)
  {
    var key := (long + ":")[|short| + 1..];
    assert CompositeKey(long, "") == long + ":" == (long + ":")[..|short| + 1] + key;
    assert CompositeKey(long, "") == CompositeKey(short, key);
  }

  /** Every lock sits in the slot of its own sheet and key. */
  ghost predicate WellKeyed(t: Table) {
    forall ck :: ck in t ==> ck == CompositeKey(t[ck].sheet, t[ck].key)
  }

  /** With ids free of ":", a listing is exactly the unexpired locks of the sheet asked for. */
  lemma ListingIsExact(t: Table, sheet: string, now: int)
    requires WellKeyed(t) && ':' !in sheet && forall ck :: ck in t ==> ':' !in t[ck].sheet
    ensures GetAllBySheet(t, sheet, now) == set ck | ck in t && t[ck].sheet == sheet && !Expired(t[ck], now) :: t[ck]
  {
    forall ck | ck in t ensures HasPrefix(ck, sheet + ":") <==> t[ck].sheet == sheet {
      var own := t[ck].sheet + ":";
      assert ck == own + t[ck].key;
      if HasPrefix(ck, sheet + ":") {
        assert ck == (sheet + ":") + ck[|sheet| + 1..];
        assert ck == CompositeKey(sheet, ck[|sheet| + 1..]);
        CompositeKeysDiffer(t[ck].sheet, t[ck].key, sheet, ck[|sheet| + 1..]);
      }
    }
  }

  // ----- runs of manager calls under a monotone clock

  datatype Call =
    | Acquire(sheet: string, key: string, owner: string, ttl: int)
    | Free(sheet: string, key: string, owner: string)
    | FreeAll(owner: string)          // the owner disconnects
    | Cleanup
    | Ask(sheet: string, key: string)
    | List(sheet: string)

  function Apply(t: Table, call: Call, now: int): Table {
    match call
    case Acquire(sheet, key, owner, ttl) => TryAcquire(t, sheet, key, owner, now, ttl).table
    case Free(sheet, key, owner) => Release(t, sheet, key, owner).table
    case FreeAll(owner) => ReleaseAllByOwner(t, owner)
    case Cleanup => CleanupExpired(t, now)
    case Ask(_, _) => t
    case List(_) => t
  }

  /** What a client sees of a call: which one, when, and whether it succeeded. */
  datatype Record = Record(call: Call, now: int, ok: bool)

  predicate Succeeds(t: Table, call: Call, now: int) {
    match call
    case Acquire(sheet, key, owner, ttl) => TryAcquire(t, sheet, key, owner, now, ttl).granted.Some?
    case Free(sheet, key, owner) => Release(t, sheet, key, owner).error.None?
    case _ => true
  }

  function Run(log: seq<Record>): Table {
    if log == [] then map[]
    else
      var n := |log| - 1;
      Apply(Run(log[..n]), log[n].call, log[n].now)
  }

  /** The log is what the manager really answered, under a clock that never goes back. */
  ghost predicate Recorded(log: seq<Record>) {
    && (forall i :: 0 <= i < |log| ==> log[i].ok == Succeeds(Run(log[..i]), log[i].call, log[i].now))
    && (forall i, j :: 0 <= i < j < |log| ==> log[i].now <= log[j].now)
  }

  /**
   The end of the hold a client can infer from the answers alone: its last grant on a slot runs to
   now + ttl, and its own release or disconnect ends it.
   */
  function HeldUntil(log: seq<Record>, ck: string, owner: string): Option<int> {
    if log == [] then None
    else
      var n := |log| - 1;
      var before := HeldUntil(log[..n], ck, owner);
      match log[n].call
      case Acquire(s, k, o, ttl) =>
        if log[n].ok && o == owner && CompositeKey(s, k) == ck then Some(log[n].now + ttl) else before
      case Free(s, k, o) => if log[n].ok && o == owner && CompositeKey(s, k) == ck then None else before
      case FreeAll(o) => if o == owner then None else before
      case _ => before
  }

  /** The table and the clients' inference agree on everything not yet expired. */
  ghost predicate Mirrors(t: Table, log: seq<Record>, now: int) {
    && (forall ck :: ck in t && !Expired(t[ck], now) ==> HeldUntil(log, ck, t[ck].owner) == Some(t[ck].expiresAt))
    && (forall ck, o :: HeldUntil(log, ck, o).Some? && HeldUntil(log, ck, o).value >= now ==>
          ck in t && t[ck].owner == o && t[ck].expiresAt == HeldUntil(log, ck, o).value)
  }

  lemma {:induction false} MirrorsStep(t: Table, log: seq<Record>, r: Record)
    requires Mirrors(t, log, r.now) && r.ok == Succeeds(t, r.call, r.now)
    ensures Mirrors(Apply(t, r.call, r.now), log + [r], r.now)
  {
  }

  lemma {:induction false} MirrorsRun(log: seq<Record>, now: int)
    requires Recorded(log) && (log != [] ==> log[|log| - 1].now <= now)
    ensures Mirrors(Run(log), log, now)
  {
    if log != [] {
      var n := |log| - 1;
      forall i | 0 <= i < n ensures log[..n][i].ok == Succeeds(Run(log[..n][..i]), log[..n][i].call, log[..n][i].now) {
        assert log[..n][..i] == log[..i];
      }
      MirrorsRun(log[..n], log[n].now);
      MirrorsStep(Run(log[..n]), log[..n], log[n]);
      assert log[..n] + [log[n]] == log;
    }
  }

  /** At any time after any prefix of a run, at most one owner holds a slot. */
  lemma {:induction false} HoldsNeverOverlap(log: seq<Record>, ck: string, owner1: string, owner2: string, now: int)
    requires Recorded(log) && (log != [] ==> log[|log| - 1].now <= now)
    requires Holds(log, ck, owner1, now) && Holds(log, ck, owner2, now)
    ensures owner1 == owner2
  {
    MirrorsRun(log, now);
  }

  ghost predicate Holds(log: seq<Record>, ck: string, owner: string, now: int) {
    HeldUntil(log, ck, owner).Some? && HeldUntil(log, ck, owner).value >= now
  }

  /** An acquisition is refused exactly when some other client still holds the slot. */
  lemma {:induction false} RefusedExactlyWhenHeld(log: seq<Record>, sheet: string, key: string, owner: string,
                                                  now: int, ttl: int)
    requires Recorded(log) && (log != [] ==> log[|log| - 1].now <= now)
    ensures TryAcquire(Run(log), sheet, key, owner, now, ttl).granted.None? <==>
            exists other :: other != owner && Holds(log, CompositeKey(sheet, key), other, now)
  {
    MirrorsRun(log, now);
    RefusedIff(Run(log), log, sheet, key, owner, now, ttl);
  }

  lemma {:induction false} RefusedIff(t: Table, log: seq<Record>, sheet: string, key: string, owner: string, now: int,
                                      ttl: int)
    requires Mirrors(t, log, now)
    ensures TryAcquire(t, sheet, key, owner, now, ttl).granted.None? <==>
            exists other :: other != owner && Holds(log, CompositeKey(sheet, key), other, now)
  {
    var ck := CompositeKey(sheet, key);
    if TryAcquire(t, sheet, key, owner, now, ttl).granted.None? {
      assert Holds(log, ck, t[ck].owner, now);
    }
    forall other | other != owner && Holds(log, ck, other, now)
      ensures TryAcquire(t, sheet, key, owner, now, ttl).granted.None?
    {
      assert ck in t && t[ck].owner == other;
    }
  }

  /** Only its owner's release or disconnect can end a hold before it expires; nobody else can shorten it. */
  lemma HoldSurvives(t: Table, ck: string, call: Call, now: int)
    requires ck in t && !Expired(t[ck], now)
    ensures ck in Apply(t, call, now) && Apply(t, call, now)[ck].owner == t[ck].owner
            <==> !(call.FreeAll? && call.owner == t[ck].owner)
                 && !(call.Free? && call.owner == t[ck].owner && CompositeKey(call.sheet, call.key) == ck)
    ensures ck in Apply(t, call, now) && Apply(t, call, now)[ck] != t[ck] ==>
              call.Acquire? && call.owner == t[ck].owner && CompositeKey(call.sheet, call.key) == ck
  {
  }

  // ----- which answers cleaning up can change

  datatype TimedCall = TimedCall(call: Call, now: int)

  datatype Answer = Lock(lease: Option<Lease>) | Locks(leases: set<Lease>) | Freed(error: Option<Error>) | Count(n: int)

  /** What one call returns. */
  function AnswerTo(t: Table, call: Call, now: int): Answer {
    match call
    case Acquire(sheet, key, owner, ttl) => Lock(TryAcquire(t, sheet, key, owner, now, ttl).granted)
    case Ask(sheet, key) => Lock(IsLocked(t, sheet, key, now))
    case List(sheet) => Locks(GetAllBySheet(t, sheet, now))
    case Free(sheet, key, owner) => Freed(Release(t, sheet, key, owner).error)
    case FreeAll(owner) => Count(|t| - |ReleaseAllByOwner(t, owner)|)
    case Cleanup => Count(|t| - |CleanupExpired(t, now)|)
  }

  /** The answers to acquisitions, IsLocked and listings, in order. */
  function Answers(t: Table, calls: seq<TimedCall>): seq<Answer>
    decreases calls
  {
    if calls == [] then []
    else
      var (call, now) := (calls[0].call, calls[0].now);
      (if call.Acquire? || call.Ask? || call.List? then [AnswerTo(t, call, now)] else [])
      + Answers(Apply(t, call, now), calls[1..])
  }

  function WithoutCleanups(calls: seq<TimedCall>): seq<TimedCall> {
    if calls == [] then []
    else (if calls[0].call.Cleanup? then [] else [calls[0]]) + WithoutCleanups(calls[1..])
  }

  ghost predicate Monotone(calls: seq<TimedCall>) {
    forall i, j :: 0 <= i < j < |calls| ==> calls[i].now <= calls[j].now
  }

  ghost predicate AgreeOnLive(t: Table, u: Table, now: int) {
    forall ck :: (ck in t && !Expired(t[ck], now) ==> ck in u && u[ck] == t[ck])
              && (ck in u && !Expired(u[ck], now) ==> ck in t && t[ck] == u[ck])
  }

  /** One call on two tables that agree on live locks: same answer, and they still agree. */
  lemma AgreeingCall(t: Table, u: Table, call: Call, now: int)
    requires AgreeOnLive(t, u, now)
    ensures AgreeOnLive(Apply(t, call, now), Apply(u, call, now), now)
    ensures AgreeOnLive(CleanupExpired(t, now), u, now)
  {
  }

  lemma AgreeingAnswer(t: Table, u: Table, call: Call, now: int)
    requires AgreeOnLive(t, u, now) && (call.Acquire? || call.Ask? || call.List?)
    ensures AnswerTo(t, call, now) == AnswerTo(u, call, now)
  {
    if call.List? { assert GetAllBySheet(t, call.sheet, now) == GetAllBySheet(u, call.sheet, now); }
  }

  lemma {:induction false} CleanupsUnseen(t: Table, u: Table, calls: seq<TimedCall>)
    requires Monotone(calls) && (calls != [] ==> AgreeOnLive(t, u, calls[0].now))
    ensures Answers(t, calls) == Answers(u, WithoutCleanups(calls))
    decreases calls
  {
    if calls != [] {
      var now, call, rest := calls[0].now, calls[0].call, calls[1..];
      AgreeingCall(t, u, call, now);
      if call.Acquire? || call.Ask? || call.List? { AgreeingAnswer(t, u, call, now); }
      assert rest != [] ==> rest[0].now >= now;
      if call.Cleanup? {
        CleanupsUnseen(CleanupExpired(t, now), u, rest);
        assert WithoutCleanups(calls) == WithoutCleanups(rest);
      } else {
        CleanupsUnseen(Apply(t, call, now), Apply(u, call, now), rest);
        var kept := WithoutCleanups(calls);
        assert kept == [calls[0]] + WithoutCleanups(rest) && kept[1..] == WithoutCleanups(rest);
      }
    }
  }

  /** Two monotone runs that differ only in where they clean up give the same answers. */
  lemma {:induction false} CleanupUnobservable(t: Table, calls: seq<TimedCall>, others: seq<TimedCall>)
    requires Monotone(calls) && Monotone(others) && WithoutCleanups(calls) == WithoutCleanups(others)
    ensures Answers(t, calls) == Answers(t, others)
  {
    CleanupsUnseen(t, t, calls);
    CleanupsUnseen(t, t, others);
  }

  /** The lock the call is after has expired by then: in its slot, among its owner's, or any at all. */
  ghost predicate MeetsExpired(t: Table, call: Call, at: int) {
    match call
    case Free(sheet, key, _) => CompositeKey(sheet, key) in t && Expired(t[CompositeKey(sheet, key)], at)
    case FreeAll(owner) => exists ck :: ck in t && t[ck].owner == owner && Expired(t[ck], at)
    case Cleanup => exists ck :: ck in t && Expired(t[ck], at)
    case _ => false
  }

  /** The answers that a cleanup, now or earlier, changes: a Release in an expired slot, and the counts that would have
      included an expired lock. */
  lemma CleanupSeenExactly(t: Table, call: Call, earlier: int, now: int)
    requires earlier <= now
    ensures AnswerTo(CleanupExpired(t, earlier), call, now) == AnswerTo(t, call, now)
            <==> !MeetsExpired(t, call, earlier)
  {
    match call
    case Free(_, _, _) =>
    case FreeAll(owner) => FreeAllCounts(t, owner, earlier);
    case Cleanup => CleanupCounts(t, earlier, now);
    case _ => CleanupLeavesLive(t, earlier, now); AgreeingAnswer(t, CleanupExpired(t, earlier), call, now);
  }

  lemma FreeAllCounts(t: Table, owner: string, earlier: int)
    ensures var u := CleanupExpired(t, earlier);
            |u| - |ReleaseAllByOwner(u, owner)| == |t| - |ReleaseAllByOwner(t, owner)|
            <==> !MeetsExpired(t, FreeAll(owner), earlier)
  {
    var u := CleanupExpired(t, earlier);
    var more, fewer := set ck | ck in t && t[ck].owner == owner, set ck | ck in u && u[ck].owner == owner;
    RemovedKeys(t, ReleaseAllByOwner(t, owner), more);
    RemovedKeys(u, ReleaseAllByOwner(u, owner), fewer);
    SameSize(fewer, more);
    assert forall ck :: ck in more - fewer <==> ck in t && t[ck].owner == owner && Expired(t[ck], earlier);
  }

  lemma CleanupCounts(t: Table, earlier: int, now: int)
    requires earlier <= now
    ensures var u := CleanupExpired(t, earlier);
            |u| - |CleanupExpired(u, now)| == |t| - |CleanupExpired(t, now)| <==> !MeetsExpired(t, Cleanup, earlier)
  {
    var u := CleanupExpired(t, earlier);
    var more, fewer := set ck | ck in t && Expired(t[ck], now), set ck | ck in u && Expired(u[ck], now);
    RemovedKeys(t, CleanupExpired(t, now), more);
    RemovedKeys(u, CleanupExpired(u, now), fewer);
    SameSize(fewer, more);
    assert forall ck :: ck in more - fewer <==> ck in t && Expired(t[ck], earlier);
  }

  lemma CleanupLeavesLive(t: Table, earlier: int, now: int)
    requires earlier <= now
    ensures AgreeOnLive(t, CleanupExpired(t, earlier), now)
  {
  }

  lemma RemovedKeys(t: Table, t': Table, gone: set<string>)
    requires gone <= t.Keys && t'.Keys == t.Keys - gone
    ensures |t| - |t'| == |gone|
  {
    assert t.Keys == t'.Keys + gone;
    assert |t| == |t.Keys| && |t'| == |t'.Keys|;
  }

  lemma SameSize<K>(a: set<K>, b: set<K>)
    requires a <= b
    ensures |a| == |b| <==> a == b
    ensures a == b <==> b - a == {}
  {
    assert b == a + (b - a);
  }
}
