/** The two calls that range over the lock table, when they run alone: whatever the order in which the keys come up, a
    disconnect removes exactly the client's locks and a cleanup exactly the expired ones. */
module LockScans {
  import opened Prelude
  import opened LockSteps
  import opened LockExpiry

  predicate Distinct(keys: seq<string>) {
    forall i, j :: 0 <= i < j < |keys| ==> keys[i] != keys[j]
  }

  function Names(keys: seq<string>): set<string> {
    set i | 0 <= i < |keys| :: keys[i]
  }

  function Visits(p: string, keys: seq<string>): Schedule {
    if keys == [] then [] else [(p, Visit(keys[0]))] + Visits(p, keys[1..])
  }

  function Sweeps(p: string, keys: seq<string>): Schedule {
    if keys == [] then [(p, Go)] else [(p, Sweep(keys[0]))] + Sweeps(p, keys[1..])
  }

  /** The whole call: the keys in the order Range yields them, then the collected ones in the order they are deleted. */
  function Scan(p: string, call: Call, range: seq<string>, deletes: seq<string>): Schedule {
    [(p, Begin(call))] + (Visits(p, range) + ([(p, EndScan)] + Sweeps(p, deletes)))
  }

  /** The slots a disconnect of p, or a cleanup, is to empty. */
  function Targets(s: State, p: string, cleanup: bool): set<string>
    requires WellFormed(s)
  {
    set ck | ck in s.store &&
             (if cleanup then s.clock > s.objects[s.store[ck]].expiresAt else s.objects[s.store[ck]].owner == p)
  }

  lemma NamesTail(keys: seq<string>)
    requires keys != [] && Distinct(keys)
    ensures Distinct(keys[1..]) && Names(keys) == {keys[0]} + Names(keys[1..]) && keys[0] !in Names(keys[1..])
  {
    assert forall i :: 0 <= i < |keys| - 1 ==> keys[1..][i] == keys[i + 1];
    forall k | k in Names(keys) ensures k in {keys[0]} + Names(keys[1..]) {
      var i :| 0 <= i < |keys| && keys[i] == k;
      if i > 0 { assert keys[1..][i - 1] == k; }
    }
  }

  lemma ExecFirst(s: State, p: string, a: Action, rest: Schedule)
    requires WellFormed(s) && Step(s, p, a).Some?
    ensures Exec(s, [(p, a)] + rest) == Exec(Step(s, p, a).value, rest)
  {
    assert ([(p, a)] + rest)[0] == (p, a) && ([(p, a)] + rest)[1..] == rest;
  }

  /** What has been collected is what there was to collect among the keys seen. */
  predicate Collected(s: State, p: string, cleanup: bool, seen: set<string>, found: map<string, nat>)
    requires WellFormed(s)
  {
    found.Keys == Targets(s, p, cleanup) * seen
  }

  /** The same locks, wherever p is in its scan. */
  predicate SameLocks(s: State, t: State) {
    t.store == s.store && t.objects == s.objects && t.clock == s.clock
  }

  lemma {:induction false} VisitAll(s: State, p: string, cleanup: bool, seen: set<string>, found: map<string, nat>,
                                    keys: seq<string>) returns (t: State, all: map<string, nat>)
    requires WellFormed(s) && p in s.pcs && s.pcs[p] == Scanning(cleanup, seen, found)
    requires Distinct(keys) && Names(keys) <= s.store.Keys && Names(keys) !! seen
    requires Collected(s, p, cleanup, seen, found)
    ensures WellFormed(t) && Exec(s, Visits(p, keys)) == Some(t) && SameLocks(s, t)
    ensures p in t.pcs && t.pcs[p] == Scanning(cleanup, seen + Names(keys), all)
    ensures Collected(s, p, cleanup, seen + Names(keys), all)
    decreases |keys|
  {
    if keys == [] {
      assert seen + Names(keys) == seen;
      return s, found;
    }
    NamesTail(keys);
    var ck := keys[0];
    assert ck in Names(keys);
    var s1 := Step(s, p, Visit(ck)).value;
    ExecFirst(s, p, Visit(ck), Visits(p, keys[1..]));
    assert Targets(s1, p, cleanup) == Targets(s, p, cleanup);
    assert seen + {ck} + Names(keys[1..]) == seen + Names(keys);
    t, all := VisitAll(s1, p, cleanup, seen + {ck}, s1.pcs[p].found, keys[1..]);
  }

  lemma {:induction false} SweepAll(s: State, p: string, found: map<string, nat>, keys: seq<string>) returns (t: State)
    requires WellFormed(s) && p in s.pcs && s.pcs[p] == Sweeping(found)
    requires Distinct(keys) && Names(keys) == found.Keys
    ensures WellFormed(t) && Exec(s, Sweeps(p, keys)) == Some(t) && PcOf(t, p).Idle?
    ensures t.store == s.store - found.Keys && t.objects == s.objects
    decreases |keys|
  {
    if keys == [] {
      assert found == map[];
      assert s.store - found.Keys == s.store;
      t := Step(s, p, Go).value;
      ExecFirst(s, p, Go, []);
      assert [(p, Go)] + [] == [(p, Go)];
      return;
    }
    NamesTail(keys);
    var ck := keys[0];
    assert ck in Names(keys);
    var s1 := Step(s, p, Sweep(ck)).value;
    ExecFirst(s, p, Sweep(ck), Sweeps(p, keys[1..]));
    assert (found - {ck}).Keys == Names(keys[1..]);
    t := SweepAll(s1, p, found - {ck}, keys[1..]);
    assert s.store - {ck} - (found - {ck}).Keys == s.store - found.Keys;
  }

  /** Alone, and in whatever order: the targets go, and everything else stays. */
  lemma ScansExactly(s: State, p: string, cleanup: bool, range: seq<string>, deletes: seq<string>) returns (t: State)
    requires WellFormed(s) && PcOf(s, p).Idle?
    requires Distinct(range) && Names(range) == s.store.Keys
    requires Distinct(deletes) && Names(deletes) == Targets(s, p, cleanup)
    ensures WellFormed(t)
    ensures Exec(s, Scan(p, if cleanup then Cleanup else ReleaseAll, range, deletes)) == Some(t)
    ensures PcOf(t, p).Idle? && t.objects == s.objects && t.store == s.store - Targets(s, p, cleanup)
  {
    var call := if cleanup then Cleanup else ReleaseAll;
    var s1 := Step(s, p, Begin(call)).value;
    var sweeps := [(p, EndScan)] + Sweeps(p, deletes);
    ExecFirst(s, p, Begin(call), Visits(p, range) + sweeps);
    assert Targets(s1, p, cleanup) == Targets(s, p, cleanup);
    var s2, all := VisitAll(s1, p, cleanup, {}, map[], range);
    ExecMore(s1, Visits(p, range), sweeps, s2);
    assert {} + Names(range) == s.store.Keys;
    assert all.Keys == Targets(s, p, cleanup);
    t := EndAndSweep(s2, p, cleanup, s.store.Keys, all, deletes);
  }

  lemma EndAndSweep(s: State, p: string, cleanup: bool, seen: set<string>, found: map<string, nat>,
                    deletes: seq<string>) returns (t: State)
    requires WellFormed(s) && p in s.pcs && s.pcs[p] == Scanning(cleanup, seen, found)
    requires Distinct(deletes) && Names(deletes) == found.Keys
    ensures WellFormed(t) && Exec(s, [(p, EndScan)] + Sweeps(p, deletes)) == Some(t) && PcOf(t, p).Idle?
    ensures t.store == s.store - found.Keys && t.objects == s.objects
  {
    ExecFirst(s, p, EndScan, Sweeps(p, deletes));
    t := SweepAll(Step(s, p, EndScan).value, p, found, deletes);
  }
}
