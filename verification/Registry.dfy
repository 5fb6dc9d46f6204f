/**
 Racing openers (sheet/manager.go): any number of GetOrCreateSheet calls on one id, interleaved at their
 Load, NewSheet, LoadOrStore and ValidatePassword steps, while nobody deletes or adds that sheet.
 */
module Registry {
  import opened Prelude

  /** Where one call is. A sheet is named by its position in `made`. */
  datatype Call =
    | Start(password: string)
    | Creating(password: string)
    | Storing(password: string, sheet: nat)
    | Checking(password: string, sheet: nat)
    | Opened(password: string, sheet: nat)
    | Refused(password: string)
    | Failed(password: string)    // password empty, or NewSheet could not hash it

  /** The slot of the id in the map, the password behind every sheet made so far, and the calls. */
  datatype State = State(slot: Option<nat>, made: seq<string>, calls: map<string, Call>)

  function At(s: State, a: string, call: Call): State {
    s.(calls := s.calls[a := call])
  }

  /** One atomic step of call `a`. */
  ghost predicate Advances(s: State, s': State, a: string) {
    a in s.calls &&
    match s.calls[a]
    case Start(p) =>
      if p == "" then s' == At(s, a, Failed(p))
      else if s.slot.Some? then s' == At(s, a, Checking(p, s.slot.value))
      else s' == At(s, a, Creating(p))
    case Creating(p) => s' == At(s.(made := s.made + [p]), a, Storing(p, |s.made|)) || s' == At(s, a, Failed(p))
    case Storing(p, sheet) =>
      if s.slot.Some? then s' == At(s, a, Checking(p, s.slot.value))
      else s' == At(s.(slot := Some(sheet)), a, Opened(p, sheet))
    case Checking(p, sheet) =>
      && sheet < |s.made|
      && s' == At(s, a, if s.made[sheet] == p then Opened(p, sheet) else Refused(p))
    case _ => false
  }

  ghost predicate Arrives(s: State, s': State, a: string) {
    a !in s.calls && exists p :: s' == At(s, a, Start(p))
  }

  ghost predicate Next(s: State, s': State) {
    exists a :: Advances(s, s', a) || Arrives(s, s', a)
  }

  ghost predicate Behavior(run: seq<State>) {
    run != [] && Fresh(run[0]) && forall i :: 0 <= i < |run| - 1 ==> Next(run[i], run[i + 1])
  }

  /** No call has begun; the sheet may or may not exist already. */
  ghost predicate Fresh(s: State) {
    && (forall a :: a in s.calls ==> s.calls[a].Start?)
    && (s.slot.Some? ==> s.slot.value < |s.made|)
  }

  predicate Finished(call: Call) {
    call.Opened? || call.Refused? || call.Failed?
  }

  // ----- the invariant

  ghost predicate CallOk(s: State, call: Call) {
    && (call.Start? || call.Failed? || call.password != "")
    && match call
       case Storing(p, sheet) => sheet < |s.made| && s.made[sheet] == p
       case Checking(_, sheet) => s.slot == Some(sheet)
       case Opened(p, sheet) => s.slot == Some(sheet) && sheet < |s.made| && s.made[sheet] == p
       case Refused(p) => s.slot.Some? && s.slot.value < |s.made| && s.made[s.slot.value] != p
       case _ => true
  }

  ghost predicate Agreed(s: State) {
    && (s.slot.Some? ==> s.slot.value < |s.made|)
    && (forall a :: a in s.calls ==> CallOk(s, s.calls[a]))
  }

  /** What no step undoes: the installed sheet, the passwords, the calls' passwords and their results. */
  ghost predicate Keeps(s: State, s': State) {
    && (s.slot.Some? ==> s'.slot == s.slot)
    && |s.made| <= |s'.made| && s'.made[..|s.made|] == s.made
    && s.calls.Keys <= s'.calls.Keys
    && (forall a :: a in s.calls ==>
          s'.calls[a].password == s.calls[a].password
          && (Finished(s.calls[a]) ==> s'.calls[a] == s.calls[a])
          && (s.slot.Some? && s.calls[a].Start? ==> LateComer(s'.calls[a])))
  }

  /** A call that began after the sheet was there never makes one of its own. */
  predicate LateComer(call: Call) {
    !call.Creating? && !call.Storing? && (call.Failed? ==> call.password == "")
  }

  lemma AdvanceAgrees(s: State, s': State, a: string)
    requires Agreed(s) && Advances(s, s', a)
    ensures Agreed(s')
  {
  }

  lemma AdvanceKeeps(s: State, s': State, a: string)
    requires Advances(s, s', a)
    ensures Keeps(s, s')
  {
  }

  lemma NextKeeps(s: State, s': State)
    requires Agreed(s) && Next(s, s')
    ensures Agreed(s') && Keeps(s, s')
  {
    var a :| Advances(s, s', a) || Arrives(s, s', a);
    if Advances(s, s', a) {
      AdvanceAgrees(s, s', a);
      AdvanceKeeps(s, s', a);
    } else {
      forall b | b in s'.calls ensures CallOk(s', s'.calls[b]) {
        if b != a { assert b in s.calls && CallOk(s, s.calls[b]); }
      }
    }
  }

  lemma StillLate(s: State, s': State, a: string)
    requires Agreed(s) && Next(s, s') && a in s.calls && LateComer(s.calls[a]) && s.slot.Some?
    ensures a in s'.calls && LateComer(s'.calls[a]) && s'.slot == s.slot
  {
  }

  lemma {:induction false} RunAgrees(run: seq<State>, i: nat)
    requires Behavior(run) && i < |run|
    ensures Agreed(run[i])
  {
    if i > 0 {
      RunAgrees(run, i - 1);
      NextKeeps(run[i - 1], run[i]);
    }
  }

  /** What has been kept so far is kept by one more step. */
  lemma KeepsNext(s: State, t: State, u: State)
    requires Keeps(s, t) && Agreed(t) && Next(t, u)
    ensures Keeps(s, u)
  {
    NextKeeps(t, u);
    assert u.made[..|s.made|] == u.made[..|t.made|][..|s.made|];
    forall a | a in s.calls
      ensures u.calls[a].password == s.calls[a].password && (Finished(s.calls[a]) ==> u.calls[a] == s.calls[a])
      ensures s.slot.Some? && s.calls[a].Start? ==> LateComer(u.calls[a])
    {
      assert a in t.calls;
      if s.slot.Some? && s.calls[a].Start? { StillLate(t, u, a); }
    }
  }

  lemma {:induction false} RunKeeps(run: seq<State>, i: nat, j: nat)
    requires Behavior(run) && i <= j < |run|
    ensures Keeps(run[i], run[j])
    decreases j
  {
    if i < j {
      RunKeeps(run, i, j - 1);
      RunAgrees(run, j - 1);
      KeepsNext(run[i], run[j - 1], run[j]);
    }
  }

  // ----- what the callers see

  /** Whoever opens the sheet, at whatever time, gets the same one, and it stays the registered one for good. */
  lemma {:induction false} RacingOpenersAgree(run: seq<State>, i: nat, j: nat, a: string, b: string)
    requires Behavior(run) && i <= j < |run|
    requires a in run[i].calls && run[i].calls[a].Opened? && b in run[j].calls && run[j].calls[b].Opened?
    ensures run[i].calls[a].sheet == run[j].calls[b].sheet
    ensures run[i].calls[a].password == run[j].calls[b].password
    ensures run[i].slot == run[j].slot == Some(run[j].calls[b].sheet)
  {
    RunAgrees(run, i);
    RunAgrees(run, j);
    RunKeeps(run, i, j);
    assert CallOk(run[i], run[i].calls[a]) && CallOk(run[j], run[j].calls[b]);
  }

  /** At most one sheet is ever installed, however many the losers of the race made. */
  lemma {:induction false} InstalledOnce(run: seq<State>, i: nat, j: nat)
    requires Behavior(run) && i <= j < |run| && run[i].slot.Some?
    ensures run[j].slot == run[i].slot
  {
    RunKeeps(run, i, j);
  }

  /** A finished call has the sheet exactly when its password is the installed sheet's. */
  lemma {:induction false} OpenedExactlyByPassword(run: seq<State>, i: nat, a: string)
    requires Behavior(run) && i < |run| && a in run[i].calls && Finished(run[i].calls[a]) && !run[i].calls[a].Failed?
    ensures run[i].slot.Some? && run[i].slot.value < |run[i].made|
    ensures run[i].calls[a].Opened? <==> run[i].calls[a].password == run[i].made[run[i].slot.value]
  {
    RunAgrees(run, i);
    assert CallOk(run[i], run[i].calls[a]);
  }

  /** A call that begins once the sheet is there succeeds exactly when its password matches that sheet. */
  lemma {:induction false} LaterCallersByPassword(run: seq<State>, i: nat, j: nat, a: string)
    requires Behavior(run) && i <= j < |run| && run[i].slot.Some?
    requires a in run[i].calls && run[i].calls[a].Start? && a in run[j].calls && Finished(run[j].calls[a])
    ensures run[i].slot.value < |run[i].made|
    ensures run[j].calls[a].Opened? <==>
            run[i].calls[a].password != "" && run[i].calls[a].password == run[i].made[run[i].slot.value]
    ensures run[j].calls[a].Opened? ==> run[j].calls[a].sheet == run[i].slot.value
  {
    RunAgrees(run, i);
    RunAgrees(run, j);
    RunKeeps(run, i, j);
    assert CallOk(run[j], run[j].calls[a]);
    assert run[j].made[run[i].slot.value] == run[j].made[..|run[i].made|][run[i].slot.value];
  }
}
