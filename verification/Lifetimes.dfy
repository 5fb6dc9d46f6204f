/**
 The end of a sheet under concurrency (ws/handler.go, sheet/manager.go): one sheet id, any number of connections that
 open it and leave, interleaved at the single operations on the registry and on a sheet's collaborators.
 */
module Lifetimes {
  import opened Prelude

  type Conn = string

  /** Where a connection is. A sheet is named by its position in `members`. */
  datatype Pc =
    | Outside
    | Opening                // has found no sheet, before LoadOrStore
    | Joining(sheet: nat)    // has been given a sheet, before AddCollaborator
    | Inside(sheet: nat)
    | Deleting               // was the last to leave its sheet, before DeleteSheet

  datatype Action = Load | LoadOrStore | AddCollaborator | RemoveCollaborator | DeleteSheet

  /** The registered sheet, the collaborators of every sheet ever made, and the connections. */
  datatype State = State(slot: Option<nat>, members: seq<set<Conn>>, pcs: map<Conn, Pc>)

  const START := State(None, [], map[])

  function PcOf(s: State, c: Conn): Pc {
    if c in s.pcs then s.pcs[c] else Outside
  }

  function At(s: State, c: Conn, pc: Pc): State {
    s.(pcs := s.pcs[c := pc])
  }

  predicate WellFormed(s: State) {
    && (s.slot.Some? ==> s.slot.value < |s.members|)
    && (forall c :: c in s.pcs && (s.pcs[c].Joining? || s.pcs[c].Inside?) ==> s.pcs[c].sheet < |s.members|)
  }

  /** One step of connection c; None when it is not its next one. */
  function Step(s: State, c: Conn, a: Action): (r: Option<State>)
    requires WellFormed(s)
    ensures r.Some? ==> WellFormed(r.value)
  {
    match PcOf(s, c)
    case Outside =>
      if !a.Load? then None
      else if s.slot.Some? then Some(At(s, c, Joining(s.slot.value)))
      else Some(At(s, c, Opening))
    case Opening =>
      if !a.LoadOrStore? then None
      else if s.slot.Some? then Some(At(s, c, Joining(s.slot.value)))
      else Some(At(s.(slot := Some(|s.members|), members := s.members + [{}]), c, Joining(|s.members|)))
    case Joining(x) =>
      if !a.AddCollaborator? then None
      else Some(At(s.(members := s.members[x := s.members[x] + {c}]), c, Inside(x)))
    case Inside(x) =>
      if !a.RemoveCollaborator? then None
      else
        var rest := s.members[x] - {c};
        Some(At(s.(members := s.members[x := rest]), c, if rest == {} then Deleting else Outside))
    case Deleting =>
      if !a.DeleteSheet? then None else Some(At(s.(slot := None), c, Outside))
  }

  /** The connection works with this sheet, or has been given it to do so. */
  predicate Uses(s: State, c: Conn, x: nat) {
    c in s.pcs && (s.pcs[c] == Joining(x) || s.pcs[c] == Inside(x))
  }

  /** Everybody uses the registered sheet, and the collaborators of a sheet are those inside it. */
  ghost predicate Together(s: State) {
    && WellFormed(s)
    && (forall c: Conn, x: nat :: Uses(s, c, x) ==> s.slot == Some(x))
    && (forall x, c :: 0 <= x < |s.members| ==> (c in s.members[x] <==> c in s.pcs && s.pcs[c] == Inside(x)))
  }

  /** The sheet is deleted while a connection uses it. */
  ghost predicate Orphans(s: State, c: Conn, a: Action) {
    a.DeleteSheet? && PcOf(s, c).Deleting? && exists d: Conn, x: nat :: Uses(s, d, x)
  }

  lemma StepKeepsMembers(s: State, c: Conn, a: Action)
    requires Together(s) && Step(s, c, a).Some?
    ensures var s' := Step(s, c, a).value;
            forall x, d :: 0 <= x < |s'.members| ==> (d in s'.members[x] <==> d in s'.pcs && s'.pcs[d] == Inside(x))
  {
  }

  lemma UsesAfter(s: State, c: Conn, a: Action, d: Conn, x: nat)
    requires Together(s) && Step(s, c, a).Some? && Uses(Step(s, c, a).value, d, x) && !Orphans(s, c, a)
    ensures Step(s, c, a).value.slot == Some(x)
  {
    if d != c { assert Uses(s, d, x); }
    if d == c && a.AddCollaborator? { assert Uses(s, c, x); }
  }

  /** A step keeps everybody together exactly when it does not delete a sheet in use. */
  lemma TogetherExactly(s: State, c: Conn, a: Action)
    requires Together(s) && Step(s, c, a).Some?
    ensures Together(Step(s, c, a).value) <==> !Orphans(s, c, a)
  {
    var s' := Step(s, c, a).value;
    if Orphans(s, c, a) {
      var d: Conn, x: nat :| Uses(s, d, x);
      assert Uses(s', d, x) && s'.slot == None;
    } else {
      StepKeepsMembers(s, c, a);
      forall d: Conn, x: nat | Uses(s', d, x) ensures s'.slot == Some(x) { UsesAfter(s, c, a, d, x); }
    }
  }

  type Schedule = seq<(Conn, Action)>

  /** Every step is enabled, and none deletes a sheet in use. */
  ghost predicate Reaches(s: State, schedule: Schedule, end: State)
    requires WellFormed(s)
    decreases schedule
  {
    if schedule == [] then end == s
    else
      var (c, a) := schedule[0];
      !Orphans(s, c, a) && Step(s, c, a).Some? && Reaches(Step(s, c, a).value, schedule[1..], end)
  }

  lemma {:induction false} RunTogether(s: State, schedule: Schedule, end: State)
    requires Together(s) && Reaches(s, schedule, end)
    ensures Together(end)
    decreases schedule
  {
    if schedule != [] {
      TogetherExactly(s, schedule[0].0, schedule[0].1);
      RunTogether(Step(s, schedule[0].0, schedule[0].1).value, schedule[1..], end);
    }
  }

  /** In every such interleaving two connections that are inside are inside the same, registered sheet. */
  lemma {:induction false} OneSheet(schedule: Schedule, end: State, c: Conn, d: Conn)
    requires Reaches(START, schedule, end) && PcOf(end, c).Inside? && PcOf(end, d).Inside?
    ensures PcOf(end, c) == PcOf(end, d) && end.slot == Some(PcOf(end, c).sheet)
  {
    RunTogether(START, schedule, end);
    assert Uses(end, c, PcOf(end, c).sheet) && Uses(end, d, PcOf(end, d).sheet);
  }

  /** Nobody is in the middle of opening or leaving. */
  ghost predicate Settled(s: State) {
    forall c :: c in s.pcs ==> s.pcs[c].Outside? || s.pcs[c].Inside?
  }

  /** A connection that leaves without anybody coming in between deletes no sheet in use. */
  lemma LeavesAlone(s: State, c: Conn)
    requires Together(s) && Settled(s) && PcOf(s, c).Inside?
    ensures var s1 := Step(s, c, RemoveCollaborator).value;
            && Together(s1)
            && (PcOf(s1, c).Outside? ==> Settled(s1))
            && (PcOf(s1, c).Deleting? ==> var s2 := Step(s1, c, DeleteSheet).value; Together(s2) && Settled(s2))
  {
    var s1 := Step(s, c, RemoveCollaborator).value;
    TogetherExactly(s, c, RemoveCollaborator);
    if PcOf(s1, c).Deleting? {
      assert Uses(s, c, PcOf(s, c).sheet);
      forall d: Conn, x: nat ensures !Uses(s1, d, x) {
        assert Uses(s1, d, x) ==> d != c && Uses(s, d, x);
      }
      TogetherExactly(s1, c, DeleteSheet);
    }
  }

  // ----- what deleting a sheet in use does

  /** Runs a schedule whatever it deletes. */
  function Exec(s: State, schedule: Schedule): (r: Option<State>)
    requires WellFormed(s)
    ensures r.Some? ==> WellFormed(r.value)
    decreases schedule
  {
    if schedule == [] then Some(s)
    else
      match Step(s, schedule[0].0, schedule[0].1)
      case None => None
      case Some(next) => Exec(next, schedule[1..])
  }

  /** Two connections are inside a sheet of the id and neither is among the other's collaborators. */
  predicate Split(s: State, c: Conn, d: Conn)
    requires WellFormed(s)
  {
    && PcOf(s, c).Inside? && PcOf(s, d).Inside?
    && c !in s.members[PcOf(s, d).sheet] && d !in s.members[PcOf(s, c).sheet]
  }

  ghost predicate MaySplit(s: State, c: Conn, d: Conn)
    requires WellFormed(s)
  {
    exists schedule: Schedule :: Exec(s, schedule).Some? && Split(Exec(s, schedule).value, c, d)
  }

  lemma {:induction false} ExecMore(s: State, first: Schedule, more: Schedule)
    requires WellFormed(s) && Exec(s, first).Some?
    ensures Exec(s, first + more) == Exec(Exec(s, first).value, more)
    decreases first
  {
    if first == [] {
      assert first + more == more;
    } else {
      assert (first + more)[1..] == first[1..] + more;
      ExecMore(Step(s, first[0].0, first[0].1).value, first[1..], more);
    }
  }

  lemma SplitLater(s: State, first: Schedule, c: Conn, d: Conn)
    requires WellFormed(s) && Exec(s, first).Some? && MaySplit(Exec(s, first).value, c, d)
    ensures MaySplit(s, c, d)
  {
    var more: Schedule :| Exec(Exec(s, first).value, more).Some? && Split(Exec(Exec(s, first).value, more).value, c, d);
    ExecMore(s, first, more);
  }

  lemma ExecOne(s: State, c: Conn, a: Action)
    requires WellFormed(s) && Step(s, c, a).Some?
    ensures Exec(s, [(c, a)]) == Step(s, c, a)
  {
    assert [(c, a)][1..] == [];
  }

  lemma ExecThree(s: State, c: Conn, a: Action, b: Action, d: Action)
    requires WellFormed(s) && Step(s, c, a).Some? && Step(Step(s, c, a).value, c, b).Some?
    requires Step(Step(Step(s, c, a).value, c, b).value, c, d).Some?
    ensures Exec(s, [(c, a), (c, b), (c, d)]) == Step(Step(Step(s, c, a).value, c, b).value, c, d)
  {
    var q: Schedule := [(c, a), (c, b), (c, d)];
    var s1 := Step(s, c, a).value;
    assert Exec(s, q) == Exec(s1, q[1..]);
    assert q[1..][1..] == [(c, d)] && Exec(s1, q[1..]) == Exec(Step(s1, c, b).value, [(c, d)]);
    ExecOne(Step(s1, c, b).value, c, d);
  }

  /** A newcomer makes a sheet of its own where none is registered. */
  lemma NewcomerSplits(s: State, d: Conn, e: Conn, x: nat)
    requires WellFormed(s) && s.slot == None && PcOf(s, d) == Inside(x) && PcOf(s, e).Outside? && e !in s.members[x]
    ensures MaySplit(s, d, e)
  {
    var schedule: Schedule := [(e, Load), (e, LoadOrStore), (e, AddCollaborator)];
    ExecThree(s, e, Load, LoadOrStore, AddCollaborator);
    assert Split(Exec(s, schedule).value, d, e);
  }

  /** Whenever a sheet in use is deleted, its user and any newcomer can end up in different sheets of the same id. */
  lemma OrphanSplits(s: State, c: Conn, d: Conn, e: Conn)
    requires Together(s) && PcOf(s, c).Deleting? && (PcOf(s, d).Joining? || PcOf(s, d).Inside?)
    requires PcOf(s, e).Outside?
    ensures MaySplit(s, d, e)
  {
    var s1 := Step(s, c, DeleteSheet).value;
    ExecOne(s, c, DeleteSheet);
    var x := PcOf(s, d).sheet;
    if PcOf(s, d).Joining? {
      ExecOne(s1, d, AddCollaborator);
      NewcomerSplits(Step(s1, d, AddCollaborator).value, d, e, x);
      SplitLater(s1, [(d, AddCollaborator)], d, e);
    } else {
      NewcomerSplits(s1, d, e, x);
    }
    SplitLater(s, [(c, DeleteSheet)], d, e);
  }

  /** From nothing: one connection leaves as the last, another opens the sheet before it is deleted. */
  lemma LeavingSplits()
    ensures MaySplit(START, "b", "c")
  {
    var s1 := Exec(START, [("a", Load), ("a", LoadOrStore), ("a", AddCollaborator)]).value;
    ExecThree(START, "a", Load, LoadOrStore, AddCollaborator);
    var s2 := Step(s1, "a", RemoveCollaborator).value;
    ExecOne(s1, "a", RemoveCollaborator);
    var s3 := Step(s2, "b", Load).value;
    ExecOne(s2, "b", Load);
    OrphanSplits(s3, "a", "b", "c");
    SplitLater(s2, [("b", Load)], "b", "c");
    SplitLater(s1, [("a", RemoveCollaborator)], "b", "c");
    SplitLater(START, [("a", Load), ("a", LoadOrStore), ("a", AddCollaborator)], "b", "c");
  }
}
