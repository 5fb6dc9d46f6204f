/**
 Locks over whole runs of the leader: who holds a slot and until when, told from the requests alone, and what
 lock and unlock are answered.
 */
module Holders {
  import opened Prelude
  import opened Server
  import opened Session
  import opened Channels
  import Leases

  /** Since when and until when; a refresh by the owner keeps the first and moves the second. */
  datatype Hold = Hold(owner: Conn, since: int, until: int)

  // ----- the reference history of one slot

  /** The connection names the slot when it uses the key in the sheet it has open. */
  predicate Names(w: World, c: Conn, key: string, slot: string) {
    c in w.conns && w.conns[c].Some? && w.conns[c].value + ":" + key == slot
  }

  function HoldAfter(cfg: Config, w: World, ev: Event, env: Env, slot: string, was: Option<Hold>): Option<Hold> {
    match ev
    case Act(c, Lock(key, seconds)) =>
      if !Names(w, c, key, slot) then was
      else if was.Some? && env.now <= was.value.until && was.value.owner != c then was
      else Some(Hold(c, if was.Some? && env.now <= was.value.until then was.value.since else env.now,
                     env.now + if seconds > 0 then seconds else cfg.lockTtl))
    case Act(c, Unlock(key)) => if Names(w, c, key, slot) && was.Some? && was.value.owner == c then None else was
    case Disconnect(c) =>
      if c in w.conns && c !in w.replicas && was.Some? && was.value.owner == c then None else was
    case CleanLocks => if was.Some? && env.now > was.value.until then None else was
    case _ => was
  }

  function HoldFrom(cfg: Config, w: World, trace: Trace, slot: string, was: Option<Hold>): Option<Hold>
    requires Linked(w)
    decreases trace
  {
    if trace == [] then was
    else
      StepKeepsLinked(cfg, w, trace[0].0, trace[0].1);
      HoldFrom(cfg, Step(cfg, w, trace[0].0, trace[0].1), trace[1..], slot,
               HoldAfter(cfg, w, trace[0].0, trace[0].1, slot, was))
  }

  /** Who was last granted the slot of a fresh leader and has not lost it, and until when. */
  function HolderOf(cfg: Config, trace: Trace, slot: string): Option<Hold> {
    HoldFrom(cfg, EMPTY, trace, slot, None)
  }

  // ----- the table agrees

  function InSlot(t: Leases.Table, slot: string): Option<Hold> {
    if slot in t then Some(Hold(t[slot].owner, t[slot].acquiredAt, t[slot].expiresAt)) else None
  }

  lemma LockAgrees(cfg: Config, w: World, c: Conn, id: string, key: string, seconds: int, env: Env, slot: string)
    requires Linked(w) && c in w.conns && w.conns[c] == Some(id)
    ensures InSlot(HandleLock(cfg, w, c, id, key, seconds, env).locks, slot)
            == HoldAfter(cfg, w, Act(c, Lock(key, seconds)), env, slot, InSlot(w.locks, slot))
  {
    assert Leases.CompositeKey(id, key) == id + ":" + key;
  }

  lemma UnlockAgrees(cfg: Config, w: World, c: Conn, id: string, key: string, env: Env, slot: string)
    requires Linked(w) && c in w.conns && w.conns[c] == Some(id)
    ensures InSlot(HandleUnlock(w, c, id, key).locks, slot)
            == HoldAfter(cfg, w, Act(c, Unlock(key)), env, slot, InSlot(w.locks, slot))
  {
    assert Leases.CompositeKey(id, key) == id + ":" + key;
  }

  lemma InSheetAgrees(cfg: Config, w: World, c: Conn, id: string, req: Request, env: Env, slot: string)
    requires Linked(w) && c in w.conns && w.conns[c] == Some(id)
    ensures InSlot(HandleInSheet(cfg, w, c, id, req, env).locks, slot)
            == HoldAfter(cfg, w, Act(c, req), env, slot, InSlot(w.locks, slot))
  {
    match req
    case Lock(key, seconds) => LockAgrees(cfg, w, c, id, key, seconds, env, slot);
    case Unlock(key) => UnlockAgrees(cfg, w, c, id, key, env, slot);
    case _ => InSheetFrame(cfg, w, c, id, req, env);
  }

  lemma ActAgrees(cfg: Config, w: World, c: Conn, req: Request, env: Env, slot: string)
    requires Linked(w) && c in w.conns
    ensures InSlot(HandleAction(cfg, w, c, req, env).locks, slot)
            == HoldAfter(cfg, w, Act(c, req), env, slot, InSlot(w.locks, slot))
  {
    match req
    case Open(_, _) =>
    case RegisterReplica(_, _) =>
    case _ => if w.conns[c].Some? { InSheetAgrees(cfg, w, c, w.conns[c].value, req, env, slot); }
  }

  lemma EventAgrees(cfg: Config, w: World, ev: Event, env: Env, slot: string)
    requires Linked(w)
    ensures InSlot(Step(cfg, w, ev, env).locks, slot) == HoldAfter(cfg, w, ev, env, slot, InSlot(w.locks, slot))
  {
    match ev
    case Act(c, req) => if c in w.conns { ActAgrees(cfg, w, c, req, env, slot); }
    case _ =>
  }

  lemma {:induction false} RunAgrees(cfg: Config, w: World, trace: Trace, slot: string)
    requires Linked(w)
    ensures InSlot(Run(cfg, w, trace).locks, slot) == HoldFrom(cfg, w, trace, slot, InSlot(w.locks, slot))
    decreases trace
  {
    if trace != [] {
      var (ev, env) := trace[0];
      StepKeepsLinked(cfg, w, ev, env);
      EventAgrees(cfg, w, ev, env, slot);
      RunAgrees(cfg, Step(cfg, w, ev, env), trace[1..], slot);
    }
  }

  /** In every run of a fresh leader the lock table holds in every slot exactly what the history says. */
  lemma {:induction false} HeldExactly(cfg: Config, trace: Trace, slot: string)
    ensures InSlot(Run(cfg, EMPTY, trace).locks, slot) == HolderOf(cfg, trace, slot)
  {
    RunAgrees(cfg, EMPTY, trace, slot);
  }

  // ----- replies

  /** Refused while another connection holds the slot; the key is named if it still does when the refusal is written. */
  function AnswerToLock(held: Option<Hold>, c: Conn, key: string, env: Env): Message {
    if held.Some? && held.value.owner != c && env.now <= held.value.until then
      Response(false, "", if env.later <= held.value.until then key else "", Null, 0, "lock held by another client", 0)
    else Response(true, "", key, Null, 0, "", 0)
  }

  /** Only the owner of the lock in the slot, expired or not, can release it. */
  function AnswerToUnlock(held: Option<Hold>, c: Conn, key: string): Message {
    if held.None? then Response(false, "", "", Null, 0, "lock not found", 0)
    else if held.value.owner != c then Response(false, "", "", Null, 0, "not lock owner", 0)
    else Response(true, "", key, Null, 0, "", 0)
  }

  lemma LockReply(cfg: Config, w: World, c: Conn, id: string, key: string, seconds: int, env: Env)
    requires Linked(w) && c in w.conns && w.conns[c] == Some(id) && c !in w.replicas
    ensures Queue(Step(cfg, w, Act(c, Lock(key, seconds)), env).sent, c)
            == Queue(w.sent, c) + [AnswerToLock(InSlot(w.locks, id + ":" + key), c, key, env)]
  {
    assert Leases.CompositeKey(id, key) == id + ":" + key;
  }

  lemma UnlockReply(cfg: Config, w: World, c: Conn, id: string, key: string, env: Env)
    requires Linked(w) && c in w.conns && w.conns[c] == Some(id) && c !in w.replicas
    ensures Queue(Step(cfg, w, Act(c, Unlock(key)), env).sent, c)
            == Queue(w.sent, c) + [AnswerToUnlock(InSlot(w.locks, id + ":" + key), c, key)]
  {
    assert Leases.CompositeKey(id, key) == id + ":" + key;
  }

  /** A replica hears of every grant, with its end, and of no refusal. */
  lemma LockHeard(cfg: Config, w: World, c: Conn, id: string, key: string, seconds: int, env: Env, d: Conn)
    requires Linked(w) && c in w.conns && w.conns[c] == Some(id) && d in w.replicas && d != c
    ensures var held := InSlot(w.locks, id + ":" + key);
            Queue(Step(cfg, w, Act(c, Lock(key, seconds)), env).sent, d)
            == Queue(w.sent, d)
               + (if held.Some? && held.value.owner != c && env.now <= held.value.until then []
                  else [ReplicateLock(id, key, c, env.now + if seconds > 0 then seconds else cfg.lockTtl)])
  {
    assert Leases.CompositeKey(id, key) == id + ":" + key;
    AppendedExactly(cfg, w, Act(c, Lock(key, seconds)), env, d);
  }

  /** And of every release. */
  lemma UnlockHeard(cfg: Config, w: World, c: Conn, id: string, key: string, env: Env, d: Conn)
    requires Linked(w) && c in w.conns && w.conns[c] == Some(id) && d in w.replicas && d != c
    ensures var held := InSlot(w.locks, id + ":" + key);
            Queue(Step(cfg, w, Act(c, Unlock(key)), env).sent, d)
            == Queue(w.sent, d) + (if held.Some? && held.value.owner == c then [ReplicateUnlock(id, key)] else [])
  {
    assert Leases.CompositeKey(id, key) == id + ":" + key;
  }

  /** Over a whole run: lock and unlock are answered as the history of the slot says. */
  lemma {:induction false} AnsweredExactly(cfg: Config, trace: Trace, c: Conn, id: string, key: string, seconds: int,
                                           env: Env)
    requires var w := Run(cfg, EMPTY, trace); c in w.conns && w.conns[c] == Some(id) && c !in w.replicas
    ensures var w, held := Run(cfg, EMPTY, trace), HolderOf(cfg, trace, id + ":" + key);
            && Queue(Step(cfg, w, Act(c, Lock(key, seconds)), env).sent, c)
               == Queue(w.sent, c) + [AnswerToLock(held, c, key, env)]
            && Queue(Step(cfg, w, Act(c, Unlock(key)), env).sent, c)
               == Queue(w.sent, c) + [AnswerToUnlock(held, c, key)]
  {
    HeldExactly(cfg, trace, id + ":" + key);
    LockReply(cfg, Run(cfg, EMPTY, trace), c, id, key, seconds, env);
    UnlockReply(cfg, Run(cfg, EMPTY, trace), c, id, key, env);
  }
}
