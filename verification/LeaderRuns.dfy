/** Whole runs of the handler: it goes through exactly the worlds of the value model, so its invariants hold of the
    real objects. */
module LeaderRuns {
  import Server
  import Session
  import opened LeaderHandler

  /** The rest of a run after one more event. */
  lemma {:induction false} RunFrom(cfg: Server.Config, w: Server.World, trace: Session.Trace, i: nat)
    requires Server.Linked(w) && i < |trace|
    ensures var w' := Server.Step(cfg, w, trace[i].0, trace[i].1);
            Server.Linked(w') && Session.Run(cfg, w, trace[i..]) == Session.Run(cfg, w', trace[i + 1..])
  {
    Server.StepKeepsLinked(cfg, w, trace[i].0, trace[i].1);
    assert trace[i..][0] == trace[i] && trace[i..][1..] == trace[i + 1..];
  }

  /** Serves the events one by one, each with what the clock and the jitter give. */
  method Serve(h: Handler, trace: Session.Trace)
    requires h.Valid()
    modifies h`sessions, h`clients, h`replicas, h.Owned(), h.manager, h.lockManager, h.net
    ensures h.Valid() && Server.Linked(old(h.View()))
    ensures h.View() == Session.Run(h.cfg, old(h.View()), trace)
  {
    h.ValidIsLinked();
    var i := 0;
    while i < |trace|
      invariant 0 <= i <= |trace| && h.Valid() && Server.Linked(h.View())
      invariant fresh(h.Owned() - old(h.Owned()))
      invariant Session.Run(h.cfg, h.View(), trace[i..]) == Session.Run(h.cfg, old(h.View()), trace)
    {
      RunFrom(h.cfg, h.View(), trace, i);
      h.Step(trace[i].0, trace[i].1);
      i := i + 1;
    }
  }

  /** A new leader, after any events that give no connection both roles, has its bookkeeping in order. */
  method Lead(cacheTtl: int, lockTtl: int, trace: Session.Trace) returns (h: Handler)
    ensures h.Valid() && h.View() == Session.Run(h.cfg, Server.EMPTY, trace)
    ensures Session.SingleRoles(h.cfg, Server.EMPTY, trace) ==> Session.Bookkeeping(h.View())
  {
    h := new Handler(cacheTtl, lockTtl);
    Serve(h, trace);
    if Session.SingleRoles(h.cfg, Server.EMPTY, trace) {
      Session.BookkeepingAlways(h.cfg, trace);
    }
  }
}
