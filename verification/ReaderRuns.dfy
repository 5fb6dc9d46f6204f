/** Ordinary use, from a fresh leader on: with every key and pattern named, no set_null and nothing expired, a passive
    reader never parts from the leader. */
module ReaderRuns {
  import opened Server
  import opened Session
  import opened Channels
  import opened Contents
  import opened Readers
  import Replication

  /** Whatever happens in the sheet is ordinary; the other sheets are free. */
  ghost predicate OrdinaryEvent(w: World, ev: Event, env: Env, id: string)
    requires id in w.sheets
  {
    match ev
    case Act(c, req) => InThisSheet(w, ev, id) ==> Ordinary(w.sheets[id].cache, req, env)
    case Sweep(s) => s == id ==> forall e :: e in w.sheets[id].cache.entries ==> env.now <= e.expiresAt
    case _ => true
  }

  ghost predicate OrdinaryMove(cfg: Config, d: Conn, id: string, s: System, s': System, ev: Event, env: Env) {
    && Linked(s.world) && id in s.world.sheets
    && Passive(s.world, ev, d) && OrdinaryEvent(s.world, ev, env, id)
    && s' == System(Step(cfg, s.world, ev, env), s.reader, s.pending + Fresh(s.world, s'.world, d))
  }

  ghost predicate OrdinaryNext(cfg: Config, d: Conn, id: string, s: System, s': System) {
    Delivers(s, s') || exists ev, env :: OrdinaryMove(cfg, d, id, s, s', ev, env)
  }

  ghost predicate OrdinaryBehavior(cfg: Config, d: Conn, id: string, run: seq<System>) {
    run != [] && forall i :: 0 <= i < |run| - 1 ==> OrdinaryNext(cfg, d, id, run[i], run[i + 1])
  }

  /** A connected client without a sheet opens one that takes its password. */
  ghost predicate Joins(cfg: Config, w: World, d: Conn, id: string, password: string, s: System) {
    && d in w.clients && d in w.conns && Opens(w, d, id, password)
    && s.world == HandleOpen(cfg, w, d, id, password)
    && s.reader.phase == Connecting && s.pending == Fresh(w, s.world, d)
  }

  /** The reader converges and the empty key, whose eviction nobody would announce, is not there. */
  ghost predicate InTouch(d: Conn, id: string, s: System) {
    Converges(s.world, s.reader, s.pending, d, id) && "" !in Content(s.world.sheets[id].cache)
  }

  lemma OrdinaryStep(cfg: Config, d: Conn, id: string, s: System, s': System, ev: Event, env: Env)
    requires InTouch(d, id, s) && OrdinaryMove(cfg, d, id, s, s', ev, env)
    ensures InTouch(d, id, s')
  {
    var cache := s.world.sheets[id].cache;
    if InThisSheet(s.world, ev, id) {
      OrdinaryNeverSpoils(cfg, cache, ev.req, env);
      InSheetCaches(cfg, s.world, ev.c, id, ev.req, env);
    } else {
      AsideCache(cfg, s.world, ev, env, d, id);
      SweepShows(cache.entries, env.now);
    }
    StepConvergesExactly(cfg, s.world, ev, env, s.reader, s.pending, d, id);
  }

  lemma {:induction false} StaysInTouch(cfg: Config, d: Conn, id: string, run: seq<System>, i: nat)
    requires OrdinaryBehavior(cfg, d, id, run) && InTouch(d, id, run[0]) && i < |run|
    ensures InTouch(d, id, run[i])
  {
    if i > 0 {
      StaysInTouch(cfg, d, id, run, i - 1);
      assert OrdinaryNext(cfg, d, id, run[i - 1], run[i]);
      if !Delivers(run[i - 1], run[i]) {
        var ev, env :| OrdinaryMove(cfg, d, id, run[i - 1], run[i], ev, env);
        OrdinaryStep(cfg, d, id, run[i - 1], run[i], ev, env);
      }
    }
  }

  /**
   A fresh leader is used by anyone, with no connection in both roles and no empty key set; then d opens a sheet. In
   every state of every ordinary run from there, the reader with all that is pending has exactly the leader's contents.
   */
  lemma {:induction false} OrdinaryReaderConverges(cfg: Config, trace: Trace, d: Conn, id: string, password: string,
                                                   run: seq<System>, i: nat)
    requires SingleRoles(cfg, EMPTY, trace) && forall k :: 0 <= k < |trace| ==> Replication.NamesKeys(trace[k].0)
    requires OrdinaryBehavior(cfg, d, id, run) && Joins(cfg, Run(cfg, EMPTY, trace), d, id, password, run[0])
    requires i < |run|
    ensures id in run[i].world.sheets
    ensures ReceiveAll(run[i].reader, run[i].pending) == Reader(Live, Content(run[i].world.sheets[id].cache))
  {
    var w := Run(cfg, EMPTY, trace);
    BookkeepingAlways(cfg, trace);
    Replication.CachesOkRun(cfg, EMPTY, trace);
    assert id in w.sheets ==> Replication.CacheOk(cfg, w.sheets[id].cache);
    OpenedConverges(cfg, d, id, password, w, run[0]);
    StaysInTouch(cfg, d, id, run, i);
  }
}
