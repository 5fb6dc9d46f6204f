/** Passwords over whole runs of the leader: who gets into a sheet, told from the requests alone. */
module Passwords {
  import opened Prelude
  import opened Server
  import opened Session
  import opened Channels
  import opened Contents
  import opened Readers
  import Lru

  // ----- the reference history: the password of the open that made the sheet registered under the id

  function MadeWith(w: World, w': World, ev: Event, id: string, was: Option<string>): Option<string> {
    if id !in w'.sheets then None
    else if id in w.sheets then was
    else match ev
      case Act(_, Open(_, password)) => Some(password)
      case _ => None
  }

  function MadeFrom(cfg: Config, w: World, trace: Trace, id: string, was: Option<string>): Option<string>
    requires Linked(w)
    decreases trace
  {
    if trace == [] then was
    else
      StepKeepsLinked(cfg, w, trace[0].0, trace[0].1);
      var w' := Step(cfg, w, trace[0].0, trace[0].1);
      MadeFrom(cfg, w', trace[1..], id, MadeWith(w, w', trace[0].0, id, was))
  }

  function PasswordOf(cfg: Config, trace: Trace, id: string): Option<string> {
    MadeFrom(cfg, EMPTY, trace, id, None)
  }

  /** The sheet is registered exactly if it was made with some password, and that is the one its hash verifies. */
  predicate Locked(w: World, id: string, password: Option<string>) {
    if id in w.sheets then password.Some? && w.sheets[id].hash == password else password.None?
  }

  lemma OpenKeepsHash(cfg: Config, w: World, c: Conn, sheet: string, password: string, id: string, was: Option<string>)
    requires c in w.conns && Locked(w, id, was)
    ensures var w' := HandleOpen(cfg, w, c, sheet, password);
            Locked(w', id, MadeWith(w, w', Act(c, Open(sheet, password)), id, was))
  {
  }

  lemma ActKeepsHash(cfg: Config, w: World, c: Conn, req: Request, env: Env, id: string, was: Option<string>)
    requires Linked(w) && c in w.conns && Locked(w, id, was)
    ensures var w' := HandleAction(cfg, w, c, req, env); Locked(w', id, MadeWith(w, w', Act(c, req), id, was))
  {
    match req
    case Open(sheet, password) => OpenKeepsHash(cfg, w, c, sheet, password, id, was);
    case RegisterReplica(_, _) =>
    case _ => ActionMembership(cfg, w, c, req, env);
  }

  lemma EventKeepsHash(cfg: Config, w: World, ev: Event, env: Env, id: string, was: Option<string>)
    requires Linked(w) && Locked(w, id, was)
    ensures var w' := Step(cfg, w, ev, env); Locked(w', id, MadeWith(w, w', ev, id, was))
  {
    if ev.Act? && ev.c in w.conns { ActKeepsHash(cfg, w, ev.c, ev.req, env, id, was); }
  }

  lemma {:induction false} RunKeepsHash(cfg: Config, w: World, trace: Trace, id: string, was: Option<string>)
    requires Linked(w) && Locked(w, id, was)
    ensures Locked(Run(cfg, w, trace), id, MadeFrom(cfg, w, trace, id, was))
    decreases trace
  {
    if trace != [] {
      var (ev, env) := trace[0];
      StepKeepsLinked(cfg, w, ev, env);
      EventKeepsHash(cfg, w, ev, env, id, was);
      var w' := Step(cfg, w, ev, env);
      RunKeepsHash(cfg, w', trace[1..], id, MadeWith(w, w', ev, id, was));
    }
  }

  /** As long as a sheet stays registered, its password is that of the open that made it. */
  lemma {:induction false} PasswordStays(cfg: Config, trace: Trace, id: string)
    ensures var w := Run(cfg, EMPTY, trace);
            && (id in w.sheets <==> PasswordOf(cfg, trace, id).Some?)
            && (id in w.sheets ==> w.sheets[id].hash == PasswordOf(cfg, trace, id))
  {
    RunKeepsHash(cfg, EMPTY, trace, id, None);
  }

  // ----- who gets in

  /**
   In every run of a fresh leader: a connection without a sheet that asks for one, naming it and a password, gets into
   exactly that sheet if the sheet is not there or has been made with that very password. Otherwise it is refused, and
   nothing but its channel has changed.
   */
  lemma {:induction false} SeatedExactly(cfg: Config, trace: Trace, c: Conn, id: string, password: string, env: Env)
    requires var w := Run(cfg, EMPTY, trace); c in w.conns && w.conns[c] == None
    requires id != "" && password != ""
    ensures var w := Run(cfg, EMPTY, trace);
            var w' := Step(cfg, w, Act(c, Open(id, password)), env);
            if PasswordOf(cfg, trace, id) == None || PasswordOf(cfg, trace, id) == Some(password) then
              && c in w'.conns && w'.conns[c] == Some(id) && id in w'.sheets && c in w'.sheets[id].collaborators
              && w'.sheets[id].hash == Some(password)
            else
              var no := Response(false, "", "", Null, 0, "invalid password", 0);
              w' == w.(sent := w.sent[c := Queue(w.sent, c) + [no]])
  {
    PasswordStays(cfg, trace, id);
  }

  /** The reader that asked becomes live with the sheet's contents, or fails, by the same test. */
  lemma {:induction false} ReaderJoinsExactly(cfg: Config, trace: Trace, c: Conn, id: string, password: string,
                                              env: Env, before: Data)
    requires var w := Run(cfg, EMPTY, trace); c in w.conns && w.conns[c] == None
    requires id != "" && password != ""
    ensures var w := Run(cfg, EMPTY, trace);
            var w' := Step(cfg, w, Act(c, Open(id, password)), env);
            ReceiveAll(Reader(Connecting, before), Fresh(w, w', c))
            == if PasswordOf(cfg, trace, id) == None then Reader(Live, map[])
               else if PasswordOf(cfg, trace, id) == Some(password) && id in w.sheets
                 then Reader(Live, Content(w.sheets[id].cache))
               else Reader(Failed, before)
  {
    PasswordStays(cfg, trace, id);
    var w := Run(cfg, EMPTY, trace);
    var w' := Step(cfg, w, Act(c, Open(id, password)), env);
    var rd := Reader(Connecting, before);
    if PasswordOf(cfg, trace, id) == None || PasswordOf(cfg, trace, id) == Some(password) {
      var data := if id in w.sheets then Content(w.sheets[id].cache) else map[];
      assert Lru.Dump([]) == map[];
      var ok := Response(true, id, "", Null, 0, "", 0);
      assert Fresh(w, w', c) == [ok, SheetState(data)];
      ReceiveTwo(rd, ok, SheetState(data));
    } else {
      var no := Response(false, "", "", Null, 0, "invalid password", 0);
      assert Fresh(w, w', c) == [no];
      ReceiveOne(rd, no);
    }
  }
}
