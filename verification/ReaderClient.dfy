/** reader/reader.go in place: the local map, the join, the receive loop and the four writes that are forwarded. */
module ReaderClient {
  import opened Prelude
  import Lru
  import Server
  import Contents
  import Readers
  import Writers

  datatype Error = NotConnected | AuthFailed | Closed | ReadFailed | WriteFailed

  class Reader {
    const sheet: string
    const password: string
    var cache: Contents.Data
    var connected: bool
    var closed: bool
    var sent: seq<Server.Request>  // what was written to the connection

    constructor (sheet: string, password: string)
      ensures this.sheet == sheet && this.password == password
      ensures cache == map[] && !connected && !closed && sent == []
    {
      this.sheet, this.password := sheet, password;
      cache, connected, closed, sent := map[], false, false, [];
    }

    /** The reader once it has joined. */
    ghost function View(): Readers.Reader
      reads this
    {
      Readers.Reader(Readers.Live, cache)
    }

    /** Why a write fails, if it does: a closed reader is refused first, then one that is not connected. */
    function Outcome(writes: bool): (error: Option<Error>)
      reads this
      ensures error == Some(Closed) <==> closed
      ensures error == Some(NotConnected) <==> !closed && !connected
      ensures error == Some(WriteFailed) <==> !closed && connected && !writes
      ensures error == None <==> !closed && connected && writes
    {
      if closed then Some(Closed)
      else if !connected then Some(NotConnected)
      else if !writes then Some(WriteFailed)
      else None
    }

    /** A local read. */
    method Get(key: string) returns (found: Option<Json>)
      ensures found == if key in cache then Some(cache[key]) else None
    {
      if key in cache {
        return Some(cache[key]);
      }
      return None;
    }

    // ----- writes: applied to the local map at once, then sent
    // `writes` says whether the connection takes the message.

    method Set(key: string, value: Json, writes: bool) returns (error: Option<Error>)
      modifies this`cache, this`sent
      ensures error == old(Outcome(writes))
      ensures if old(closed || !connected) then cache == old(cache)
              else cache == old(cache)[key := value]
                   && View() == Writers.Issue(old(View()), Server.Set(key, value, false))
      ensures sent == old(sent) + if error.None? then [Server.Set(key, value, false)] else []
    {
      if closed {
        return Some(Closed);
      }
      if !connected {
        return Some(NotConnected);
      }
      cache := cache[key := value];
      error := Send(Server.Set(key, value, false), writes);
    }

    method Delete(key: string, writes: bool) returns (error: Option<Error>)
      modifies this`cache, this`sent
      ensures error == old(Outcome(writes))
      ensures if old(closed || !connected) then cache == old(cache)
              else cache == old(cache) - {key} && View() == Writers.Issue(old(View()), Server.Delete(key))
      ensures sent == old(sent) + if error.None? then [Server.Delete(key)] else []
    {
      if closed {
        return Some(Closed);
      }
      if !connected {
        return Some(NotConnected);
      }
      cache := cache - {key};
      error := Send(Server.Delete(key), writes);
    }

    method DeletePrefix(prefix: string, writes: bool) returns (error: Option<Error>)
      modifies this`cache, this`sent
      ensures error == old(Outcome(writes))
      ensures if old(closed || !connected) then cache == old(cache)
              else View() == Writers.Issue(old(View()), Server.DeletePrefix(prefix))
      ensures !old(closed || !connected) ==>
                && (forall k :: k in cache <==> k in old(cache) && !exists rest :: k == prefix + rest)
                && (forall k :: k in cache ==> cache[k] == old(cache)[k])
      ensures sent == old(sent) + if error.None? then [Server.DeletePrefix(prefix)] else []
    {
      if closed {
        return Some(Closed);
      }
      if !connected {
        return Some(NotConnected);
      }
      DropPrefix(prefix);
      error := Send(Server.DeletePrefix(prefix), writes);
    }

    method DeleteSuffix(suffix: string, writes: bool) returns (error: Option<Error>)
      modifies this`cache, this`sent
      ensures error == old(Outcome(writes))
      ensures if old(closed || !connected) then cache == old(cache)
              else View() == Writers.Issue(old(View()), Server.DeleteSuffix(suffix))
      ensures !old(closed || !connected) ==>
                && (forall k :: k in cache <==> k in old(cache) && !exists rest :: k == rest + suffix)
                && (forall k :: k in cache ==> cache[k] == old(cache)[k])
      ensures sent == old(sent) + if error.None? then [Server.DeleteSuffix(suffix)] else []
    {
      if closed {
        return Some(Closed);
      }
      if !connected {
        return Some(NotConnected);
      }
      DropSuffix(suffix);
      error := Send(Server.DeleteSuffix(suffix), writes);
    }

    method Send(req: Server.Request, writes: bool) returns (error: Option<Error>)
      modifies this`sent
      ensures error == if writes then None else Some(WriteFailed)
      ensures sent == old(sent) + if writes then [req] else []
    {
      if !writes {
        return Some(WriteFailed);
      }
      sent := sent + [req];
      return None;
    }

    /** Ranging over the map and deleting the keys that match, in any order. */
    method DropPrefix(prefix: string)
      modifies this`cache
      ensures cache == Contents.Spared(old(cache), Lru.ByPrefix(prefix))
      ensures forall k :: k in cache <==> k in old(cache) && !exists rest :: k == prefix + rest
      ensures forall k :: k in cache ==> cache[k] == old(cache)[k]
    {
      var todo := cache.Keys;
      while todo != {}
        invariant todo <= cache.Keys
        invariant cache == map k | k in old(cache) && (k in todo || !HasPrefix(k, prefix)) :: old(cache)[k]
      {
        var key :| key in todo;
        todo := todo - {key};
        if HasPrefix(key, prefix) {
          cache := cache - {key};
        }
      }
      PrefixesExactly(prefix);
    }

    method DropSuffix(suffix: string)
      modifies this`cache
      ensures cache == Contents.Spared(old(cache), Lru.BySuffix(suffix))
      ensures forall k :: k in cache <==> k in old(cache) && !exists rest :: k == rest + suffix
      ensures forall k :: k in cache ==> cache[k] == old(cache)[k]
    {
      var todo := cache.Keys;
      while todo != {}
        invariant todo <= cache.Keys
        invariant cache == map k | k in old(cache) && (k in todo || !HasSuffix(k, suffix)) :: old(cache)[k]
      {
        var key :| key in todo;
        todo := todo - {key};
        if HasSuffix(key, suffix) {
          cache := cache - {key};
        }
      }
      SuffixesExactly(suffix);
    }

    /** Empties the map, then stores what arrived. */
    method LoadState(data: Contents.Data)
      modifies this`cache
      ensures cache == data
    {
      var todo := cache.Keys;
      while todo != {}
        invariant cache.Keys == todo
      {
        var key :| key in todo;
        todo := todo - {key};
        cache := cache - {key};
      }
      todo := data.Keys;
      while todo != {}
        invariant todo <= data.Keys && cache == data - todo
      {
        var key :| key in todo;
        todo := todo - {key};
        cache := cache[key := data[key]];
      }
    }

    method HandleMessage(m: Server.Message)
      modifies this`cache
      ensures cache == Readers.Handle(old(cache), m)
      ensures m.SheetState? ==> cache == m.data
      ensures m.SetBroadcast? || m.Replicate? ==> cache == old(cache)[m.key := m.value]
      ensures m.Invalidate? && m.key != "" ==> cache == old(cache) - {m.key}
    {
      match m
      case SheetState(data) => LoadState(data);
      case SetBroadcast(key, value) => cache := cache[key := value];
      case Replicate(_, key, value, _) => cache := cache[key := value];
      case Invalidate(key, prefix, suffix) =>
        if key != "" {
          cache := cache - {key};
        } else if prefix != "" {
          DropPrefix(prefix);
        } else if suffix != "" {
          DropSuffix(suffix);
        }
      case _ =>
    }

    /** The receive loop over all that is pending. */
    method Listen(queue: seq<Server.Message>)
      modifies this`cache
      ensures View() == Readers.ReceiveAll(old(View()), queue)
    {
      var i := 0;
      while i < |queue|
        invariant 0 <= i <= |queue|
        invariant View() == Readers.ReceiveAll(old(View()), queue[..i])
      {
        ghost var before := View();
        HandleMessage(queue[i]);
        Readers.ReceiveMore(old(View()), queue[..i], [queue[i]]);
        Readers.ReceiveOne(before, queue[i]);
        assert queue[..i] + [queue[i]] == queue[..i + 1];
        i := i + 1;
      }
      assert queue[..i] == queue;
    }

    /**
     The join: reads messages until the open is acknowledged and the sheet state has arrived. `incoming` is
     what the server sends, and it running out is a read error. `used` is how many messages were read.
     */
    method ConnectTo(incoming: seq<Server.Message>) returns (error: Option<Error>, used: nat)
      modifies this`cache, this`connected, this`sent
      ensures used <= |incoming| && sent == old(sent) + [Server.Open(sheet, password)]
      ensures connected == (old(connected) || error.None?)
      ensures var r := Joining(old(cache), incoming[..used]);
              && cache == r.local
              && (error == None <==> r.phase == Readers.Live)
              && (error == Some(AuthFailed) <==> r.phase == Readers.Failed)
              && (error == None || error == Some(AuthFailed) || (error == Some(ReadFailed) && used == |incoming|))
      ensures forall n :: 0 <= n < used ==> Undecided(Joining(old(cache), incoming[..n]).phase)
    {
      sent := sent + [Server.Open(sheet, password)];
      var authenticated, stateReceived := false, false;
      used := 0;
      assert incoming[..0] == [];
      while !authenticated || !stateReceived
        invariant used <= |incoming| && (stateReceived ==> authenticated)
        invariant Joining(old(cache), incoming[..used]) == Readers.Reader(PhaseOf(authenticated, stateReceived), cache)
        invariant forall n :: 0 <= n < used ==> Undecided(Joining(old(cache), incoming[..n]).phase)
        invariant connected == old(connected) && sent == old(sent) + [Server.Open(sheet, password)]
        decreases |incoming| - used
      {
        if used == |incoming| {
          return Some(ReadFailed), used;
        }
        var m := incoming[used];
        JoiningStep(old(cache), incoming, used);
        used := used + 1;
        if !authenticated {
          if m.Response? && m.success {
            authenticated := true;
          } else if m.Response? && m.error != "" {
            return Some(AuthFailed), used;
          }
        } else if m.SheetState? {
          LoadState(m.data);
          stateReceived := true;
        }
      }
      connected := true;
      return None, used;
    }
  }

  /** What a joining reader has become after some messages. */
  function Joining(cache: Contents.Data, received: seq<Server.Message>): Readers.Reader {
    Readers.ReceiveAll(Readers.Reader(Readers.Connecting, cache), received)
  }

  predicate Undecided(phase: Readers.Phase) {
    phase == Readers.Connecting || phase == Readers.Authenticated
  }

  function PhaseOf(authenticated: bool, stateReceived: bool): Readers.Phase {
    if !authenticated then Readers.Connecting else if !stateReceived then Readers.Authenticated else Readers.Live
  }

  lemma JoiningStep(cache: Contents.Data, incoming: seq<Server.Message>, n: nat)
    requires n < |incoming|
    ensures Joining(cache, incoming[..n + 1]) == Readers.Receive(Joining(cache, incoming[..n]), incoming[n])
  {
    assert incoming[..n + 1] == incoming[..n] + [incoming[n]];
    Readers.ReceiveMore(Readers.Reader(Readers.Connecting, cache), incoming[..n], [incoming[n]]);
    Readers.ReceiveOne(Joining(cache, incoming[..n]), incoming[n]);
  }
}
