/**
 The sheets of sheet/sheet.go and their registry of sheet/manager.go, updated in place.
 The embedded cache appears as its Lru value: module CacheStore proves its methods to be these functions.
 */
module SheetStore {
  import opened Prelude
  import Lru
  import Server
  import CacheStore

  type Conn = Server.Conn

  /** The connections as FIFO channels: WriteMessage appends to one of them. */
  class Network {
    var sent: Server.Channels

    constructor ()
      ensures sent == map[]
    {
      sent := map[];
    }

    /** A new connection starts with an empty channel. */
    method Accept(c: Conn)
      modifies this
      ensures sent == old(sent)[c := []]
    {
      sent := sent[c := []];
    }

    method WriteMessage(c: Conn, m: Server.Message)
      modifies this
      ensures sent == Server.Write(old(sent), c, m)
    {
      sent := sent[c := (if c in sent then sent[c] else []) + [m]];
    }
  }

  const EMPTY_CACHE := Lru.State([], CacheStore.DEFAULT_CAPACITY)

  class Sheet {
    const id: string
    var passwordHash: Option<string>
    var cache: Lru.State
    var collaborators: set<Conn>

    ghost function View(): Server.Sheet
      reads this
    {
      Server.Sheet(passwordHash, cache, collaborators)
    }

    /** NewSheet. */
    constructor (id: string, password: string)
      ensures this.id == id && View() == Server.Sheet(Some(password), EMPTY_CACHE, {})
    {
      this.id, passwordHash, cache, collaborators := id, Some(password), EMPTY_CACHE, {};
    }

    /** NewReplicaSheet. */
    constructor Replica(id: string)
      ensures this.id == id && View() == Server.Sheet(None, EMPTY_CACHE, {})
    {
      this.id, passwordHash, cache, collaborators := id, None, EMPTY_CACHE, {};
    }

    /** A sheet without a hash takes the first password it is shown. */
    method ValidatePassword(password: string) returns (ok: bool)
      modifies this`passwordHash
      ensures ok == Server.Verifies(old(passwordHash), password)
      ensures ok <==> old(passwordHash) == None || old(passwordHash) == Some(password)
      ensures passwordHash == if ok then Some(password) else old(passwordHash)
    {
      if passwordHash.None? {
        passwordHash := Some(password);
        return true;
      }
      return passwordHash.value == password;
    }

    method AddCollaborator(c: Conn)
      modifies this`collaborators
      ensures collaborators == old(collaborators) + {c}
    {
      collaborators := collaborators + {c};
    }

    method RemoveCollaborator(c: Conn) returns (remaining: nat)
      modifies this`collaborators
      ensures collaborators == old(collaborators) - {c}
      ensures remaining == |collaborators|
    {
      collaborators := collaborators - {c};
      return |collaborators|;
    }

    method Broadcast(net: Network, sender: Conn, m: Server.Message)
      modifies net
      ensures net.sent == Server.WriteAll(old(net.sent), collaborators - {sender}, m)
    {
      var todo := collaborators;
      while todo != {}
        invariant todo <= collaborators
        invariant net.sent == Server.WriteAll(old(net.sent), collaborators - {sender} - todo, m)
      {
        var c :| c in todo;
        todo := todo - {c};
        NextTarget(old(net.sent), collaborators, todo, c, sender, m);
        if c != sender {
          net.WriteMessage(c, m);
        }
      }
    }

    method BroadcastSetMsg(net: Network, sender: Conn, key: string, value: Json)
      modifies net
      ensures net.sent == Server.WriteAll(old(net.sent), collaborators - {sender}, Server.SetBroadcast(key, value))
    {
      Broadcast(net, sender, Server.SetBroadcast(key, value));
    }

    // The methods promoted from the embedded cache.

    method Get(key: string, now: int) returns (found: Option<Json>)
      modifies this`cache
      ensures Lru.GetResult(cache, found) == Lru.Get(old(cache), key, now)
    {
      var r := Lru.Get(cache, key, now);
      cache := r.state;
      return r.found;
    }

    method Set(key: string, value: Json, now: int, ttl: int) returns (evicted: string)
      modifies this`cache
      ensures Lru.SetResult(cache, evicted) == Lru.Set(old(cache), key, value, now + ttl)
    {
      var r := Lru.Set(cache, key, value, now + ttl);
      cache := r.state;
      return r.evicted;
    }

    method Delete(key: string)
      modifies this`cache
      ensures cache == Lru.Delete(old(cache), Lru.ByKey(key))
    {
      cache := Lru.Delete(cache, Lru.ByKey(key));
    }

    method CleanupExpired(now: int)
      modifies this`cache
      ensures cache == Lru.Delete(old(cache), Lru.ExpiredAt(now))
    {
      cache := Lru.Delete(cache, Lru.ExpiredAt(now));
    }

    method DeletePrefix(prefix: string) returns (count: nat)
      modifies this`cache
      ensures cache == Lru.Delete(old(cache), Lru.ByPrefix(prefix))
      ensures count == |old(cache).entries| - |cache.entries|
    {
      var before := cache;
      cache := Lru.Delete(cache, Lru.ByPrefix(prefix));
      return |before.entries| - |cache.entries|;
    }

    method DeleteSuffix(suffix: string) returns (count: nat)
      modifies this`cache
      ensures cache == Lru.Delete(old(cache), Lru.BySuffix(suffix))
      ensures count == |old(cache).entries| - |cache.entries|
    {
      var before := cache;
      cache := Lru.Delete(cache, Lru.BySuffix(suffix));
      return |before.entries| - |cache.entries|;
    }
  }

  /** One round of a broadcast. */
  lemma NextTarget(sent: Server.Channels, all: set<Conn>, todo: set<Conn>, c: Conn, sender: Conn, m: Server.Message)
    requires c in all && c !in todo
    ensures var before := Server.WriteAll(sent, all - {sender} - (todo + {c}), m);
            Server.WriteAll(sent, all - {sender} - todo, m)
            == if c == sender then before else Server.Write(before, c, m)
  {
    var targets := all - {sender} - todo;
    assert targets - {c} == all - {sender} - (todo + {c});
    if c != sender { OneMore(sent, targets, c, m); } else { assert targets - {c} == targets; }
  }

  /** Writing to one connection after writing to some others. */
  lemma OneMore(sent: Server.Channels, targets: set<Conn>, c: Conn, m: Server.Message)
    requires c in targets
    ensures Server.WriteAll(sent, targets, m) == Server.Write(Server.WriteAll(sent, targets - {c}, m), c, m)
  {
  }

  class Manager {
    var sheets: map<string, Sheet>

    ghost function Objects(): set<object>
      reads this
    {
      set id | id in sheets :: sheets[id]
    }

    /** Every sheet sits under its own id. */
    ghost predicate Valid()
      reads this
    {
      forall id :: id in sheets ==> sheets[id].id == id
    }

    ghost function View(): map<string, Server.Sheet>
      reads this, Objects()
    {
      map id | id in sheets :: sheets[id].View()
    }

    constructor ()
      ensures Valid() && View() == map[] && Objects() == {}
    {
      sheets := map[];
    }

    /** Load, then NewSheet and LoadOrStore: run alone, the store always happens. */
    method GetOrCreateSheet(id: string, password: string) returns (s: Sheet?)
      requires Valid()
      modifies this, Objects()
      ensures Valid() && fresh(Objects() - old(Objects()))
      ensures s == null <==>
              id == "" || password == "" || (id in old(View()) && !Server.Verifies(old(View())[id].hash, password))
      ensures s == null <==>
              || id == "" || password == ""
              || (id in old(sheets) && old(View())[id].hash.Some? && old(View())[id].hash != Some(password))
      ensures s == null ==> sheets == old(sheets) && View() == old(View())
      ensures s != null ==>
                && s.id == id && sheets == old(sheets)[id := s]
                && (if id in old(sheets) then s == old(sheets)[id] else fresh(s))
                && View() == old(View())[id := Admitted(old(View()), id, password)]
    {
      if id == "" || password == "" {
        return null;
      }
      if id in sheets {
        var existing := sheets[id];
        var ok := existing.ValidatePassword(password);
        if !ok {
          return null;
        }
        return existing;
      }
      var newSheet := new Sheet(id, password);
      sheets := sheets[id := newSheet];
      return newSheet;
    }

    function GetSheet(id: string): (s: Sheet?)
      reads this
      ensures s != null <==> id in sheets
      ensures s != null ==> sheets[id] == s
    {
      if id in sheets then sheets[id] else null
    }

    method AddSheet(s: Sheet)
      requires Valid()
      modifies this
      ensures Valid() && sheets == old(sheets)[s.id := s]
      ensures View() == old(View())[s.id := s.View()]
    {
      sheets := sheets[s.id := s];
    }

    method DeleteSheet(id: string)
      requires Valid()
      modifies this
      ensures Valid() && sheets == old(sheets) - {id}
      ensures View() == old(View()) - {id}
    {
      sheets := sheets - {id};
    }
  }

  /** The sheet a successful open gives: the one there, with its password now set, or a new one. */
  function Admitted(sheets: map<string, Server.Sheet>, id: string, password: string): Server.Sheet {
    if id in sheets then sheets[id].(hash := Some(password)) else Server.Sheet(Some(password), EMPTY_CACHE, {})
  }
}
