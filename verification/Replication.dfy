/**
 Leader and replica: the leader's requests append to the replica's FIFO channel, the replica applies what
 arrives to LRU caches of its own (replica/client.go). It sees no leader Get, so it evicts other keys.
 */
module Replication {
  import opened Prelude
  import opened Server
  import opened Session
  import opened Channels
  import opened Contents
  import Lru

  /** The sheets a replica's manager holds. */
  type Sheets = map<string, Lru.State>

  /** GetSheet, or the empty sheet that would be created. */
  function CacheOf(cap: int, r: Sheets, id: string): Lru.State {
    if id in r then r[id] else Lru.State([], cap)
  }

  /** Setting all pairs of `data` one after another, in some order and with some expiry times. */
  ghost predicate Loads(data: Data, s: Lru.State, s': Lru.State)
    decreases data.Keys
  {
    if data == map[] then s' == s
    else exists k: string, expiresAt: int :: k in data && Loads(data - {k}, Lru.Set(s, k, data[k], expiresAt).state, s')
  }

  function Forget(r: Sheets, id: string, sel: Lru.Selector): Sheets {
    if id in r then r[id := Lru.Delete(r[id], sel)] else r
  }

  /** What handling one message may do to the replica: its own clock and the map order are free. */
  ghost predicate Applies(cap: int, m: Message, r: Sheets, r': Sheets) {
    match m
    case FullState(sheets) =>
      && r'.Keys == r.Keys + sheets.Keys
      && (forall id :: id in r' ==>
            if id in sheets then Loads(sheets[id], CacheOf(cap, r, id), r'[id]) else r'[id] == r[id])
    case Replicate(id, key, value, _) =>
      exists expiresAt: int :: r' == r[id := Lru.Set(CacheOf(cap, r, id), key, value, expiresAt).state]
    case SetBroadcast(key, value) =>  // the same type on the wire, with no sheet named
      exists expiresAt: int :: r' == r["" := Lru.Set(CacheOf(cap, r, ""), key, value, expiresAt).state]
    case ReplicateDelete(id, key) => r' == Forget(r, id, Lru.ByKey(key))
    case ReplicateDeletePrefix(id, prefix) => r' == Forget(r, id, Lru.ByPrefix(prefix))
    case ReplicateDeleteSuffix(id, suffix) => r' == Forget(r, id, Lru.BySuffix(suffix))
    case ReplicateEvict(id, key) => r' == Forget(r, id, Lru.ByKey(key))
    case _ => r' == r
  }

  /** Applying a whole queue, in order, can lead from r to r'. */
  ghost predicate Folds(cap: int, queue: seq<Message>, r: Sheets, r': Sheets)
    decreases queue
  {
    if queue == [] then r' == r
    else exists mid :: Applies(cap, queue[0], r, mid) && Folds(cap, queue[1..], mid, r')
  }

  lemma {:induction false} FoldsSplit(cap: int, q: seq<Message>, more: seq<Message>, r: Sheets, r': Sheets)
    returns (mid: Sheets)
    requires Folds(cap, q + more, r, r')
    ensures Folds(cap, q, r, mid) && Folds(cap, more, mid, r')
    decreases q
  {
    if q == [] {
      assert q + more == more;
      mid := r;
    } else {
      assert (q + more)[1..] == q[1..] + more;
      var next :| Applies(cap, (q + more)[0], r, next) && Folds(cap, (q + more)[1..], next, r');
      mid := FoldsSplit(cap, q[1..], more, next, r');
      assert Applies(cap, q[0], r, next);
    }
  }

  lemma FoldsOne(cap: int, m: Message, r: Sheets, r': Sheets)
    requires Folds(cap, [m], r, r')
    ensures Applies(cap, m, r, r')
  {
  }

  /** Removals make no sheet and touch no other. */
  lemma DropsInPlace(cap: int, m: Message, r: Sheets, r': Sheets)
    requires m.ReplicateDelete? || m.ReplicateDeletePrefix? || m.ReplicateDeleteSuffix? || m.ReplicateEvict?
    requires Applies(cap, m, r, r')
    ensures r'.Keys == r.Keys && forall i :: i in r && i != m.sheet ==> r'[i] == r[i]
  {
  }

  /** What a replica drops, with the pattern written out. */
  lemma DropsByPrefix(cap: int, r: Sheets, r': Sheets, id: string, prefix: string)
    requires Applies(cap, ReplicateDeletePrefix(id, prefix), r, r') && id in r && Lru.Valid(r[id])
    ensures r'.Keys == r.Keys && forall i :: i in r && i != id ==> r'[i] == r[i]
    ensures forall k :: k in Content(r'[id]) <==> k in Content(r[id]) && !exists rest :: k == prefix + rest
    ensures forall k :: k in Content(r'[id]) ==> Content(r'[id])[k] == Content(r[id])[k]
  {
    RemovedByPrefix(r[id].entries, prefix);
  }

  lemma DropsBySuffix(cap: int, r: Sheets, r': Sheets, id: string, suffix: string)
    requires Applies(cap, ReplicateDeleteSuffix(id, suffix), r, r') && id in r && Lru.Valid(r[id])
    ensures r'.Keys == r.Keys && forall i :: i in r && i != id ==> r'[i] == r[i]
    ensures forall k :: k in Content(r'[id]) <==> k in Content(r[id]) && !exists rest :: k == rest + suffix
    ensures forall k :: k in Content(r'[id]) ==> Content(r'[id])[k] == Content(r[id])[k]
  {
    RemovedBySuffix(r[id].entries, suffix);
  }

  // ----- full state

  /** The keys loaded so far are the most recent ones, so the loop never evicts one of them. */
  ghost predicate InFront(es: seq<Lru.Entry>, loaded: set<string>) {
    |loaded| <= |es| && Lru.Keys(es[..|loaded|]) == loaded
  }

  lemma PushInFront(f: Lru.Entry, a: seq<Lru.Entry>, b: seq<Lru.Entry>, loaded: set<string>)
    requires |loaded| <= |a| && Lru.Keys(a[..|loaded|]) == loaded && f.key !in loaded
    ensures InFront([f] + (a + b), loaded + {f.key})
  {
    var n := |loaded|;
    assert ([f] + (a + b))[..n + 1] == [f] + a[..n];
    Lru.KeysCons(f, a[..n]);
  }

  lemma SetGoesInFront(s: Lru.State, key: string, value: Json, expiresAt: int, loaded: set<string>)
    requires Lru.Valid(s) && InFront(s.entries, loaded) && key !in loaded && (s.capacity > 0 ==> |loaded| < s.capacity)
    ensures InFront(Lru.Set(s, key, value, expiresAt).state.entries, loaded + {key})
  {
    var es, e := s.entries, Lru.Entry(key, value, expiresAt);
    if Lru.HasKey(es, key) {
      ReplaceInFront(e, es, loaded);
    } else {
      AddInFront(e, es, if 0 < s.capacity <= |es| then |es| - 1 else |es|, loaded);
    }
  }

  /** A new first entry when the list is cut behind the loaded ones. */
  lemma AddInFront(e: Lru.Entry, es: seq<Lru.Entry>, n: nat, loaded: set<string>)
    requires InFront(es, loaded) && |loaded| <= n <= |es| && e.key !in loaded
    ensures InFront([e] + es[..n], loaded + {e.key})
    ensures n == |es| ==> es[..n] == es
  {
    assert es[..n] + [] == es[..n];
    InsertInFront(e, es, es[..n], [], loaded);
  }

  lemma ReplaceInFront(e: Lru.Entry, es: seq<Lru.Entry>, loaded: set<string>)
    requires Lru.Unique(es) && InFront(es, loaded) && Lru.HasKey(es, e.key) && e.key !in loaded
    ensures InFront([e] + Lru.Without(es, Lru.ByKey(e.key)), loaded + {e.key})
  {
    var j :| 0 <= j < |es| && es[j].key == e.key;
    NotInFront(es, loaded, j);
    Lru.WithoutKeyAt(es, j);
    InsertInFront(e, es, es[..j], es[j + 1..], loaded);
  }

  /** A new first entry, ahead of at least the loaded ones. */
  lemma InsertInFront(e: Lru.Entry, es: seq<Lru.Entry>, a: seq<Lru.Entry>, b: seq<Lru.Entry>, loaded: set<string>)
    requires InFront(es, loaded) && |loaded| <= |a| <= |es| && a == es[..|a|] && e.key !in loaded
    ensures InFront([e] + (a + b), loaded + {e.key})
  {
    assert a[..|loaded|] == es[..|loaded|];
    PushInFront(e, a, b, loaded);
  }

  lemma NotInFront(es: seq<Lru.Entry>, loaded: set<string>, j: nat)
    requires InFront(es, loaded) && j < |es| && es[j].key !in loaded
    ensures j >= |loaded|
  {
  }

  /** A key in front is not the one a Set pushes out. */
  lemma FrontIsSafe(s: Lru.State, key: string, loaded: set<string>)
    requires Lru.Valid(s) && InFront(s.entries, loaded) && (s.capacity > 0 ==> |loaded| < s.capacity)
    ensures PushedOut(s, key).Some? ==> PushedOut(s, key).value !in loaded
  {
  }

  lemma LoadStep(s: Lru.State, k: string, v: Json, expiresAt: int, loaded: set<string>)
    requires Lru.Valid(s) && InFront(s.entries, loaded) && k !in loaded && (s.capacity > 0 ==> |loaded| < s.capacity)
    ensures var t := Lru.Set(s, k, v, expiresAt).state;
            && Lru.Valid(t) && t.capacity == s.capacity && InFront(t.entries, loaded + {k})
            && loaded + {k} <= Content(t).Keys <= Content(s).Keys + {k} && loaded <= Content(s).Keys
            && Content(t)[k] == v && (forall x :: x in loaded ==> Content(t)[x] == Content(s)[x])
  {
    LoadedAreThere(s, loaded);
    Lru.SetKeepsValid(s, k, v, expiresAt);
    SetGoesInFront(s, k, v, expiresAt, loaded);
    FrontIsSafe(s, k, loaded);
    DumpSet(s, k, v, expiresAt);
  }

  lemma OneLess(data: Data, k: string)
    requires k in data
    ensures |data - {k}| == |data| - 1 && (data - {k}).Keys == data.Keys - {k}
  {
  }

  lemma OneMore<K, V>(data: map<K, V>, k: K, loaded: set<K>)
    requires k in data
    ensures loaded + {k} + (data - {k}).Keys == loaded + data.Keys
  {
  }

  /** Loading more keys after `loaded` ones: nothing loaded is lost, and every new pair arrives. */
  lemma {:induction false} LoadsRun(data: Data, s: Lru.State, s': Lru.State, loaded: set<string>)
    requires Lru.Valid(s) && Loads(data, s, s') && InFront(s.entries, loaded) && loaded !! data.Keys
    requires s.capacity > 0 ==> |loaded| + |data| <= s.capacity
    ensures Lru.Valid(s') && s'.capacity == s.capacity
    ensures Within(data, Content(s'))
    ensures loaded <= Content(s).Keys && loaded <= Content(s').Keys <= Content(s).Keys + data.Keys
    ensures forall k :: k in loaded ==> Content(s')[k] == Content(s)[k]
    decreases data.Keys
  {
    if data == map[] {
      LoadedAreThere(s, loaded);
    } else {
      var k, expiresAt :| k in data && Loads(data - {k}, Lru.Set(s, k, data[k], expiresAt).state, s');
      var t := Lru.Set(s, k, data[k], expiresAt).state;
      OneLess(data, k);
      LoadStep(s, k, data[k], expiresAt, loaded);
      LoadsRun(data - {k}, t, s', loaded + {k});
      LoadGlue(data, k, Content(s), Content(t), Content(s'), loaded);
    }
  }

  /** ... and in the end all that was loaded is in front. */
  lemma {:induction false} LoadsInFront(data: Data, s: Lru.State, s': Lru.State, loaded: set<string>)
    requires Lru.Valid(s) && Loads(data, s, s') && InFront(s.entries, loaded) && loaded !! data.Keys
    requires s.capacity > 0 ==> |loaded| + |data| <= s.capacity
    ensures InFront(s'.entries, loaded + data.Keys)
    decreases data.Keys
  {
    if data == map[] {
      assert loaded + data.Keys == loaded;
    } else {
      var k, expiresAt :| k in data && Loads(data - {k}, Lru.Set(s, k, data[k], expiresAt).state, s');
      OneLess(data, k);
      LoadStep(s, k, data[k], expiresAt, loaded);
      LoadsInFront(data - {k}, Lru.Set(s, k, data[k], expiresAt).state, s', loaded + {k});
      OneMore(data, k, loaded);
    }
  }

  /** Chaining one load with the rest of them, on the maps alone. */
  lemma LoadGlue<K, V>(data: map<K, V>, k: K, before: map<K, V>, mid: map<K, V>, after: map<K, V>, loaded: set<K>)
    requires k in data && Within(data - {k}, after)
    requires loaded + {k} <= mid.Keys <= before.Keys + {k} && loaded <= before.Keys && k !in loaded
    requires mid[k] == data[k] && forall x :: x in loaded ==> mid[x] == before[x]
    requires loaded + {k} <= after.Keys <= mid.Keys + (data - {k}).Keys
    requires forall x :: x in loaded + {k} ==> after[x] == mid[x]
    ensures Within(data, after) && after.Keys <= before.Keys + data.Keys
    ensures forall x :: x in loaded ==> after[x] == before[x]
  {
  }

  lemma LoadedAreThere(s: Lru.State, loaded: set<string>)
    requires InFront(s.entries, loaded)
    ensures loaded <= Content(s).Keys
  {
  }

  /**
   A full state of at most `capacity` keys, loaded over any previous contents in any order, leaves every
   leader pair in place; on an empty cache the result is exactly the leader's map.
   */
  lemma FullStateArrives(data: Data, s: Lru.State, s': Lru.State)
    requires Lru.Valid(s) && Loads(data, s, s') && (s.capacity > 0 ==> |data| <= s.capacity)
    ensures Lru.Valid(s') && s'.capacity == s.capacity
    ensures Within(data, Content(s')) && InFront(s'.entries, data.Keys)
    ensures s.entries == [] || 0 < |data| == s.capacity ==> Content(s') == data
  {
    assert s.entries[..0] == [];
    LoadsRun(data, s, s', {});
    LoadsInFront(data, s, s', {});
    assert {} + data.Keys == data.Keys;
    if s.entries == [] {
      assert Content(s).Keys == {};
      WithinBoth(data, Content(s'));
    } else if 0 < |data| == s.capacity {
      DumpSize(s'.entries);
      NoRoomForMore(data, Content(s'));
    }
  }

  lemma WithinBoth<K, V>(data: map<K, V>, all: map<K, V>)
    requires Within(data, all) && all.Keys <= data.Keys
    ensures all == data
  {
  }

  lemma NoRoomForMore<K, V>(data: map<K, V>, all: map<K, V>)
    requires Within(data, all) && |all| <= |data|
    ensures all == data
  {
    LagSizes(data, all);
    assert all.Keys - data.Keys == {};
  }

  // ----- the replica lags by at most one key

  /** How many keys a replica may miss: with room for a single key it can only push out what the leader does. */
  function Slack(cap: int): nat {
    if cap == 1 then 0 else 1
  }

  /** The keys the leader has are ahead of all others, which will therefore be evicted first. */
  ghost predicate LeaderFirst(es: seq<Lru.Entry>, keys: set<string>) {
    forall i, j :: 0 <= i < j < |es| && es[j].key in keys ==> es[i].key in keys
  }

  /** One sheet at the leader and the replica's copy of it. `clean`: the replica started with nothing. */
  ghost predicate CacheLag(clean: bool, cap: int, l: Lru.State, f: Lru.State) {
    && cap >= 1 && l.capacity == cap && f.capacity == cap
    && Lru.Valid(l) && Lru.Valid(f)
    && "" !in Content(l)
    && Lags(Content(f), Content(l), Slack(cap)) && LeaderFirst(f.entries, Content(l).Keys)
    && (clean ==> Content(f).Keys <= Content(l).Keys)
  }

  // ----- the order of the replica's list

  lemma {:induction false} FirstWithout(es: seq<Lru.Entry>, keys: set<string>, sel: Lru.Selector)
    requires LeaderFirst(es, keys)
    ensures LeaderFirst(Lru.Without(es, sel), keys)
  {
    if es != [] {
      FirstWithout(es[1..], keys, sel);
      var rest := Lru.Without(es[1..], sel);
      if !Lru.Selects(sel, es[0]) {
        forall j | 0 <= j < |rest| && rest[j].key in keys ensures es[0].key in keys {
          assert rest[j] in es[1..];
          var i :| 0 <= i < |es[1..]| && es[1..][i] == rest[j];
          assert es[i + 1] == rest[j];
        }
        FirstPut(es[0], rest, keys);
      }
    }
  }

  lemma FirstPut(e: Lru.Entry, rest: seq<Lru.Entry>, keys: set<string>)
    requires LeaderFirst(rest, keys)
    requires e.key in keys || forall j :: 0 <= j < |rest| ==> rest[j].key !in keys
    ensures LeaderFirst([e] + rest, keys)
  {
  }

  lemma FirstSame(es: seq<Lru.Entry>, keys: set<string>, keys': set<string>)
    requires LeaderFirst(es, keys) && forall e :: e in es ==> (e.key in keys <==> e.key in keys')
    ensures LeaderFirst(es, keys')
  {
    forall i, j | 0 <= i < j < |es| && es[j].key in keys' ensures es[i].key in keys' {
      assert es[i] in es && es[j] in es;
    }
  }

  lemma FirstSet(f: Lru.State, key: string, value: Json, expiresAt: int, keys: set<string>)
    requires Lru.Valid(f) && LeaderFirst(f.entries, keys)
    ensures LeaderFirst(Lru.Set(f, key, value, expiresAt).state.entries, keys + {key})
  {
    var e, es := Lru.Entry(key, value, expiresAt), f.entries;
    var rest := if Lru.HasKey(es, key) then Lru.Without(es, Lru.ByKey(key))
                else if 0 < f.capacity <= |es| then es[..|es| - 1] else es;
    if Lru.HasKey(es, key) { FirstWithout(es, keys, Lru.ByKey(key)); }
    assert LeaderFirst(rest, keys);
    forall x | x in rest ensures x.key != key {
      if !Lru.HasKey(es, key) { assert x in es; }
    }
    FirstSame(rest, keys, keys + {key});
    FirstPut(e, rest, keys + {key});
  }

  lemma FirstDelete(es: seq<Lru.Entry>, sel: Lru.Selector, keys: set<string>, keys': set<string>)
    requires LeaderFirst(es, keys)
    requires forall e :: e in es && !Lru.Selects(sel, e) ==> (e.key in keys <==> e.key in keys')
    ensures LeaderFirst(Lru.Without(es, sel), keys')
  {
    FirstWithout(es, keys, sel);
    FirstSame(Lru.Without(es, sel), keys, keys');
  }

  lemma LoadedFirst(es: seq<Lru.Entry>, loaded: set<string>)
    requires Lru.Unique(es) && InFront(es, loaded)
    ensures LeaderFirst(es, loaded)
  {
    forall i, j | 0 <= i < j < |es| && es[j].key in loaded ensures es[i].key in loaded {
      var front := es[..|loaded|];
      var k :| 0 <= k < |front| && front[k].key == es[j].key;
      assert k == j;
      assert front[i].key in Lru.Keys(front);
    }
  }

  lemma LastFirst(es: seq<Lru.Entry>, keys: set<string>)
    requires LeaderFirst(es, keys) && es != [] && es[|es| - 1].key in keys
    ensures Lru.Dump(es).Keys <= keys
  {
    forall k | k in Lru.Dump(es) ensures k in keys {
      DumpHasKey(es, k);
      var i :| 0 <= i < |es| && es[i].key == k;
    }
  }

  /** If the replica pushes out a key of the leader's, it has no others, and the leader is full too. */
  lemma OwnPush(f: Lru.State, key: string, keys: set<string>)
    requires Lru.Unique(f.entries) && LeaderFirst(f.entries, keys) && |keys| <= f.capacity
    requires PushedOut(f, key).Some? && PushedOut(f, key).value in keys
    ensures Content(f).Keys == keys && |keys| == f.capacity && key !in keys
  {
    LastFirst(f.entries, keys);
    DumpSize(f.entries);
    DumpHasKey(f.entries, key);
    FullSubset(Content(f).Keys, keys);
  }

  lemma FullSubset<K>(a: set<K>, b: set<K>)
    requires a <= b && |b| <= |a|
    ensures a == b
  {
    assert b == a + (b - a);
  }

  // ----- one request, on both sides

  /** The maps when the leader pushes nothing out. */
  lemma LagSetRoom(clean: bool, cap: int, l: Lru.State, f: Lru.State, key: string, value: Json, expL: int, expF: int)
    requires CacheLag(clean, cap, l, f) && key != "" && PushedOut(l, key).None?
    ensures var l', f' := Lru.Set(l, key, value, expL).state, Lru.Set(f, key, value, expF).state;
            && Content(l') == Content(l)[key := value] && "" !in Content(l')
            && Lags(Content(f'), Content(l'), Slack(cap)) && (clean ==> Content(f').Keys <= Content(l').Keys)
  {
    DumpSet(l, key, value, expL);
    DumpSet(f, key, value, expF);
    RoomPush(clean, cap, l, f, key);
    LagPut(Content(f), Content(l), key, value, PushedOut(f, key), Slack(cap));
  }

  lemma PutKeys<K, V>(l: map<K, V>, key: K, value: V)
    ensures l[key := value].Keys == l.Keys + {key}
  {
  }

  lemma CarrySetRoom(clean: bool, cap: int, l: Lru.State, f: Lru.State, key: string, value: Json, expL: int, expF: int)
    requires CacheLag(clean, cap, l, f) && key != "" && PushedOut(l, key).None?
    ensures CacheLag(clean, cap, Lru.Set(l, key, value, expL).state, Lru.Set(f, key, value, expF).state)
  {
    Lru.SetKeepsValid(l, key, value, expL);
    Lru.SetKeepsValid(f, key, value, expF);
    LagSetRoom(clean, cap, l, f, key, value, expL, expF);
    FirstSet(f, key, value, expF, Content(l).Keys);
    PutKeys(Content(l), key, value);
  }

  lemma RoomPush(clean: bool, cap: int, l: Lru.State, f: Lru.State, key: string)
    requires CacheLag(clean, cap, l, f) && PushedOut(l, key).None?
    ensures PushedOut(f, key).Some? ==> PushedOut(f, key).value !in Content(l)
  {
    if PushedOut(f, key).Some? && PushedOut(f, key).value in Content(l) {
      DumpSize(l.entries);
      OwnPush(f, key, Content(l).Keys);
      DumpHasKey(l.entries, key);
    }
  }

  lemma NonEmpty<K>(s: set<K>, x: K)
    requires x in s
    ensures |s| >= 1
  {
  }

  /** The maps when the leader pushes `out` out. */
  lemma LagSetFull(clean: bool, cap: int, l: Lru.State, f: Lru.State, key: string, value: Json, expL: int, expF: int,
                   out: string)
    requires CacheLag(clean, cap, l, f) && key != "" && PushedOut(l, key) == Some(out)
    ensures var l', f' := Lru.Set(l, key, value, expL).state,
                          Lru.Delete(Lru.Set(f, key, value, expF).state, Lru.ByKey(out));
            && Content(l') == (Content(l) - {out})[key := value] && "" !in Content(l')
            && Lags(Content(f'), Content(l'), Slack(cap)) && (clean ==> Content(f').Keys <= Content(l').Keys)
  {
    var f1 := Lru.Set(f, key, value, expF).state;
    DumpSet(l, key, value, expL);
    DumpSet(f, key, value, expF);
    DumpHasKey(l.entries, key);
    var own := PushedOut(f, key);
    DumpSize(l.entries);
    if own.Some? && own.value in Content(l) { OwnPush(f, key, Content(l).Keys); }
    LagEvict(Content(f), Content(l), key, value, out, own, Slack(cap));
    DumpWithout(f1.entries, Lru.ByKey(out));
    SparedKey(Content(f1), out);
  }

  /** The replica's list then. */
  lemma FirstSetFull(f: Lru.State, key: string, value: Json, expiresAt: int, out: string, keys: set<string>)
    requires Lru.Valid(f) && LeaderFirst(f.entries, keys) && key != out
    ensures LeaderFirst(Lru.Delete(Lru.Set(f, key, value, expiresAt).state, Lru.ByKey(out)).entries,
                        keys - {out} + {key})
  {
    FirstSet(f, key, value, expiresAt, keys);
    FirstDelete(Lru.Set(f, key, value, expiresAt).state.entries, Lru.ByKey(out), keys + {key}, keys - {out} + {key});
  }

  lemma SwapKeys<K, V>(l: map<K, V>, key: K, value: V, out: K)
    ensures (l - {out})[key := value].Keys == l.Keys - {out} + {key}
  {
  }

  lemma CarrySetFull(clean: bool, cap: int, l: Lru.State, f: Lru.State, key: string, value: Json, expL: int, expF: int,
                     out: string)
    requires CacheLag(clean, cap, l, f) && key != "" && PushedOut(l, key) == Some(out)
    ensures CacheLag(clean, cap, Lru.Set(l, key, value, expL).state,
                     Lru.Delete(Lru.Set(f, key, value, expF).state, Lru.ByKey(out)))
  {
    var keys := Content(l).Keys;
    DumpSet(l, key, value, expL);
    Lru.SetKeepsValid(l, key, value, expL);
    Lru.SetKeepsValid(f, key, value, expF);
    LagSetFull(clean, cap, l, f, key, value, expL, expF, out);
    FirstSetFull(f, key, value, expF, out, keys);
    SwapKeys(Content(l), key, value, out);
  }

  /** The leader's Set, and the replica's Set followed by the eviction message, if there is one. */
  lemma CarrySet(clean: bool, cap: int, l: Lru.State, f: Lru.State, key: string, value: Json, expL: int, expF: int)
    requires CacheLag(clean, cap, l, f) && key != ""
    ensures var rl := Lru.Set(l, key, value, expL);
            var f1 := Lru.Set(f, key, value, expF).state;
            CacheLag(clean, cap, rl.state, if rl.evicted == "" then f1 else Lru.Delete(f1, Lru.ByKey(rl.evicted)))
  {
    DumpSet(l, key, value, expL);
    match PushedOut(l, key)
    case None => CarrySetRoom(clean, cap, l, f, key, value, expL, expF);
    case Some(out) => CarrySetFull(clean, cap, l, f, key, value, expL, expF, out);
  }

  lemma CarryDelete(clean: bool, cap: int, l: Lru.State, f: Lru.State, sel: Lru.Selector)
    requires CacheLag(clean, cap, l, f) && !sel.ExpiredAt?
    ensures CacheLag(clean, cap, Lru.Delete(l, sel), Lru.Delete(f, sel))
  {
    DumpWithout(l.entries, sel);
    DumpWithout(f.entries, sel);
    LagDelete(Content(f), Content(l), sel, Slack(cap));
    FirstDelete(f.entries, sel, Content(l).Keys, Spared(Content(l), sel).Keys);
  }

  lemma CarryGet(clean: bool, cap: int, l: Lru.State, f: Lru.State, key: string, now: int)
    requires CacheLag(clean, cap, l, f)
    requires Lru.HasKey(l.entries, key) ==> now <= Lru.Find(l.entries, key).expiresAt
    ensures CacheLag(clean, cap, Lru.Get(l, key, now).state, f)
  {
    Lru.GetKeepsValid(l, key, now);
    DumpGet(l, key, now);
  }

  /** A cache the replica may hold before it hears from the leader. */
  ghost predicate SheetOk(clean: bool, cap: int, f: Lru.State) {
    Lru.Valid(f) && f.capacity == cap && (clean ==> f.entries == [])
  }

  /** Every sheet of the leader's lags by no more than the slack; sheets the leader does not have are only in order. */
  ghost predicate InStep(clean: bool, cap: int, w: World, r: Sheets) {
    forall id: string :: SheetInStep(clean, cap, w, r, id)
  }

  ghost predicate SheetInStep(clean: bool, cap: int, w: World, r: Sheets, id: string) {
    if id in w.sheets then CacheLag(clean, cap, w.sheets[id].cache, CacheOf(cap, r, id))
    else SheetOk(clean, cap, CacheOf(cap, r, id))
  }

  /** The step is within the scope of the bound for replica d: nothing expires, keys are non-empty, no sheet is
      deleted. */
  ghost predicate Benign(w: World, ev: Event, env: Env, d: Conn) {
    && !ActsItself(ev, d) && !TakesBothRoles(w, ev)
    && match ev
       case Act(c, req) =>
         c in w.conns && w.conns[c].Some? && w.conns[c].value in w.sheets ==> (
           match req
           case Set(key, _, _) => key != ""
           case SetNull(key) => key != ""
           case Get(key) =>
             var es := w.sheets[w.conns[c].value].cache.entries;
             Lru.HasKey(es, key) ==> env.now <= Lru.Find(es, key).expiresAt
           case _ => true)
       case Sweep(id) => id in w.sheets ==> forall e :: e in w.sheets[id].cache.entries ==> env.now <= e.expiresAt
       case Disconnect(c) =>
         c in w.conns && c !in w.replicas && w.conns[c].Some? && w.conns[c].value in w.sheets ==>
           w.sheets[w.conns[c].value].collaborators - {c} != {}
       case _ => true
  }

  /** Only one sheet changes, on both sides. */
  lemma CarryOne(clean: bool, cap: int, w: World, w': World, r: Sheets, r': Sheets, id: string)
    requires InStep(clean, cap, w, r) && id in w.sheets
    requires w'.sheets.Keys == w.sheets.Keys
    requires forall i :: i in w.sheets && i != id ==>
               w'.sheets[i].cache == w.sheets[i].cache && CacheOf(cap, r', i) == CacheOf(cap, r, i)
    requires forall i :: i !in w.sheets ==> CacheOf(cap, r', i) == CacheOf(cap, r, i)
    requires CacheLag(clean, cap, w'.sheets[id].cache, CacheOf(cap, r', id))
    ensures InStep(clean, cap, w', r')
  {
    forall i: string ensures SheetInStep(clean, cap, w', r', i) {
      assert SheetInStep(clean, cap, w, r, i);
    }
  }

  lemma ForgetCache(cap: int, r: Sheets, id: string, sel: Lru.Selector)
    ensures CacheOf(cap, Forget(r, id, sel), id) == Lru.Delete(CacheOf(cap, r, id), sel)
    ensures forall i :: i != id ==> CacheOf(cap, Forget(r, id, sel), i) == CacheOf(cap, r, i)
  {
  }

  /** The messages of a Set: a Replicate and, if a key was evicted, a ReplicateEvict after it. */
  lemma SetMessages(cap: int, r: Sheets, r': Sheets, id: string, key: string, value: Json, jitter: bool,
                    evicted: string) returns (exp: int)
    requires Folds(cap, [Replicate(id, key, value, jitter)] + HeardEviction(false, true, id, evicted), r, r')
    ensures var f := Lru.Set(CacheOf(cap, r, id), key, value, exp).state;
            CacheOf(cap, r', id) == if evicted == "" then f else Lru.Delete(f, Lru.ByKey(evicted))
    ensures forall i :: i != id ==> CacheOf(cap, r', i) == CacheOf(cap, r, i)
  {
    var more := HeardEviction(false, true, id, evicted);
    var mid := FoldsSplit(cap, [Replicate(id, key, value, jitter)], more, r, r');
    FoldsOne(cap, Replicate(id, key, value, jitter), r, mid);
    exp :| mid == r[id := Lru.Set(CacheOf(cap, r, id), key, value, exp).state];
    if evicted != "" {
      assert more == [ReplicateEvict(id, evicted)];
      FoldsOne(cap, ReplicateEvict(id, evicted), mid, r');
      ForgetCache(cap, mid, id, Lru.ByKey(evicted));
    }
  }

  lemma CarrySetMessages(clean: bool, cap: int, l: Lru.State, r: Sheets, r': Sheets, id: string, key: string,
                         value: Json, jitter: bool, exp: int)
    requires CacheLag(clean, cap, l, CacheOf(cap, r, id)) && key != ""
    requires var evicted := Lru.Set(l, key, value, exp).evicted;
             Folds(cap, [Replicate(id, key, value, jitter)] + HeardEviction(false, true, id, evicted), r, r')
    ensures CacheLag(clean, cap, Lru.Set(l, key, value, exp).state, CacheOf(cap, r', id))
    ensures forall i :: i != id ==> CacheOf(cap, r', i) == CacheOf(cap, r, i)
  {
    var expF := SetMessages(cap, r, r', id, key, value, jitter, Lru.Set(l, key, value, exp).evicted);
    CarrySet(clean, cap, l, CacheOf(cap, r, id), key, value, exp, expF);
  }

  lemma CarryInSheet(clean: bool, cfg: Config, w: World, c: Conn, id: string, req: Request, env: Env, d: Conn,
                     r: Sheets, r': Sheets)
    requires InStep(clean, cfg.capacity, w, r) && c in w.conns && w.conns[c] == Some(id) && id in w.sheets
    requires d in w.replicas && d !in w.sheets[id].collaborators && Benign(w, Act(c, req), env, d)
    requires Folds(cfg.capacity, Heard(cfg, w, c, id, req, env, d), r, r')
    ensures InStep(clean, cfg.capacity, HandleInSheet(cfg, w, c, id, req, env), r')
  {
    InSheetCaches(cfg, w, c, id, req, env);
    assert SheetInStep(clean, cfg.capacity, w, r, id);
    CarryCache(clean, cfg, w, c, id, req, env, d, r, r');
    CarryOne(clean, cfg.capacity, w, HandleInSheet(cfg, w, c, id, req, env), r, r', id);
  }

  lemma CarryCache(clean: bool, cfg: Config, w: World, c: Conn, id: string, req: Request, env: Env, d: Conn, r: Sheets,
                   r': Sheets)
    requires id in w.sheets && CacheLag(clean, cfg.capacity, w.sheets[id].cache, CacheOf(cfg.capacity, r, id))
    requires c in w.conns && w.conns[c] == Some(id)
    requires d in w.replicas && d !in w.sheets[id].collaborators && Benign(w, Act(c, req), env, d)
    requires Folds(cfg.capacity, Heard(cfg, w, c, id, req, env, d), r, r')
    ensures CacheLag(clean, cfg.capacity, CacheAfter(cfg, w.sheets[id].cache, req, env), CacheOf(cfg.capacity, r', id))
    ensures forall i :: i != id ==> CacheOf(cfg.capacity, r', i) == CacheOf(cfg.capacity, r, i)
  {
    var cap, l := cfg.capacity, w.sheets[id].cache;
    var heard := Heard(cfg, w, c, id, req, env, d);
    match req
    case Set(key, value, jitter) =>
      assert heard == [Replicate(id, key, value, jitter)]
                      + HeardEviction(false, true, id, Lru.Set(l, key, value, ExpiresAt(cfg, jitter, env)).evicted);
      CarrySetMessages(clean, cap, l, r, r', id, key, value, jitter, ExpiresAt(cfg, jitter, env));
    case SetNull(key) =>
      CarrySetMessages(clean, cap, l, r, r', id, key, NULL_PLACEHOLDER, false, ExpiresAt(cfg, false, env));
    case Delete(_) => CarryRemoval(clean, cfg, w, c, id, req, env, d, r, r');
    case DeletePrefix(_) => CarryRemoval(clean, cfg, w, c, id, req, env, d, r, r');
    case DeleteSuffix(_) => CarryRemoval(clean, cfg, w, c, id, req, env, d, r, r');
    case Get(key) =>
      assert heard == [];
      CarryGet(clean, cap, l, CacheOf(cap, r, id), key, env.now);
    case Lock(key, seconds) =>
      if heard != [] { FoldsOne(cap, heard[0], r, r'); }
    case Unlock(key) =>
      if heard != [] { FoldsOne(cap, heard[0], r, r'); }
    case _ => assert heard == [];
  }

  lemma CarryRemoval(clean: bool, cfg: Config, w: World, c: Conn, id: string, req: Request, env: Env, d: Conn,
                     r: Sheets, r': Sheets)
    requires id in w.sheets && CacheLag(clean, cfg.capacity, w.sheets[id].cache, CacheOf(cfg.capacity, r, id))
    requires d in w.replicas && d !in w.sheets[id].collaborators
    requires req.Delete? || req.DeletePrefix? || req.DeleteSuffix?
    requires Folds(cfg.capacity, Heard(cfg, w, c, id, req, env, d), r, r')
    ensures CacheLag(clean, cfg.capacity, CacheAfter(cfg, w.sheets[id].cache, req, env), CacheOf(cfg.capacity, r', id))
    ensures forall i :: i != id ==> CacheOf(cfg.capacity, r', i) == CacheOf(cfg.capacity, r, i)
  {
    var cap, l := cfg.capacity, w.sheets[id].cache;
    match req
    case Delete(key) => CarryForget(clean, cap, l, r, r', id, Lru.ByKey(key), ReplicateDelete(id, key));
    case DeletePrefix(prefix) =>
      CarryForget(clean, cap, l, r, r', id, Lru.ByPrefix(prefix), ReplicateDeletePrefix(id, prefix));
    case DeleteSuffix(suffix) =>
      CarryForget(clean, cap, l, r, r', id, Lru.BySuffix(suffix), ReplicateDeleteSuffix(id, suffix));
  }

  lemma CarryForget(clean: bool, cap: int, l: Lru.State, r: Sheets, r': Sheets, id: string, sel: Lru.Selector,
                    m: Message)
    requires CacheLag(clean, cap, l, CacheOf(cap, r, id)) && !sel.ExpiredAt?
    requires Folds(cap, [] + [m], r, r') && (Applies(cap, m, r, r') ==> r' == Forget(r, id, sel))
    ensures CacheLag(clean, cap, Lru.Delete(l, sel), CacheOf(cap, r', id))
    ensures forall i :: i != id ==> CacheOf(cap, r', i) == CacheOf(cap, r, i)
  {
    assert [] + [m] == [m];
    FoldsOne(cap, m, r, r');
    ForgetCache(cap, r, id, sel);
    CarryDelete(clean, cap, l, CacheOf(cap, r, id), sel);
  }

  /** Against an empty sheet nothing is missing. */
  lemma EmptyLag(clean: bool, cap: int, f: Lru.State)
    requires cap >= 1 && SheetOk(clean, cap, f)
    ensures CacheLag(clean, cap, Lru.State([], cap), f)
  {
    assert Content(Lru.State([], cap)) == map[];
    if clean { assert Content(f) == map[]; }
  }

  lemma CarrySame(clean: bool, cap: int, w: World, w': World, r: Sheets)
    requires InStep(clean, cap, w, r) && w'.sheets.Keys == w.sheets.Keys
    requires forall id :: id in w.sheets ==> w'.sheets[id].cache == w.sheets[id].cache
    ensures InStep(clean, cap, w', r)
  {
    forall i: string ensures SheetInStep(clean, cap, w', r, i) {
      assert SheetInStep(clean, cap, w, r, i);
    }
  }

  lemma CarryOpen(clean: bool, cfg: Config, w: World, c: Conn, id: string, password: string, r: Sheets)
    requires InStep(clean, cfg.capacity, w, r) && c in w.conns && cfg.capacity >= 1
    ensures InStep(clean, cfg.capacity, HandleOpen(cfg, w, c, id, password), r)
  {
    var w' := HandleOpen(cfg, w, c, id, password);
    OpenCaches(cfg, w, c, id, password);
    if Opens(w, c, id, password) && id !in w.sheets {
      assert SheetInStep(clean, cfg.capacity, w, r, id);
      EmptyLag(clean, cfg.capacity, CacheOf(cfg.capacity, r, id));
      forall i: string ensures SheetInStep(clean, cfg.capacity, w', r, i) {
        assert SheetInStep(clean, cfg.capacity, w, r, i);
      }
    } else {
      CarrySame(clean, cfg.capacity, w, w', r);
    }
  }

  /** An open adds at most one sheet, an empty one, and touches no cache. */
  lemma OpenCaches(cfg: Config, w: World, c: Conn, id: string, password: string)
    requires c in w.conns
    ensures var w' := HandleOpen(cfg, w, c, id, password);
            && w'.sheets.Keys == (if Opens(w, c, id, password) then w.sheets.Keys + {id} else w.sheets.Keys)
            && (forall i :: i in w.sheets ==> w'.sheets[i].cache == w.sheets[i].cache)
            && (Opens(w, c, id, password) && id !in w.sheets ==> w'.sheets[id].cache == Lru.State([], cfg.capacity))
  {
  }

  /** A request without a sheet is only answered. */
  lemma CarryReply(clean: bool, cap: int, w: World, c: Conn, m: Message, r: Sheets)
    requires InStep(clean, cap, w, r)
    ensures InStep(clean, cap, Reply(w, c, m), r)
  {
    CarrySame(clean, cap, w, Reply(w, c, m), r);
  }

  lemma CarryAct(clean: bool, cfg: Config, w: World, c: Conn, req: Request, env: Env, d: Conn, r: Sheets, r': Sheets)
    requires Bookkeeping(w) && d in w.replicas && cfg.capacity >= 1 && c in w.conns
    requires InStep(clean, cfg.capacity, w, r) && Benign(w, Act(c, req), env, d)
    requires Folds(cfg.capacity, Appended(cfg, w, Act(c, req), env, d), r, r')
    ensures InStep(clean, cfg.capacity, HandleAction(cfg, w, c, req, env), r')
  {
    match req
    case Open(id, password) => CarryOpen(clean, cfg, w, c, id, password, r);
    case RegisterReplica(instanceId, validTime) =>
      CarrySame(clean, cfg.capacity, w, HandleRegisterReplica(w, c, instanceId, validTime), r);
    case _ => CarryRequest(clean, cfg, w, c, req, env, d, r, r');
  }

  lemma CarryRequest(clean: bool, cfg: Config, w: World, c: Conn, req: Request, env: Env, d: Conn, r: Sheets,
                     r': Sheets)
    requires Bookkeeping(w) && d in w.replicas && c in w.conns && !req.Open? && !req.RegisterReplica?
    requires InStep(clean, cfg.capacity, w, r) && Benign(w, Act(c, req), env, d)
    requires Folds(cfg.capacity, Appended(cfg, w, Act(c, req), env, d), r, r')
    ensures InStep(clean, cfg.capacity, HandleAction(cfg, w, c, req, env), r')
  {
    match w.conns[c]
    case None => CarryReply(clean, cfg.capacity, w, c, Err("must open sheet first"), r);
    case Some(id) =>
      NoCollaborator(w, d, id);
      CarryInSheet(clean, cfg, w, c, id, req, env, d, r, r');
  }

  lemma NoCollaborator(w: World, d: Conn, id: string)
    requires Bookkeeping(w) && d in w.replicas && id in w.sheets
    ensures d !in w.sheets[id].collaborators
  {
  }

  lemma CarryDisconnect(clean: bool, cfg: Config, w: World, c: Conn, env: Env, d: Conn, r: Sheets)
    requires Linked(w) && InStep(clean, cfg.capacity, w, r) && Benign(w, Disconnect(c), env, d) && c in w.conns
    ensures InStep(clean, cfg.capacity, OnDisconnect(w, c), r)
  {
    CarrySame(clean, cfg.capacity, w, OnDisconnect(w, c), r);
  }

  lemma CarryStep(clean: bool, cfg: Config, w: World, ev: Event, env: Env, d: Conn, r: Sheets, r': Sheets)
    requires Bookkeeping(w) && d in w.replicas && cfg.capacity >= 1
    requires InStep(clean, cfg.capacity, w, r) && Benign(w, ev, env, d)
    requires Folds(cfg.capacity, Appended(cfg, w, ev, env, d), r, r')
    ensures InStep(clean, cfg.capacity, Step(cfg, w, ev, env), r')
  {
    match ev
    case Act(c, req) => if c in w.conns { CarryAct(clean, cfg, w, c, req, env, d, r, r'); }
    case Sweep(id) =>
      if id in w.sheets { DumpSweep(w.sheets[id].cache.entries, env.now); }
      CarrySame(clean, cfg.capacity, w, Step(cfg, w, ev, env), r);
    case Disconnect(c) =>
      if c in w.conns {
        CarryDisconnect(clean, cfg, w, c, env, d, r);
      } else {
        CarrySame(clean, cfg.capacity, w, w, r);
      }
    case _ => CarrySame(clean, cfg.capacity, w, Step(cfg, w, ev, env), r);
  }

  // ----- the whole system

  /** The leader, one replica's sheets, and what is under way to it. */
  datatype System = System(world: World, sheets: Sheets, pending: seq<Message>)

  /** The leader takes a step, and what it writes to the replica is under way. */
  function Moved(cfg: Config, d: Conn, s: System, ev: Event, env: Env): System
    requires Linked(s.world)
  {
    var w' := Step(cfg, s.world, ev, env);
    System(w', s.sheets, s.pending + Fresh(s.world, w', d))
  }

  ghost predicate LeaderMoves(cfg: Config, d: Conn, s: System, s': System, ev: Event, env: Env) {
    Linked(s.world) && Benign(s.world, ev, env, d) && s' == Moved(cfg, d, s, ev, env)
  }

  ghost predicate Delivers(cfg: Config, s: System, s': System) {
    && s.pending != []
    && s'.world == s.world && s'.pending == s.pending[1..]
    && Applies(cfg.capacity, s.pending[0], s.sheets, s'.sheets)
  }

  ghost predicate Next(cfg: Config, d: Conn, s: System, s': System) {
    Delivers(cfg, s, s') || exists ev, env :: LeaderMoves(cfg, d, s, s', ev, env)
  }

  /** Caches in order, of the configured capacity, without the empty key. */
  ghost predicate CachesOk(cfg: Config, w: World) {
    forall id :: id in w.sheets ==> CacheOk(cfg, w.sheets[id].cache)
  }

  ghost predicate CacheOk(cfg: Config, s: Lru.State) {
    Lru.Valid(s) && s.capacity == cfg.capacity && "" !in Content(s)
  }

  predicate NamesKeys(ev: Event) {
    ev.Act? ==> match ev.req case Set(key, _, _) => key != "" case SetNull(key) => key != "" case _ => true
  }

  lemma CacheAfterOk(cfg: Config, s: Lru.State, req: Request, env: Env, c: Conn)
    requires CacheOk(cfg, s) && NamesKeys(Act(c, req))
    ensures CacheOk(cfg, CacheAfter(cfg, s, req, env))
  {
    match req
    case Set(key, value, jitter) =>
      Lru.SetKeepsValid(s, key, value, ExpiresAt(cfg, jitter, env));
      DumpSet(s, key, value, ExpiresAt(cfg, jitter, env));
    case SetNull(key) =>
      Lru.SetKeepsValid(s, key, NULL_PLACEHOLDER, ExpiresAt(cfg, false, env));
      DumpSet(s, key, NULL_PLACEHOLDER, ExpiresAt(cfg, false, env));
    case Get(key) =>
      Lru.GetKeepsValid(s, key, env.now);
      DumpHasKey(s.entries, "");
      NoNewKey(s, key, env.now);
      DumpHasKey(Lru.Get(s, key, env.now).state.entries, "");
    case Delete(key) => DumpWithout(s.entries, Lru.ByKey(key));
    case DeletePrefix(prefix) => DumpWithout(s.entries, Lru.ByPrefix(prefix));
    case DeleteSuffix(suffix) => DumpWithout(s.entries, Lru.BySuffix(suffix));
    case _ =>
  }

  lemma NoNewKey(s: Lru.State, key: string, now: int)
    requires !Lru.HasKey(s.entries, "")
    ensures !Lru.HasKey(Lru.Get(s, key, now).state.entries, "")
  {
    var es := Lru.Get(s, key, now).state.entries;
    forall i | 0 <= i < |es| ensures es[i].key != "" {
      assert es[i] in s.entries;
    }
  }

  lemma SweepOk(cfg: Config, cache: Lru.State, now: int)
    requires CacheOk(cfg, cache)
    ensures CacheOk(cfg, Lru.Delete(cache, Lru.ExpiredAt(now)))
  {
  }

  lemma InSheetCachesOk(cfg: Config, w: World, c: Conn, id: string, req: Request, env: Env)
    requires CachesOk(cfg, w) && NamesKeys(Act(c, req)) && id in w.sheets
    ensures CachesOk(cfg, HandleInSheet(cfg, w, c, id, req, env))
  {
    InSheetCaches(cfg, w, c, id, req, env);
    CacheAfterOk(cfg, w.sheets[id].cache, req, env, c);
  }

  lemma OpenCachesOk(cfg: Config, w: World, c: Conn, id: string, password: string)
    requires CachesOk(cfg, w) && c in w.conns
    ensures CachesOk(cfg, HandleOpen(cfg, w, c, id, password))
  {
    OpenCaches(cfg, w, c, id, password);
  }

  lemma ActCachesOk(cfg: Config, w: World, c: Conn, req: Request, env: Env)
    requires Linked(w) && CachesOk(cfg, w) && NamesKeys(Act(c, req)) && c in w.conns
    ensures CachesOk(cfg, HandleAction(cfg, w, c, req, env))
  {
    match req
    case Open(id, password) => OpenCachesOk(cfg, w, c, id, password);
    case RegisterReplica(_, _) =>
    case _ =>
      if w.conns[c].Some? {
        InSheetCachesOk(cfg, w, c, w.conns[c].value, req, env);
      } else {
        assert HandleAction(cfg, w, c, req, env).sheets == w.sheets;
      }
  }

  lemma CachesOkStep(cfg: Config, w: World, ev: Event, env: Env)
    requires Linked(w) && CachesOk(cfg, w) && NamesKeys(ev)
    ensures CachesOk(cfg, Step(cfg, w, ev, env))
  {
    match ev
    case Act(c, req) => if c in w.conns { ActCachesOk(cfg, w, c, req, env); }
    case Sweep(id) => if id in w.sheets { SweepOk(cfg, w.sheets[id].cache, env.now); }
    case _ =>
  }

  /** Every state a fresh leader reaches without empty keys is a state a replica may register in. */
  lemma {:induction false} CachesOkRun(cfg: Config, w: World, trace: Trace)
    requires Linked(w) && CachesOk(cfg, w) && forall i :: 0 <= i < |trace| ==> NamesKeys(trace[i].0)
    ensures CachesOk(cfg, Run(cfg, w, trace))
    decreases trace
  {
    if trace != [] {
      StepKeepsLinked(cfg, w, trace[0].0, trace[0].1);
      CachesOkStep(cfg, w, trace[0].0, trace[0].1);
      CachesOkRun(cfg, Step(cfg, w, trace[0].0, trace[0].1), trace[1..]);
    }
  }

  /** A replica has registered over connection d, be it for the first time or again with what it held before, and
      nothing has been delivered to it yet. */
  ghost predicate JustRegistered(cfg: Config, d: Conn, w: World, instanceId: string, s: System) {
    && Bookkeeping(w) && CachesOk(cfg, w) && d in w.conns && w.conns[d].None? && instanceId != ""
    && s.world == HandleRegisterReplica(w, d, instanceId, true)
    && (forall id :: id in s.sheets ==> SheetOk(false, cfg.capacity, s.sheets[id]))
    && s.pending == Fresh(w, s.world, d)
  }

  /** The invariant: whatever applying the pending messages leads to lags by no more than the slack in each sheet. */
  ghost predicate Tracks(clean: bool, cfg: Config, d: Conn, s: System) {
    && Bookkeeping(s.world) && d in s.world.replicas
    && forall r' :: Folds(cfg.capacity, s.pending, s.sheets, r') ==> InStep(clean, cfg.capacity, s.world, r')
  }

  lemma RegisteredTracks(clean: bool, cfg: Config, d: Conn, w: World, instanceId: string, s: System)
    requires JustRegistered(cfg, d, w, instanceId, s) && cfg.capacity >= 1 && (clean ==> s.sheets == map[])
    ensures Tracks(clean, cfg, d, s)
  {
    RegisterKeeps(w, d, instanceId, true);
    var m := FullStateOf(w.(replicas := w.replicas + {d}, clients := w.clients - {d}));
    assert s.pending == [m, Ok("")];
    assert s.world.sheets == w.sheets;
    forall r' | Folds(cfg.capacity, s.pending, s.sheets, r') ensures InStep(clean, cfg.capacity, s.world, r') {
      AcknowledgedInStep(clean, cfg, w, m, s.sheets, r');
      SameSheetsInStep(clean, cfg.capacity, w, s.world, r');
    }
  }

  lemma SameSheetsInStep(clean: bool, cap: int, w: World, w': World, r: Sheets)
    requires InStep(clean, cap, w, r) && w'.sheets == w.sheets
    ensures InStep(clean, cap, w', r)
  {
    forall id: string ensures SheetInStep(clean, cap, w', r, id) {
      assert SheetInStep(clean, cap, w, r, id);
    }
  }

  lemma AcknowledgedInStep(clean: bool, cfg: Config, w: World, m: Message, r: Sheets, r': Sheets)
    requires CachesOk(cfg, w) && cfg.capacity >= 1
    requires m == FullState(map id | id in w.sheets :: Lru.Dump(w.sheets[id].cache.entries))
    requires forall id :: id in r ==> SheetOk(clean, cfg.capacity, r[id])
    requires Folds(cfg.capacity, [m, Ok("")], r, r')
    ensures InStep(clean, cfg.capacity, w, r')
  {
    assert [m, Ok("")] == [m] + [Ok("")];
    var mid := FoldsSplit(cfg.capacity, [m], [Ok("")], r, r');
    FoldsOne(cfg.capacity, m, r, mid);
    FoldsOne(cfg.capacity, Ok(""), mid, r');
    FullStateInStep(clean, cfg, w, m, r, r');
  }

  /** A full state over whatever the replica holds: every sheet arrives whole, ahead of all that was there. */
  lemma FullStateInStep(clean: bool, cfg: Config, w: World, m: Message, r: Sheets, r': Sheets)
    requires CachesOk(cfg, w) && cfg.capacity >= 1
    requires m == FullState(map id | id in w.sheets :: Lru.Dump(w.sheets[id].cache.entries))
    requires forall id :: id in r ==> SheetOk(clean, cfg.capacity, r[id])
    requires Applies(cfg.capacity, m, r, r')
    ensures InStep(clean, cfg.capacity, w, r')
  {
    forall id: string ensures SheetInStep(clean, cfg.capacity, w, r', id) {
      if id in w.sheets {
        assert CacheOk(cfg, w.sheets[id].cache);
        LoadedLags(clean, cfg.capacity, w.sheets[id].cache, CacheOf(cfg.capacity, r, id), r'[id]);
      }
    }
  }

  lemma LoadedLags(clean: bool, cap: int, l: Lru.State, f: Lru.State, f': Lru.State)
    requires cap >= 1 && Lru.Valid(l) && l.capacity == cap && "" !in Content(l) && SheetOk(clean, cap, f)
    requires Loads(Content(l), f, f')
    ensures CacheLag(clean, cap, l, f')
  {
    DumpSize(l.entries);
    FullStateArrives(Content(l), f, f');
    LoadedFirst(f'.entries, Content(l).Keys);
    assert Content(l).Keys - Content(f').Keys == {};
  }

  lemma MoveTracks(clean: bool, cfg: Config, d: Conn, s: System, ev: Event, env: Env)
    requires Tracks(clean, cfg, d, s) && Benign(s.world, ev, env, d) && cfg.capacity >= 1
    ensures Tracks(clean, cfg, d, Moved(cfg, d, s, ev, env))
  {
    var s' := Moved(cfg, d, s, ev, env);
    BookkeepingExactly(cfg, s.world, ev, env);
    AppendedExactly(cfg, s.world, ev, env, d);
    StaysReplica(cfg, s.world, ev, env, d);
    var more := Appended(cfg, s.world, ev, env, d);
    assert Fresh(s.world, s'.world, d) == more;
    forall r' | Folds(cfg.capacity, s'.pending, s'.sheets, r') ensures InStep(clean, cfg.capacity, s'.world, r') {
      var mid := FoldsSplit(cfg.capacity, s.pending, more, s.sheets, r');
      CarryStep(clean, cfg, s.world, ev, env, d, mid, r');
    }
  }

  lemma ActionKeepsReplica(cfg: Config, w: World, c: Conn, req: Request, env: Env, d: Conn)
    requires Linked(w) && d in w.replicas && c in w.conns
    ensures d in HandleAction(cfg, w, c, req, env).replicas
  {
    match req
    case Open(_, _) =>
    case RegisterReplica(_, _) =>
    case _ => ActionMembership(cfg, w, c, req, env);
  }

  lemma StaysReplica(cfg: Config, w: World, ev: Event, env: Env, d: Conn)
    requires Linked(w) && d in w.replicas && !ActsItself(ev, d)
    ensures d in Step(cfg, w, ev, env).replicas
  {
    if ev.Act? && ev.c in w.conns { ActionKeepsReplica(cfg, w, ev.c, ev.req, env, d); }
  }

  lemma NextTracks(clean: bool, cfg: Config, d: Conn, s: System, s': System)
    requires Tracks(clean, cfg, d, s) && Next(cfg, d, s, s') && cfg.capacity >= 1
    ensures Tracks(clean, cfg, d, s')
  {
    if Delivers(cfg, s, s') {
      forall r' | Folds(cfg.capacity, s'.pending, s'.sheets, r') ensures InStep(clean, cfg.capacity, s'.world, r') {
        assert Folds(cfg.capacity, s.pending, s.sheets, r');
      }
    } else {
      var ev, env :| LeaderMoves(cfg, d, s, s', ev, env);
      MoveTracks(clean, cfg, d, s, ev, env);
    }
  }

  ghost predicate Behavior(cfg: Config, d: Conn, run: seq<System>) {
    run != [] && forall i :: 0 <= i < |run| - 1 ==> Next(cfg, d, run[i], run[i + 1])
  }

  lemma {:induction false} BehaviorTracks(clean: bool, cfg: Config, d: Conn, run: seq<System>, i: nat)
    requires Behavior(cfg, d, run) && Tracks(clean, cfg, d, run[0]) && i < |run| && cfg.capacity >= 1
    ensures Tracks(clean, cfg, d, run[i])
  {
    if i > 0 {
      BehaviorTracks(clean, cfg, d, run, i - 1);
      NextTracks(clean, cfg, d, run[i - 1], run[i]);
    }
  }

  /** A full leader leaves room for few others. */
  lemma StaleKeys(clean: bool, cap: int, l: Lru.State, f: Lru.State)
    requires CacheLag(clean, cap, l, f)
    ensures |Content(f).Keys - Content(l).Keys| <= cap - |Content(l)| + Slack(cap)
  {
    DumpSize(f.entries);
    SplitSizes(Content(f).Keys, Content(l).Keys);
  }

  lemma SplitSizes<K>(a: set<K>, b: set<K>)
    ensures |a - b| == |a| - |b| + |b - a|
  {
    assert a == (a - b) + a * b && b == (b - a) + a * b;
  }

  /**
   From a registration on, whatever the replica held before, in every reachable state of every interleaving of leader
   requests and deliveries, applying what is pending gives in every sheet: under a key of the leader's no other value
   than the leader's; at most one key of the leader's missing, and none if a sheet holds one key only; no more other
   keys than the leader has room for, plus the one. A replica that started with nothing has no others.
   */
  lemma {:induction false} ReplicaLagBound(cfg: Config, d: Conn, w: World, instanceId: string, run: seq<System>,
                                           i: nat, r': Sheets, id: string)
    requires cfg.capacity >= 1 && Behavior(cfg, d, run) && JustRegistered(cfg, d, w, instanceId, run[0]) && i < |run|
    requires Folds(cfg.capacity, run[i].pending, run[i].sheets, r') && id in run[i].world.sheets
    ensures var l, f := Content(run[i].world.sheets[id].cache), Content(CacheOf(cfg.capacity, r', id));
            && (forall k :: k in f && k in l ==> f[k] == l[k])
            && |l.Keys - f.Keys| <= Slack(cfg.capacity)
            && |f.Keys - l.Keys| <= cfg.capacity - |l| + Slack(cfg.capacity)
            && (run[0].sheets == map[] ==> Within(f, l))
  {
    var clean := run[0].sheets == map[];
    RegisteredTracks(clean, cfg, d, w, instanceId, run[0]);
    BehaviorTracks(clean, cfg, d, run, i);
    assert SheetInStep(clean, cfg.capacity, run[i].world, r', id);
    StaleKeys(clean, cfg.capacity, run[i].world.sheets[id].cache, CacheOf(cfg.capacity, r', id));
  }

  /** With nothing pending, that is a bound on the replica's own caches. */
  lemma {:induction false} DrainedReplicaLag(cfg: Config, d: Conn, w: World, instanceId: string, run: seq<System>,
                                             i: nat, id: string)
    requires cfg.capacity >= 1 && Behavior(cfg, d, run) && JustRegistered(cfg, d, w, instanceId, run[0]) && i < |run|
    requires run[i].pending == [] && id in run[i].world.sheets
    ensures var l, f := Content(run[i].world.sheets[id].cache), Content(CacheOf(cfg.capacity, run[i].sheets, id));
            Lags(f, l, Slack(cfg.capacity)) && (run[0].sheets == map[] ==> Within(f, l))
  {
    ReplicaLagBound(cfg, d, w, instanceId, run, i, run[i].sheets, id);
  }

  // ----- why nobody should be a collaborator and a replica at once

  /** A connection in both roles is told of a set twice, and its replica files one copy under the sheet "". */
  lemma BothRolesStrayCopy(cfg: Config, w: World, c: Conn, id: string, req: Request, env: Env, d: Conn, r: Sheets,
                           r': Sheets)
    requires id in w.sheets && id != "" && d in w.sheets[id].collaborators && d in w.replicas && req.Set?
    requires Folds(cfg.capacity, Heard(cfg, w, c, id, req, env, d), r, r')
    ensures var stray := Content(CacheOf(cfg.capacity, r', "")); req.key in stray && stray[req.key] == req.value
  {
    var cap, evicted := cfg.capacity, Lru.Set(w.sheets[id].cache, req.key, req.value,
                                              ExpiresAt(cfg, req.jitter, env)).evicted;
    var m, n := SetBroadcast(req.key, req.value), Replicate(id, req.key, req.value, req.jitter);
    assert Heard(cfg, w, c, id, req, env, d) == [m] + ([n] + HeardEviction(true, true, id, evicted));
    var mid := FoldsSplit(cap, [m], [n] + HeardEviction(true, true, id, evicted), r, r');
    FoldsOne(cap, m, r, mid);
    var exp: int :| mid == r["" := Lru.Set(CacheOf(cap, r, ""), req.key, req.value, exp).state];
    PutIsThere(CacheOf(cap, r, ""), req.key, req.value, exp);
    OtherSheetStays(cap, n, HeardEviction(true, true, id, evicted), id, mid, r');
  }

  lemma PutIsThere(s: Lru.State, key: string, value: Json, expiresAt: int)
    ensures var d := Content(Lru.Set(s, key, value, expiresAt).state); key in d && d[key] == value
  {
    var es := Lru.Set(s, key, value, expiresAt).state.entries;
    assert [es[0]] + es[1..] == es;
    DumpCons(es[0], es[1..]);
  }

  lemma OtherSheetStays(cap: int, n: Message, more: seq<Message>, id: string, r: Sheets, r': Sheets)
    requires n.Replicate? && n.sheet == id && id != "" && Folds(cap, [n] + more, r, r')
    requires forall i :: 0 <= i < |more| ==> more[i].Invalidate? || (more[i].ReplicateEvict? && more[i].sheet == id)
    ensures CacheOf(cap, r', "") == CacheOf(cap, r, "")
  {
    var mid := FoldsSplit(cap, [n], more, r, r');
    FoldsOne(cap, n, r, mid);
    EvictionsStay(cap, more, id, mid, r');
  }

  lemma {:induction false} EvictionsStay(cap: int, q: seq<Message>, id: string, r: Sheets, r': Sheets)
    requires id != "" && Folds(cap, q, r, r')
    requires forall i :: 0 <= i < |q| ==> q[i].Invalidate? || (q[i].ReplicateEvict? && q[i].sheet == id)
    ensures CacheOf(cap, r', "") == CacheOf(cap, r, "")
    decreases q
  {
    if q != [] {
      var mid :| Applies(cap, q[0], r, mid) && Folds(cap, q[1..], mid, r');
      EvictionsStay(cap, q[1..], id, mid, r');
    }
  }

  // ----- the bound is not vacuous and not improvable

  ghost function SomeLoad(data: Data, s: Lru.State): (s': Lru.State)
    ensures Loads(data, s, s')
    decreases data.Keys
  {
    if data == map[] then s
    else
      var k :| k in data;
      SomeLoad(data - {k}, Lru.Set(s, k, data[k], 0).state)
  }

  ghost function SomeApply(cap: int, m: Message, r: Sheets): (r': Sheets)
    ensures Applies(cap, m, r, r')
  {
    match m
    case FullState(sheets) =>
      map id | id in r.Keys + sheets.Keys :: if id in sheets then SomeLoad(sheets[id], CacheOf(cap, r, id)) else r[id]
    case Replicate(id, key, value, _) => r[id := Lru.Set(CacheOf(cap, r, id), key, value, 0).state]
    case SetBroadcast(key, value) => r["" := Lru.Set(CacheOf(cap, r, ""), key, value, 0).state]
    case ReplicateDelete(id, key) => Forget(r, id, Lru.ByKey(key))
    case ReplicateDeletePrefix(id, prefix) => Forget(r, id, Lru.ByPrefix(prefix))
    case ReplicateDeleteSuffix(id, suffix) => Forget(r, id, Lru.BySuffix(suffix))
    case ReplicateEvict(id, key) => Forget(r, id, Lru.ByKey(key))
    case _ => r
  }

  /** Every queue can be applied: deliveries never get stuck. */
  lemma {:induction false} QueueCanDrain(cap: int, queue: seq<Message>, r: Sheets)
    ensures exists r' :: Folds(cap, queue, r, r')
    decreases queue
  {
    if queue == [] {
      assert Folds(cap, [], r, r);
    } else {
      var mid := SomeApply(cap, queue[0], r);
      QueueCanDrain(cap, queue[1..], mid);
      var r' :| Folds(cap, queue[1..], mid, r');
      assert Folds(cap, queue, r, r');
    }
  }

  /** Applying two messages and then the rest. */
  lemma FoldsTwo(cap: int, m: Message, n: Message, r: Sheets, mid: Sheets, mid': Sheets, rest: seq<Message>, r': Sheets)
    requires Applies(cap, m, r, mid) && Applies(cap, n, mid, mid') && Folds(cap, rest, mid', r')
    ensures Folds(cap, [m, n] + rest, r, r')
  {
    var q := [m, n] + rest;
    assert q[1..][1..] == rest && q[1..][0] == n;
    assert Folds(cap, q[1..], mid, r');
  }

  /** Loading back to front, with the expiry times the leader has, restores the list: here after all but the first j. */
  lemma {:induction false} LoadInOrder(es: seq<Lru.Entry>, j: nat, cap: nat)
    requires Lru.Unique(es) && j <= |es| <= cap
    ensures Loads(Lru.Dump(es[..j]), Lru.State(es[j..], cap), Lru.State(es, cap))
  {
    if j == 0 {
      assert es[..0] == [] && es[0..] == es && Lru.Dump([]) == map[];
    } else {
      var e, a := es[j - 1], es[..j];
      assert a[..j - 1] == es[..j - 1] && a[j - 1] == e;
      DumpDropLast(a);
      DumpHas(a, j - 1);
      LoadInOrder(es, j - 1, cap);
      SetInFront(es, j, cap);
      LoadsFirst(Lru.Dump(a), e.key, e.expiresAt, Lru.State(es[j..], cap), Lru.State(es, cap));
    }
  }

  lemma SetInFront(es: seq<Lru.Entry>, j: nat, cap: nat)
    requires Lru.Unique(es) && 0 < j <= |es| <= cap
    ensures var e := es[j - 1];
            Lru.Set(Lru.State(es[j..], cap), e.key, e.value, e.expiresAt).state == Lru.State(es[j - 1..], cap)
  {
    assert [es[j - 1]] + es[j..] == es[j - 1..];
  }

  lemma LoadsFirst(data: Data, k: string, expiresAt: int, s: Lru.State, s': Lru.State)
    requires k in data && Loads(data - {k}, Lru.Set(s, k, data[k], expiresAt).state, s')
    ensures Loads(data, s, s')
  {
  }

  function CachesOf(w: World): Sheets {
    map id | id in w.sheets :: w.sheets[id].cache
  }

  /** The full state may arrive as an exact copy, list order included. */
  lemma FullStateCanCopy(cfg: Config, w: World)
    requires CachesOk(cfg, w) && cfg.capacity >= 1
    ensures Applies(cfg.capacity, FullStateOf(w), map[], CachesOf(w))
  {
    forall id | id in w.sheets
      ensures Loads(Content(w.sheets[id].cache), Lru.State([], cfg.capacity), w.sheets[id].cache)
    {
      var es := w.sheets[id].cache.entries;
      assert CacheOk(cfg, w.sheets[id].cache) && es[..|es|] == es && es[|es|..] == [];
      LoadInOrder(es, |es|, cfg.capacity);
    }
  }

  /** With everything pending applied, the replica's copy of sheet `id` may come to lack exactly one key. */
  ghost predicate MayMissOne(cfg: Config, s: System, id: string) {
    id in s.world.sheets &&
    exists r' :: Folds(cfg.capacity, s.pending, s.sheets, r') && Misses(cfg.capacity, s.world, r', id) == 1
  }

  function Misses(cap: int, w: World, r: Sheets, id: string): nat
    requires id in w.sheets
  {
    |Content(w.sheets[id].cache).Keys - Content(CacheOf(cap, r, id)).Keys|
  }

  lemma GetLast(es: seq<Lru.Entry>, cap: int, now: int)
    requires Lru.Unique(es) && es != [] && now <= es[|es| - 1].expiresAt
    ensures var e := es[|es| - 1];
            Lru.Get(Lru.State(es, cap), e.key, now).state == Lru.State([e] + es[..|es| - 1], cap)
  {
    var n := |es| - 1;
    Lru.WithoutKeyAt(es, n);
    Lru.FindUnique(es, n);
    assert es[..n] + es[n + 1..] == es[..n];
  }

  lemma SetSpares(e: Lru.Entry, rest: seq<Lru.Entry>, cap: int, f: Lru.Entry)
    requires |rest| >= 1 && |rest| + 1 == cap && !Lru.HasKey([e] + rest, f.key)
    ensures var r := Lru.Set(Lru.State([e] + rest, cap), f.key, f.value, f.expiresAt);
            r.evicted == rest[|rest| - 1].key && e.key in Content(r.state)
  {
    var all := [e] + rest;
    assert all[..cap - 1] == [e] + rest[..|rest| - 1];
    var put := [f] + all[..cap - 1];
    assert put[1] == e;
    DumpHasKey(put, e.key);
  }

  /** The leader looks up its last entry and stores a new one: the last but one goes. */
  lemma LeaderSpares(l: Lru.State, now: int, key: string, value: Json, expiresAt: int)
    requires Lru.Valid(l) && |l.entries| == l.capacity >= 2 && !Lru.HasKey(l.entries, key)
    requires now <= l.entries[l.capacity - 1].expiresAt
    ensures var last, out := l.entries[l.capacity - 1].key, l.entries[l.capacity - 2].key;
            var r := Lru.Set(Lru.Get(l, last, now).state, key, value, expiresAt);
            r.evicted == out && last in Content(r.state)
  {
    var es, n := l.entries, l.capacity;
    GetLast(es, n, now);
    var e, rest := es[n - 1], es[..n - 1];
    assert rest[n - 2] == es[n - 2];
    forall i | 0 <= i < n ensures ([e] + rest)[i].key != key {
      assert ([e] + rest)[i] == es[if i == 0 then n - 1 else i - 1];
    }
    SetSpares(e, rest, n, Lru.Entry(key, value, expiresAt));
  }

  /** The replica, which has not seen the look-up, pushes the last entry out and then drops the last but one too. */
  lemma ReplicaLoses(l: Lru.State, key: string, value: Json, expiresAt: int)
    requires Lru.Valid(l) && |l.entries| == l.capacity >= 2 && !Lru.HasKey(l.entries, key)
    ensures var last, out := l.entries[l.capacity - 1].key, l.entries[l.capacity - 2].key;
            last !in Content(Lru.Delete(Lru.Set(l, key, value, expiresAt).state, Lru.ByKey(out)))
  {
    var f := Lru.Set(l, key, value, expiresAt).state;
    DumpSet(l, key, value, expiresAt);
    DumpWithout(f.entries, Lru.ByKey(l.entries[l.capacity - 2].key));
    assert l.entries[l.capacity - 1].key != key;
  }

  /** A client in a full sheet is about to look up its last, unexpired entry and to store a key that is not there. */
  ghost predicate Ripe(cfg: Config, w: World, c: Conn, id: string, key: string, now: int) {
    && Bookkeeping(w) && CachesOk(cfg, w) && cfg.capacity >= 2
    && c in w.conns && w.conns[c] == Some(id) && id in w.sheets
    && |w.sheets[id].cache.entries| == cfg.capacity && now <= w.sheets[id].cache.entries[cfg.capacity - 1].expiresAt
    && key != "" && !Lru.HasKey(w.sheets[id].cache.entries, key)
  }

  lemma MoveIsNext(cfg: Config, d: Conn, s: System, ev: Event, env: Env)
    requires Linked(s.world) && Benign(s.world, ev, env, d)
    ensures Next(cfg, d, s, Moved(cfg, d, s, ev, env))
  {
    assert LeaderMoves(cfg, d, s, Moved(cfg, d, s, ev, env), ev, env);
  }

  /** Client c, which is not d, is in sheet `id`, and replica d is not. */
  ghost predicate Placed(w: World, c: Conn, d: Conn, id: string) {
    && Linked(w) && c in w.conns && w.conns[c] == Some(id) && c != d
    && d in w.replicas && id in w.sheets && d !in w.sheets[id].collaborators
  }

  /** It still is when a replica has registered. */
  lemma RipeIsPlaced(cfg: Config, w: World, w': World, c: Conn, id: string, key: string, now: int, d: Conn)
    requires Ripe(cfg, w, c, id, key, now)
    requires Bookkeeping(w') && w'.sheets == w.sheets && w'.conns == w.conns && d in w'.replicas
    ensures Placed(w', c, d, id)
    ensures var l := w.sheets[id].cache;
            Lru.Valid(l) && l.capacity == cfg.capacity && l.entries[cfg.capacity - 2].key != ""
  {
    NoCollaborator(w', d, id);
    assert CacheOk(cfg, w.sheets[id].cache);
    DumpHas(w.sheets[id].cache.entries, cfg.capacity - 2);
  }

  /** A look-up is served; nobody hears of it. */
  lemma ServeGet(cfg: Config, d: Conn, s: System, c: Conn, id: string, key: string, env: Env) returns (s1: System)
    requires Placed(s.world, c, d, id)
    requires var es := s.world.sheets[id].cache.entries;
             Lru.HasKey(es, key) ==> env.now <= Lru.Find(es, key).expiresAt
    ensures Next(cfg, d, s, s1) && s1.sheets == s.sheets && s1.pending == s.pending
    ensures Placed(s1.world, c, d, id)
            && s1.world.sheets[id].cache == Lru.Get(s.world.sheets[id].cache, key, env.now).state
  {
    s1 := Moved(cfg, d, s, Act(c, Get(key)), env);
    assert s1.world == HandleInSheet(cfg, s.world, c, id, Get(key), env);
    InSheetCaches(cfg, s.world, c, id, Get(key), env);
    InSheetMembership(cfg, s.world, c, id, Get(key), env);
    MembersStayLinked(s.world, s1.world);
    HeardExactly(cfg, s.world, c, id, Get(key), env, d);
    MoveIsNext(cfg, d, s, Act(c, Get(key)), env);
  }

  /** A set is served; the replica hears of the pair and of the eviction. */
  lemma ServeSet(cfg: Config, d: Conn, s: System, c: Conn, id: string, req: Request, env: Env, out: string)
    returns (s1: System)
    requires Placed(s.world, c, d, id) && req.Set? && req.key != "" && out != ""
    requires Lru.Set(s.world.sheets[id].cache, req.key, req.value, ExpiresAt(cfg, req.jitter, env)).evicted == out
    ensures Next(cfg, d, s, s1) && s1.sheets == s.sheets
    ensures s1.pending == s.pending + [Replicate(id, req.key, req.value, req.jitter), ReplicateEvict(id, out)]
    ensures id in s1.world.sheets && s1.world.sheets[id].cache == CacheAfter(cfg, s.world.sheets[id].cache, req, env)
  {
    s1 := Moved(cfg, d, s, Act(c, req), env);
    assert s1.world == HandleInSheet(cfg, s.world, c, id, req, env);
    InSheetCaches(cfg, s.world, c, id, req, env);
    SetHeard(cfg, s.world, c, id, req, env, d, out);
    MoveIsNext(cfg, d, s, Act(c, req), env);
  }

  lemma SetHeard(cfg: Config, w: World, c: Conn, id: string, req: Request, env: Env, d: Conn, out: string)
    requires id in w.sheets && c != d && d in w.replicas && d !in w.sheets[id].collaborators && req.Set? && out != ""
    requires Lru.Set(w.sheets[id].cache, req.key, req.value, ExpiresAt(cfg, req.jitter, env)).evicted == out
    ensures Queue(HandleInSheet(cfg, w, c, id, req, env).sent, d)
            == Queue(w.sent, d) + [Replicate(id, req.key, req.value, req.jitter), ReplicateEvict(id, out)]
  {
    HeardExactly(cfg, w, c, id, req, env, d);
    assert Heard(cfg, w, c, id, req, env, d)
        == [Replicate(id, req.key, req.value, req.jitter), ReplicateEvict(id, out)];
  }

  lemma MembersStayLinked(w: World, w': World)
    requires Linked(w) && SameMembership(w, w')
    ensures Linked(w')
  {
  }

  /** Both requests are served: the leader keeps its last entry, and the last but one is told to go. */
  lemma ServeBoth(cfg: Config, d: Conn, s: System, c: Conn, id: string, key: string, value: Json, jitter: bool,
                  env: Env, env': Env) returns (s1: System, s2: System)
    requires Placed(s.world, c, d, id) && key != ""
    requires var l := s.world.sheets[id].cache;
             && Lru.Valid(l) && |l.entries| == l.capacity >= 2 && !Lru.HasKey(l.entries, key)
             && env.now <= l.entries[l.capacity - 1].expiresAt && l.entries[l.capacity - 2].key != ""
    ensures Next(cfg, d, s, s1) && Next(cfg, d, s1, s2) && s2.sheets == s.sheets
    ensures var l := s.world.sheets[id].cache;
            var last, out := l.entries[l.capacity - 1].key, l.entries[l.capacity - 2].key;
            && s2.pending == s.pending + [Replicate(id, key, value, jitter), ReplicateEvict(id, out)]
            && id in s2.world.sheets && last in Content(s2.world.sheets[id].cache)
  {
    var l := s.world.sheets[id].cache;
    var last, out := l.entries[l.capacity - 1].key, l.entries[l.capacity - 2].key;
    LeaderSpares(l, env.now, key, value, ExpiresAt(cfg, jitter, env'));
    Lru.FindUnique(l.entries, l.capacity - 1);
    s1 := ServeGet(cfg, d, s, c, id, last, env);
    s2 := ServeSet(cfg, d, s1, c, id, Set(key, value, jitter), env', out);
  }

  lemma LosingRun(cfg: Config, d: Conn, s: System, c: Conn, id: string, key: string, value: Json, jitter: bool,
                  env: Env, env': Env) returns (run: seq<System>)
    requires Placed(s.world, c, d, id) && key != ""
    requires var l := s.world.sheets[id].cache;
             && Lru.Valid(l) && |l.entries| == l.capacity >= 2 && !Lru.HasKey(l.entries, key)
             && env.now <= l.entries[l.capacity - 1].expiresAt && l.entries[l.capacity - 2].key != ""
    ensures |run| == 3 && run[0] == s && Behavior(cfg, d, run) && run[2].sheets == s.sheets
    ensures var l := s.world.sheets[id].cache;
            var last, out := l.entries[l.capacity - 1].key, l.entries[l.capacity - 2].key;
            && run[2].pending == s.pending + [Replicate(id, key, value, jitter), ReplicateEvict(id, out)]
            && id in run[2].world.sheets && last in Content(run[2].world.sheets[id].cache)
  {
    var s1, s2 := ServeBoth(cfg, d, s, c, id, key, value, jitter, env, env');
    ThreeStates(cfg, d, s, s1, s2);
    run := [s, s1, s2];
  }

  lemma ReplicateApplies(cap: int, r: Sheets, id: string, key: string, value: Json, jitter: bool)
    ensures Applies(cap, Replicate(id, key, value, jitter), r,
                    r[id := Lru.Set(CacheOf(cap, r, id), key, value, 0).state])
  {
  }

  /** A copy that is exact so far loses its last key to the two messages. */
  lemma CopyLoses(cap: int, l: Lru.State, r: Sheets, id: string, key: string, value: Json, jitter: bool)
    returns (r': Sheets)
    requires Lru.Valid(l) && |l.entries| == l.capacity >= 2 && !Lru.HasKey(l.entries, key) && id in r && r[id] == l
    ensures var out := l.entries[l.capacity - 2].key;
            Folds(cap, [Replicate(id, key, value, jitter), ReplicateEvict(id, out)], r, r')
    ensures l.entries[l.capacity - 1].key !in Content(CacheOf(cap, r', id))
  {
    var out := l.entries[l.capacity - 2].key;
    var m1, m2 := Replicate(id, key, value, jitter), ReplicateEvict(id, out);
    var mid := r[id := Lru.Set(l, key, value, 0).state];
    r' := Forget(mid, id, Lru.ByKey(out));
    ReplicaLoses(l, key, value, 0);
    ReplicateApplies(cap, r, id, key, value, jitter);
    FoldsTwo(cap, m1, m2, r, mid, r', [], r');
    assert [m1, m2] + [] == [m1, m2];
  }

  /** Applying a full state as an exact copy, the acknowledgement and the two messages. */
  lemma CopyThenLose(cfg: Config, w: World, id: string, key: string, value: Json, jitter: bool) returns (r': Sheets)
    requires CachesOk(cfg, w) && cfg.capacity >= 2 && id in w.sheets
    requires |w.sheets[id].cache.entries| == cfg.capacity && !Lru.HasKey(w.sheets[id].cache.entries, key)
    ensures var out := w.sheets[id].cache.entries[cfg.capacity - 2].key;
            Folds(cfg.capacity,
                  [FullStateOf(w), Ok("")] + [Replicate(id, key, value, jitter), ReplicateEvict(id, out)], map[], r')
    ensures w.sheets[id].cache.entries[cfg.capacity - 1].key !in Content(CacheOf(cfg.capacity, r', id))
  {
    var l := w.sheets[id].cache;
    assert CacheOk(cfg, l);
    var out := l.entries[cfg.capacity - 2].key;
    var more := [Replicate(id, key, value, jitter), ReplicateEvict(id, out)];
    r' := CopyLoses(cfg.capacity, l, CachesOf(w), id, key, value, jitter);
    assert Folds(cfg.capacity, [FullStateOf(w), Ok("")] + more, map[], r') by {
      FullStateCanCopy(cfg, w);
      FoldsTwo(cfg.capacity, FullStateOf(w), Ok(""), map[], CachesOf(w), CachesOf(w), more, r');
    }
  }

  lemma ThreeStates(cfg: Config, d: Conn, s0: System, s1: System, s2: System)
    requires Next(cfg, d, s0, s1) && Next(cfg, d, s1, s2)
    ensures Behavior(cfg, d, [s0, s1, s2])
  {
  }

  lemma Registered(cfg: Config, d: Conn, w: World, instanceId: string) returns (s: System)
    requires Bookkeeping(w) && CachesOk(cfg, w) && d in w.conns && w.conns[d].None? && instanceId != ""
    ensures JustRegistered(cfg, d, w, instanceId, s) && s.sheets == map[]
    ensures Bookkeeping(s.world) && s.world.sheets == w.sheets && s.world.conns == w.conns && d in s.world.replicas
    ensures s.pending == [FullStateOf(w), Ok("")]
  {
    var w' := HandleRegisterReplica(w, d, instanceId, true);
    RegisterKeeps(w, d, instanceId, true);
    s := System(w', map[], [FullStateOf(w), Ok("")]);
    assert Queue(w'.sent, d) == Queue(w.sent, d) + [FullStateOf(w), Ok("")];
  }

  /**
   The bound is met at every capacity but one: from any state with a full sheet and a client in it, some run of the
   system since a replica's registration ends in a state where the replica may come to lack a key.
   */
  lemma {:induction false} LagIsTight(cfg: Config, d: Conn, w: World, instanceId: string, c: Conn, id: string,
                                      key: string, value: Json, jitter: bool, env: Env, env': Env)
    requires Ripe(cfg, w, c, id, key, env.now) && d in w.conns && w.conns[d].None? && instanceId != ""
    ensures exists run: seq<System> :: Behavior(cfg, d, run) && JustRegistered(cfg, d, w, instanceId, run[0])
                                       && run[0].sheets == map[] && MayMissOne(cfg, run[|run| - 1], id)
  {
    var s0 := Registered(cfg, d, w, instanceId);
    RipeIsPlaced(cfg, w, s0.world, c, id, key, env.now, d);
    var run := LosingRun(cfg, d, s0, c, id, key, value, jitter, env, env');
    var r' := CopyThenLose(cfg, w, id, key, value, jitter);
    ExactlyOneMissing(cfg, d, w, instanceId, run, 2, r', id, w.sheets[id].cache.entries[cfg.capacity - 1].key);
  }

  /** One missing key is enough, because the bound allows no second. */
  lemma {:induction false} ExactlyOneMissing(cfg: Config, d: Conn, w: World, instanceId: string, run: seq<System>,
                                             i: nat, r': Sheets, id: string, key: string)
    requires cfg.capacity >= 1 && Behavior(cfg, d, run) && JustRegistered(cfg, d, w, instanceId, run[0]) && i < |run|
    requires Folds(cfg.capacity, run[i].pending, run[i].sheets, r') && id in run[i].world.sheets
    requires key in Content(run[i].world.sheets[id].cache) && key !in Content(CacheOf(cfg.capacity, r', id))
    ensures MayMissOne(cfg, run[i], id)
  {
    ReplicaLagBound(cfg, d, w, instanceId, run, i, r', id);
    NonEmpty(Content(run[i].world.sheets[id].cache).Keys - Content(CacheOf(cfg.capacity, r', id)).Keys, key);
    assert Misses(cfg.capacity, run[i].world, r', id) == 1;
  }
}
