/** The cache seen as a map: what each operation does to Dump, and how far one cache may lag behind another. */
module Contents {
  import opened Prelude
  import opened Lru

  type Data = map<string, Json>

  /** What a cache holds, as the map its Dump returns. */
  function Content(s: State): Data {
    Dump(s.entries)
  }

  lemma DumpHas(es: seq<Entry>, i: nat)
    requires Unique(es) && i < |es|
    ensures es[i].key in Dump(es) && Dump(es)[es[i].key] == es[i].value
  {
  }

  lemma DumpSize(es: seq<Entry>)
    requires Unique(es)
    ensures |Dump(es)| == |es|
  {
    KeysCount(es);
    assert Dump(es).Keys == Keys(es);
    assert |Dump(es)| == |Dump(es).Keys|;
  }

  lemma DumpHasKey(es: seq<Entry>, k: string)
    ensures HasKey(es, k) <==> k in Dump(es)
  {
  }

  lemma DumpCons(e: Entry, es: seq<Entry>)
    ensures Dump([e] + es) == Dump(es)[e.key := e.value]
  {
    KeysCons(e, es);
    var r := [e] + es;
    assert r[1..] == es && r[0] == e;
    assert Dump(r).Keys == Keys(r) && Dump(es).Keys == Keys(es);
    forall k | k in Keys(r) ensures Dump(r)[k] == Dump(es)[e.key := e.value][k] {
      if k != e.key { assert k in Keys(es) && HasKey(es, k); }
    }
    assert Dump(r) == Dump(es)[e.key := e.value];
  }

  /** The pairs a key selector spares. */
  function Spared(d: Data, sel: Selector): Data
    requires !sel.ExpiredAt?
  {
    map k | k in d && !SelectsKey(sel, k) :: d[k]
  }

  lemma SparedKey(d: Data, key: string)
    ensures Spared(d, ByKey(key)) == d - {key}
    ensures d - {key} == d <==> key !in d
  {
  }

  lemma SparedPut(d: Data, sel: Selector, k: string, v: Json)
    requires !sel.ExpiredAt?
    ensures Spared(d[k := v], sel) == if SelectsKey(sel, k) then Spared(d, sel) else Spared(d, sel)[k := v]
  {
  }

  lemma {:induction false} DumpWithout(es: seq<Entry>, sel: Selector)
    requires !sel.ExpiredAt?
    ensures Dump(Without(es, sel)) == Spared(Dump(es), sel)
  {
    if es == [] {
      assert Dump(es) == map[];
    } else {
      DumpWithout(es[1..], sel);
      assert [es[0]] + es[1..] == es;
      DumpCons(es[0], es[1..]);
      SparedPut(Dump(es[1..]), sel, es[0].key, es[0].value);
      DumpCons(es[0], Without(es[1..], sel));
    }
  }

  /** A bulk delete takes out as many entries as there are keys that match. */
  lemma RemovedCount(es: seq<Entry>, sel: Selector)
    requires Unique(es) && !sel.ExpiredAt?
    ensures |es| - |Without(es, sel)| == |set k | k in Keys(es) && SelectsKey(sel, k)|
  {
    var hit := set k | k in Keys(es) && SelectsKey(sel, k);
    DumpWithout(es, sel);
    DumpSize(es);
    DumpSize(Without(es, sel));
    assert Dump(es).Keys == Keys(es);
    SparedSplits(Dump(es), sel, hit);
    CountSplit(Dump(es), Spared(Dump(es), sel), hit);
  }

  /** What a bulk delete takes, with the pattern written out. */
  lemma RemovedByPrefix(es: seq<Entry>, prefix: string)
    requires Unique(es)
    ensures forall k :: k in Dump(Without(es, ByPrefix(prefix)))
                        <==> k in Dump(es) && !exists rest :: k == prefix + rest
    ensures var rest := Dump(Without(es, ByPrefix(prefix))); forall k :: k in rest ==> rest[k] == Dump(es)[k]
    ensures |es| - |Without(es, ByPrefix(prefix))| == |set k | k in Dump(es) && (exists rest :: k == prefix + rest)|
  {
    DumpWithout(es, ByPrefix(prefix));
    RemovedCount(es, ByPrefix(prefix));
    PrefixesExactly(prefix);
    assert (set k | k in Keys(es) && SelectsKey(ByPrefix(prefix), k))
        == (set k | k in Dump(es) && exists rest :: k == prefix + rest);
  }

  lemma RemovedBySuffix(es: seq<Entry>, suffix: string)
    requires Unique(es)
    ensures forall k :: k in Dump(Without(es, BySuffix(suffix)))
                        <==> k in Dump(es) && !exists rest :: k == rest + suffix
    ensures var rest := Dump(Without(es, BySuffix(suffix))); forall k :: k in rest ==> rest[k] == Dump(es)[k]
    ensures |es| - |Without(es, BySuffix(suffix))| == |set k | k in Dump(es) && (exists rest :: k == rest + suffix)|
  {
    DumpWithout(es, BySuffix(suffix));
    RemovedCount(es, BySuffix(suffix));
    SuffixesExactly(suffix);
    assert (set k | k in Keys(es) && SelectsKey(BySuffix(suffix), k))
        == (set k | k in Dump(es) && exists rest :: k == rest + suffix);
  }

  lemma SparedSplits(d: Data, sel: Selector, hit: set<string>)
    requires !sel.ExpiredAt? && hit == set k | k in d.Keys && SelectsKey(sel, k)
    ensures d.Keys == Spared(d, sel).Keys + hit && Spared(d, sel).Keys !! hit
  {
  }

  lemma CountSplit<K, V>(d: map<K, V>, kept: map<K, V>, gone: set<K>)
    requires d.Keys == kept.Keys + gone && kept.Keys !! gone
    ensures |d| - |kept| == |gone|
  {
  }

  /** The key a Set pushes out, if any. */
  function PushedOut(s: State, key: string): Option<string> {
    if !HasKey(s.entries, key) && 0 < s.capacity <= |s.entries| then Some(s.entries[|s.entries| - 1].key) else None
  }

  lemma WithoutLast(es: seq<Entry>)
    requires Unique(es) && es != []
    ensures Without(es, ByKey(es[|es| - 1].key)) == es[..|es| - 1]
  {
    WithoutKeyAt(es, |es| - 1);
  }

  lemma DumpDropLast(es: seq<Entry>)
    requires Unique(es) && es != []
    ensures Dump(es[..|es| - 1]) == Dump(es) - {es[|es| - 1].key}
    ensures es[|es| - 1].key in Dump(es)
  {
    var last := |es| - 1;
    WithoutLast(es);
    DumpWithout(es, ByKey(es[last].key));
    assert Spared(Dump(es), ByKey(es[last].key)) == Dump(es) - {es[last].key};
    DumpHas(es, last);
  }

  lemma DumpReplace(es: seq<Entry>, e: Entry)
    ensures Dump([e] + Without(es, ByKey(e.key))) == Dump(es)[e.key := e.value]
  {
    DumpWithout(es, ByKey(e.key));
    DumpCons(e, Without(es, ByKey(e.key)));
    assert Spared(Dump(es), ByKey(e.key))[e.key := e.value] == Dump(es)[e.key := e.value];
  }

  lemma DumpSet(s: State, key: string, value: Json, expiresAt: int)
    requires Valid(s)
    ensures var r := Set(s, key, value, expiresAt);
            match PushedOut(s, key)
            case None => Dump(r.state.entries) == Dump(s.entries)[key := value] && r.evicted == ""
            case Some(out) => Dump(r.state.entries) == (Dump(s.entries) - {out})[key := value] && r.evicted == out
                              && out in Dump(s.entries) && out != key
  {
    var e := Entry(key, value, expiresAt);
    var es := s.entries;
    if HasKey(es, key) {
      DumpReplace(es, e);
    } else if 0 < s.capacity <= |es| {
      DumpDropLast(es);
      DumpCons(e, es[..|es| - 1]);
    } else {
      DumpCons(e, es);
    }
  }

  /** A Get that finds its entry alive changes no content. */
  lemma DumpGet(s: State, key: string, now: int)
    requires HasKey(s.entries, key) ==> now <= Find(s.entries, key).expiresAt
    ensures Dump(Get(s, key, now).state.entries) == Dump(s.entries)
  {
    if HasKey(s.entries, key) {
      DumpHasKey(s.entries, key);
      DumpReplace(s.entries, Find(s.entries, key));
      SamePut(Dump(s.entries), key);
    }
  }

  lemma SamePut(d: Data, k: string)
    requires k in d
    ensures d[k := d[k]] == d
  {
  }

  lemma DumpSweep(es: seq<Entry>, now: int)
    requires forall e :: e in es ==> now <= e.expiresAt
    ensures Without(es, ExpiredAt(now)) == es
  {
    WithoutNone(es, ExpiredAt(now));
  }

  /** A sweep shows in the contents exactly if some entry has expired. */
  lemma SweepShows(es: seq<Entry>, now: int)
    requires Unique(es)
    ensures Dump(Without(es, ExpiredAt(now))) == Dump(es) <==> forall e :: e in es ==> now <= e.expiresAt
  {
    var rest := Without(es, ExpiredAt(now));
    if e :| e in es && now > e.expiresAt {
      forall i | 0 <= i < |rest| ensures rest[i].key != e.key {
        assert rest[i] in rest;
        if rest[i].key == e.key { SameKeySame(es, e, rest[i]); }
      }
      DumpHasKey(rest, e.key);
      DumpHasKey(es, e.key);
    } else {
      DumpSweep(es, now);
    }
  }

  // ----- one cache lagging behind another

  /** Everything in `f` is in `l` with the same value. */
  ghost predicate Within<K, V>(f: map<K, V>, l: map<K, V>) {
    f.Keys <= l.Keys && forall k :: k in f ==> f[k] == l[k]
  }

  lemma LagSizes<K, V>(f: map<K, V>, l: map<K, V>)
    requires Within(f, l)
    ensures |l| == |f| + |l.Keys - f.Keys|
  {
  }

  /** Where both have a key they have the same value, and `f` misses at most `slack` keys. It may have others. */
  ghost predicate Lags<K, V>(f: map<K, V>, l: map<K, V>, slack: nat) {
    (forall k :: k in f && k in l ==> f[k] == l[k]) && |l.Keys - f.Keys| <= slack
  }

  lemma LagDelete(f: Data, l: Data, sel: Selector, slack: nat)
    requires Lags(f, l, slack) && !sel.ExpiredAt?
    ensures Lags(Spared(f, sel), Spared(l, sel), slack)
  {
    SmallSet(Spared(l, sel).Keys - Spared(f, sel).Keys, l.Keys - f.Keys);
  }

  function Minus<K, V>(f: map<K, V>, own: Option<K>): map<K, V> {
    if own.Some? then f - {own.value} else f
  }

  /** What the follower pushes out is nothing the leader has. */
  lemma LagPut<K, V>(f: map<K, V>, l: map<K, V>, key: K, value: V, own: Option<K>, slack: nat)
    requires Lags(f, l, slack) && (own.Some? ==> own.value !in l)
    ensures Lags(Minus(f, own)[key := value], l[key := value], slack)
  {
    SmallSet(l[key := value].Keys - Minus(f, own)[key := value].Keys, l.Keys - f.Keys);
  }

  /**
   The leader, at capacity `cap`, pushes `out` out. The follower may push out a key of its own: one the leader does not
   have, or any if it has just the leader's keys. Then it is told to drop `out`. With one key there is no choice.
   */
  lemma LagEvict<K, V>(f: map<K, V>, l: map<K, V>, key: K, value: V, out: K, own: Option<K>, slack: nat)
    requires Lags(f, l, slack) && key !in l && out in l && key != out
    requires own.Some? && own.value in l ==> f.Keys == l.Keys && (if slack == 0 then |l| == 1 else true)
    ensures Lags(Minus(f, own)[key := value] - {out}, (l - {out})[key := value], slack)
  {
    var f0 := Minus(f, own);
    var missing := (l - {out}).Keys - (f0 - {out}).Keys;
    if own.Some? && own.value in l {
      assert missing <= {own.value} - {out};
      if slack == 0 { OnlyOne(l.Keys, own.value, out); }
      SmallSet(missing, {own.value} - {out});
    } else {
      SmallSet(missing, l.Keys - f.Keys);
    }
    PutThenDrop(f0, key, value, out);
    LagPut(f0 - {out}, l - {out}, key, value, None, slack);
  }

  lemma OnlyOne<K>(s: set<K>, x: K, y: K)
    requires |s| == 1 && x in s && y in s
    ensures x == y
  {
    SmallSet({x, y}, s);
  }

  lemma PutThenDrop<K, V>(f: map<K, V>, key: K, value: V, out: K)
    requires key != out
    ensures f[key := value] - {out} == (f - {out})[key := value]
  {
  }
}
