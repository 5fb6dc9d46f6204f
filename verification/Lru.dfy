/** The cache of cache/cache.go as a plain value: its entries, most recently used first. */
module Lru {
  import opened Prelude

  datatype Entry = Entry(key: string, value: Json, expiresAt: int)

  /** A capacity of zero or less means unlimited. */
  datatype State = State(entries: seq<Entry>, capacity: int)

  /** Which entries a delete or a sweep removes. */
  datatype Selector =
    | ByKey(key: string)
    | ByPrefix(prefix: string)
    | BySuffix(suffix: string)
    | AnyOf(keys: set<string>)
    | ExpiredAt(now: int)

  predicate SelectsKey(sel: Selector, key: string)
    requires !sel.ExpiredAt?
  {
    match sel
    case ByKey(k) => key == k
    case ByPrefix(p) => HasPrefix(key, p)
    case BySuffix(s) => HasSuffix(key, s)
    case AnyOf(ks) => key in ks
  }

  predicate Selects(sel: Selector, e: Entry) {
    if sel.ExpiredAt? then sel.now > e.expiresAt else SelectsKey(sel, e.key)
  }

  predicate Unique(es: seq<Entry>) {
    forall i, j :: 0 <= i < j < |es| ==> es[i].key != es[j].key
  }

  ghost predicate Valid(s: State) {
    && Unique(s.entries)
    && (s.capacity > 0 ==> |s.entries| <= s.capacity)
  }

  predicate HasKey(es: seq<Entry>, key: string) {
    exists i :: 0 <= i < |es| && es[i].key == key
  }

  function Keys(es: seq<Entry>): set<string> {
    set i | 0 <= i < |es| :: es[i].key
  }

  function Find(es: seq<Entry>, key: string): (e: Entry)
    requires HasKey(es, key)
    ensures e in es && e.key == key
  {
    if es[0].key == key then es[0]
    else
      assert HasKey(es[1..], key) by {
        var i :| 0 <= i < |es| && es[i].key == key;
        assert es[1..][i - 1].key == key;
      }
      Find(es[1..], key)
  }

  /** The key-value pairs, as Dump returns them. */
  function Dump(es: seq<Entry>): map<string, Json> {
    map k | k in Keys(es) :: Find(es, k).value
  }

  lemma UniqueCons(e: Entry, es: seq<Entry>)
    requires Unique(es) && forall x :: x in es ==> x.key != e.key
    ensures Unique([e] + es)
  {
  }

  /** The entries a selector spares, in their old order. */
  function Without(es: seq<Entry>, sel: Selector): (r: seq<Entry>)
    ensures forall e :: e in r <==> e in es && !Selects(sel, e)
    ensures |r| <= |es|
    ensures Unique(es) ==> Unique(r)
  {
    if es == [] then []
    else
      var rest := Without(es[1..], sel);
      if Selects(sel, es[0]) then rest
      else
        assert Unique(es) ==> Unique([es[0]] + rest) by {
          if Unique(es) { UniqueCons(es[0], rest); }
        }
        [es[0]] + rest
  }

  datatype GetResult = GetResult(state: State, found: Option<Json>)
  datatype SetResult = SetResult(state: State, evicted: string)

  function Get(s: State, key: string, now: int): GetResult {
    if !HasKey(s.entries, key) then GetResult(s, None)
    else
      var e := Find(s.entries, key);
      var rest := Without(s.entries, ByKey(key));
      if now > e.expiresAt then GetResult(s.(entries := rest), None)
      else GetResult(s.(entries := [e] + rest), Some(e.value))
  }

  function Set(s: State, key: string, value: Json, expiresAt: int): SetResult {
    var e := Entry(key, value, expiresAt);
    if HasKey(s.entries, key) then
      SetResult(s.(entries := [e] + Without(s.entries, ByKey(key))), "")
    else if s.capacity > 0 && |s.entries| >= s.capacity then
      var last := |s.entries| - 1;
      SetResult(s.(entries := [e] + s.entries[..last]), s.entries[last].key)
    else
      SetResult(s.(entries := [e] + s.entries), "")
  }

  function Delete(s: State, sel: Selector): State {
    s.(entries := Without(s.entries, sel))
  }

  lemma GetKeepsValid(s: State, key: string, now: int)
    requires Valid(s)
    ensures Valid(Get(s, key, now).state)
  {
    if HasKey(s.entries, key) {
      DropsOne(s.entries, key);
      UniqueCons(Find(s.entries, key), Without(s.entries, ByKey(key)));
    }
  }

  lemma SetKeepsValid(s: State, key: string, value: Json, expiresAt: int)
    requires Valid(s)
    ensures Valid(Set(s, key, value, expiresAt).state)
  {
    var e := Entry(key, value, expiresAt);
    if HasKey(s.entries, key) {
      DropsOne(s.entries, key);
      UniqueCons(e, Without(s.entries, ByKey(key)));
    } else if s.capacity > 0 && |s.entries| >= s.capacity {
      UniqueCons(e, s.entries[..|s.entries| - 1]);
    } else {
      UniqueCons(e, s.entries);
    }
  }

  // ----- facts used by the heap cache and by the protocol proofs

  lemma {:induction false} WithoutConcat(a: seq<Entry>, b: seq<Entry>, sel: Selector)
    ensures Without(a + b, sel) == Without(a, sel) + Without(b, sel)
  {
    if a == [] {
      assert a + b == b;
    } else {
      assert (a + b)[1..] == a[1..] + b;
      WithoutConcat(a[1..], b, sel);
    }
  }

  lemma {:induction false} WithoutNone(es: seq<Entry>, sel: Selector)
    requires forall e :: e in es ==> !Selects(sel, e)
    ensures Without(es, sel) == es
  {
    if es != [] {
      assert es[0] in es && forall e :: e in es[1..] ==> e in es;
      WithoutNone(es[1..], sel);
    }
  }

  /** Dropping the one entry stored under a key takes out exactly its position. */
  lemma WithoutAt(es: seq<Entry>, i: nat, sel: Selector)
    requires Unique(es) && i < |es|
    requires forall e :: e in es ==> (Selects(sel, e) <==> e.key == es[i].key)
    ensures Without(es, sel) == es[..i] + es[i + 1..]
  {
    assert es == es[..i] + ([es[i]] + es[i + 1..]);
    WithoutConcat(es[..i], [es[i]] + es[i + 1..], sel);
    WithoutConcat([es[i]], es[i + 1..], sel);
    WithoutNone(es[..i], sel);
    WithoutNone(es[i + 1..], sel);
    assert Without([es[i]], sel) == [];
  }

  lemma WithoutKeyAt(es: seq<Entry>, k: nat)
    requires Unique(es) && k < |es|
    ensures Without(es, ByKey(es[k].key)) == es[..k] + es[k + 1..]
  {
    WithoutAt(es, k, ByKey(es[k].key));
  }

  lemma KeysWithoutAt(es: seq<Entry>, k: nat)
    requires Unique(es) && k < |es|
    ensures Keys(es[..k] + es[k + 1..]) == Keys(es) - {es[k].key}
  {
    var rest := es[..k] + es[k + 1..];
    forall x | x in Keys(es) - {es[k].key} ensures x in Keys(rest) {
      var i :| 0 <= i < |es| && es[i].key == x;
      assert rest[if i < k then i else i - 1].key == x;
    }
    forall i | 0 <= i < |rest| ensures rest[i].key in Keys(es) - {es[k].key} {
      assert rest[i] == es[if i < k then i else i + 1];
    }
  }

  lemma KeysCons(e: Entry, es: seq<Entry>)
    ensures Keys([e] + es) == {e.key} + Keys(es)
  {
    forall i | 0 <= i < |es| ensures es[i].key in Keys([e] + es) {
      assert ([e] + es)[i + 1] == es[i];
    }
    assert ([e] + es)[0] == e;
  }

  lemma DropsOne(es: seq<Entry>, key: string)
    requires Unique(es) && HasKey(es, key)
    ensures |Without(es, ByKey(key))| == |es| - 1
  {
    var i :| 0 <= i < |es| && es[i].key == key;
    WithoutAt(es, i, ByKey(key));
  }

  lemma {:induction false} WithoutTwice(es: seq<Entry>, a: set<string>, b: set<string>)
    ensures Without(Without(es, AnyOf(a)), AnyOf(b)) == Without(es, AnyOf(a + b))
  {
    if es != [] { WithoutTwice(es[1..], a, b); }
  }

  /** Selectors that agree on every entry of a list drop the same entries. */
  lemma {:induction false} WithoutSame(es: seq<Entry>, sel: Selector, other: Selector)
    requires forall e :: e in es ==> (Selects(sel, e) <==> Selects(other, e))
    ensures Without(es, sel) == Without(es, other)
  {
    if es != [] { WithoutSame(es[1..], sel, other); }
  }

  lemma SameKeySame(es: seq<Entry>, e: Entry, f: Entry)
    requires Unique(es) && e in es && f in es && e.key == f.key
    ensures e == f
  {
  }

  lemma FindUnique(es: seq<Entry>, i: nat)
    requires Unique(es) && i < |es|
    ensures HasKey(es, es[i].key) && Find(es, es[i].key) == es[i]
  {
  }

  lemma {:induction false} KeysCount(es: seq<Entry>)
    requires Unique(es)
    ensures |Keys(es)| == |es|
  {
    if es != [] {
      KeysCount(es[1..]);
      KeysCons(es[0], es[1..]);
      assert [es[0]] + es[1..] == es;
      assert es[0].key !in Keys(es[1..]);
    }
  }

  /** Replacing the entry of a key in place. */
  lemma RewriteAt(es: seq<Entry>, k: nat, e: Entry)
    requires Unique(es) && k < |es| && e.key == es[k].key
    ensures Unique(es[k := e]) && Keys(es[k := e]) == Keys(es)
    ensures HasKey(es[k := e], e.key) && Find(es[k := e], e.key) == e
    ensures Without(es[k := e], ByKey(e.key)) == Without(es, ByKey(e.key))
  {
    var r := es[k := e];
    assert Unique(r);
    assert r[..k] == es[..k] && r[k + 1..] == es[k + 1..];
    WithoutKeyAt(es, k);
    WithoutKeyAt(r, k);
    forall x | x in Keys(es) ensures x in Keys(r) {
      var i :| 0 <= i < |es| && es[i].key == x;
      assert r[i].key == x;
    }
    forall x | x in Keys(r) ensures x in Keys(es) {
      var i :| 0 <= i < |r| && r[i].key == x;
      assert es[i].key == x;
    }
    assert r[k] == e;
    FindUnique(r, k);
  }

  // ----- a sweep that takes the doomed keys out one at a time, in any order

  /** The keys whose entries a selector selects. */
  ghost function Doomed(es: seq<Entry>, sel: Selector): set<string> {
    set i | 0 <= i < |es| && Selects(sel, es[i]) :: es[i].key
  }

  /** The list when all keys but those in `todo` have been visited. */
  ghost predicate Swept(before: seq<Entry>, sel: Selector, todo: set<string>, es: seq<Entry>) {
    es == Without(before, AnyOf(Doomed(before, sel) - todo))
  }

  lemma SweepStart(es: seq<Entry>, sel: Selector, todo: set<string>)
    requires todo == Keys(es)
    ensures Swept(es, sel, todo, es)
  {
    assert Doomed(es, sel) - todo == {};
    WithoutNone(es, AnyOf({}));
  }

  /** Whether a key is doomed is decided by its one entry. */
  lemma DoomedKey(before: seq<Entry>, sel: Selector, e: Entry)
    requires Unique(before) && e in before
    ensures e.key in Doomed(before, sel) <==> Selects(sel, e)
  {
    var i :| 0 <= i < |before| && before[i] == e;
    if e.key in Doomed(before, sel) {
      var j :| 0 <= j < |before| && Selects(sel, before[j]) && before[j].key == e.key;
      assert i == j;
    }
  }

  lemma SweepTakes(before: seq<Entry>, sel: Selector, todo: set<string>, es: seq<Entry>, key: string)
    requires Swept(before, sel, todo, es) && key in Doomed(before, sel)
    ensures Swept(before, sel, todo - {key}, Without(es, ByKey(key)))
  {
    var doomed := Doomed(before, sel);
    assert doomed - todo + {key} == doomed - (todo - {key});
    WithoutTwice(before, doomed - todo, {key});
    WithoutSame(es, ByKey(key), AnyOf({key}));
  }

  /** One round: whatever key comes next, removing it exactly when its entry is selected keeps the loop on course. */
  lemma SweepStep(before: seq<Entry>, sel: Selector, todo: set<string>, es: seq<Entry>, k: nat)
    requires Unique(before) && Unique(es) && k < |es| && es[k].key in todo
    requires Swept(before, sel, todo, es)
    ensures Selects(sel, es[k]) ==> Swept(before, sel, todo - {es[k].key}, Without(es, ByKey(es[k].key)))
    ensures Selects(sel, es[k]) ==> |Without(es, ByKey(es[k].key))| == |es| - 1
    ensures !Selects(sel, es[k]) ==> Swept(before, sel, todo - {es[k].key}, es)
  {
    var key, doomed := es[k].key, Doomed(before, sel);
    assert es[k] in es;
    DoomedKey(before, sel, es[k]);
    if Selects(sel, es[k]) {
      SweepTakes(before, sel, todo, es, key);
      WithoutKeyAt(es, k);
    } else {
      assert doomed - todo == doomed - (todo - {key});
    }
  }

  lemma SweepDone(before: seq<Entry>, sel: Selector, es: seq<Entry>)
    requires Unique(before) && Swept(before, sel, {}, es)
    ensures es == Without(before, sel)
  {
    var doomed := Doomed(before, sel);
    assert doomed - {} == doomed;
    forall e | e in before ensures Selects(sel, e) <==> Selects(AnyOf(doomed), e) {
      DoomedKey(before, sel, e);
    }
    WithoutSame(before, sel, AnyOf(doomed));
  }
}
