/** Whole runs of the cache: how two capacities compare, and what the list remembers of the past. */
module LruRuns {
  import opened Prelude
  import opened Lru

  /** One call on the cache with the clock it reads; a TTL sweep is a delete of the expired entries. */
  datatype Op =
    | DoGet(key: string, now: int)
    | DoSet(key: string, value: Json, now: int, ttl: int)
    | DoDelete(sel: Selector)

  function Apply(s: State, op: Op): State {
    match op
    case DoGet(key, now) => Get(s, key, now).state
    case DoSet(key, value, now, ttl) => Set(s, key, value, now + ttl).state
    case DoDelete(sel) => Delete(s, sel)
  }

  function Run(s: State, ops: seq<Op>): State {
    if ops == [] then s else Apply(Run(s, ops[..|ops| - 1]), ops[|ops| - 1])
  }

  lemma ApplyKeepsValid(s: State, op: Op)
    requires Valid(s)
    ensures Valid(Apply(s, op)) && Apply(s, op).capacity == s.capacity
  {
    match op
    case DoGet(key, now) => GetKeepsValid(s, key, now);
    case DoSet(key, value, now, ttl) => SetKeepsValid(s, key, value, now + ttl);
    case DoDelete(sel) =>
  }

  lemma {:induction false} RunKeepsValid(s: State, ops: seq<Op>)
    requires Valid(s)
    ensures Valid(Run(s, ops)) && Run(s, ops).capacity == s.capacity
  {
    if ops != [] {
      RunKeepsValid(s, ops[..|ops| - 1]);
      ApplyKeepsValid(Run(s, ops[..|ops| - 1]), ops[|ops| - 1]);
    }
  }

  // ----- a bigger cache includes a smaller one

  /** `a` is `b` with the entries under `missing` left out: a subsequence with identical entries. */
  ghost predicate Thins(a: seq<Entry>, b: seq<Entry>, missing: set<string>) {
    a == Without(b, AnyOf(missing))
  }

  ghost predicate Subsequence(a: seq<Entry>, b: seq<Entry>) {
    exists missing :: Thins(a, b, missing)
  }

  /** The relation the two caches keep. The bound on the sizes is what makes the larger one evict only when the
      smaller is full. */
  ghost predicate Includes(a: State, b: State) {
    && Valid(a) && Valid(b)
    && Subsequence(a.entries, b.entries)
    && (b.capacity > 0 ==> 0 < a.capacity <= b.capacity && |b.entries| - |a.entries| <= b.capacity - a.capacity)
  }

  lemma {:induction false} ThinsDelete(b: seq<Entry>, missing: set<string>, sel: Selector)
    ensures Thins(Without(Without(b, AnyOf(missing)), sel), Without(b, sel), missing)
    ensures |Without(b, sel)| - |Without(Without(b, AnyOf(missing)), sel)| <= |b| - |Without(b, AnyOf(missing))|
  {
    if b != [] { ThinsDelete(b[1..], missing, sel); }
  }

  lemma ThinsPush(a: seq<Entry>, b: seq<Entry>, missing: set<string>, e: Entry)
    requires Thins(a, b, missing) && !HasKey(b, e.key)
    ensures Thins([e] + a, [e] + b, missing - {e.key})
    ensures Thins(a, [e] + b, missing + {e.key})
  {
    forall x | x in b ensures x.key != e.key {
      var i :| 0 <= i < |b| && b[i] == x;
    }
    WithoutSame(b, AnyOf(missing), AnyOf(missing - {e.key}));
    WithoutSame(b, AnyOf(missing), AnyOf(missing + {e.key}));
  }

  lemma ThinsDropLast(a: seq<Entry>, b: seq<Entry>, missing: set<string>)
    requires Thins(a, b, missing) && Unique(a) && a != []
    ensures Thins(a[..|a| - 1], b, missing + {a[|a| - 1].key})
  {
    var last := |a| - 1;
    WithoutTwice(b, missing, {a[last].key});
    WithoutSame(a, ByKey(a[last].key), AnyOf({a[last].key}));
    WithoutKeyAt(a, last);
  }

  lemma ThinsDropBoth(a: seq<Entry>, b: seq<Entry>, missing: set<string>)
    requires Thins(a, b, missing) && Unique(b) && a != [] && b != []
    ensures Subsequence(a[..|a| - 1], b[..|b| - 1])
  {
    var l := |b| - 1;
    assert b == b[..l] + [b[l]];
    WithoutConcat(b[..l], [b[l]], AnyOf(missing));
    if b[l].key in missing {
      assert Without([b[l]], AnyOf(missing)) == [];
      assert Thins(a, b[..l], missing);
      ThinsDropLast(a, b[..l], missing);
    } else {
      assert Without([b[l]], AnyOf(missing)) == [b[l]];
      assert a[..|a| - 1] == Without(b[..l], AnyOf(missing));
      assert Thins(a[..|a| - 1], b[..l], missing);
    }
  }

  lemma ThinsFind(a: seq<Entry>, b: seq<Entry>, missing: set<string>, key: string)
    requires Thins(a, b, missing) && Unique(b) && HasKey(a, key)
    ensures HasKey(b, key) && Find(b, key) == Find(a, key)
  {
    var e := Find(a, key);
    assert e in b;
    var i :| 0 <= i < |b| && b[i] == e;
    FindUnique(b, i);
  }

  lemma AbsentAfterDelete(es: seq<Entry>, key: string)
    ensures !HasKey(Without(es, ByKey(key)), key)
  {
    var rest := Without(es, ByKey(key));
    forall i | 0 <= i < |rest| ensures rest[i].key != key { assert rest[i] in rest; }
  }

  lemma AbsentUnchanged(es: seq<Entry>, key: string)
    requires !HasKey(es, key)
    ensures Without(es, ByKey(key)) == es
  {
    WithoutNone(es, ByKey(key));
  }

  lemma IncludesGet(a: State, b: State, key: string, now: int)
    requires Includes(a, b)
    ensures Includes(Get(a, key, now).state, Get(b, key, now).state)
    ensures Get(a, key, now).found.Some? ==> Get(b, key, now).found == Get(a, key, now).found
  {
    var missing :| Thins(a.entries, b.entries, missing);
    if HasKey(a.entries, key) {
      IncludesGetBoth(a, b, missing, key, now);
    } else if HasKey(b.entries, key) {
      IncludesGetLarge(a, b, missing, key, now);
    }
  }

  lemma IncludesGetBoth(a: State, b: State, missing: set<string>, key: string, now: int)
    requires Includes(a, b) && Thins(a.entries, b.entries, missing) && HasKey(a.entries, key)
    ensures Includes(Get(a, key, now).state, Get(b, key, now).state)
    ensures Get(b, key, now).found == Get(a, key, now).found
  {
    ThinsFind(a.entries, b.entries, missing, key);
    GetKeepsValid(a, key, now);
    GetKeepsValid(b, key, now);
    DropsOne(a.entries, key);
    DropsOne(b.entries, key);
    ThinsMove(a.entries, b.entries, missing, Find(b.entries, key));
  }

  /** Taking a key out of both lists, and putting it in front of both. */
  lemma ThinsMove(a: seq<Entry>, b: seq<Entry>, missing: set<string>, e: Entry)
    requires Thins(a, b, missing)
    ensures Subsequence(Without(a, ByKey(e.key)), Without(b, ByKey(e.key)))
    ensures Subsequence([e] + Without(a, ByKey(e.key)), [e] + Without(b, ByKey(e.key)))
    ensures Subsequence(Without(a, ByKey(e.key)), [e] + Without(b, ByKey(e.key)))
  {
    ThinsDelete(b, missing, ByKey(e.key));
    AbsentAfterDelete(b, e.key);
    var a0, b0 := Without(a, ByKey(e.key)), Without(b, ByKey(e.key));
    ThinsPush(a0, b0, missing, e);
    assert Thins(a0, b0, missing) && Thins([e] + a0, [e] + b0, missing - {e.key})
        && Thins(a0, [e] + b0, missing + {e.key});
  }

  lemma IncludesGetLarge(a: State, b: State, missing: set<string>, key: string, now: int)
    requires Includes(a, b) && Thins(a.entries, b.entries, missing) && !HasKey(a.entries, key) && HasKey(b.entries, key)
    ensures Includes(a, Get(b, key, now).state)
  {
    GetKeepsValid(b, key, now);
    DropsOne(b.entries, key);
    AbsentUnchanged(a.entries, key);
    ThinsMove(a.entries, b.entries, missing, Find(b.entries, key));
  }

  lemma IncludesSet(a: State, b: State, key: string, value: Json, expiresAt: int)
    requires Includes(a, b)
    ensures Includes(Set(a, key, value, expiresAt).state, Set(b, key, value, expiresAt).state)
  {
    var missing :| Thins(a.entries, b.entries, missing);
    SetKeepsValid(a, key, value, expiresAt);
    SetKeepsValid(b, key, value, expiresAt);
    if HasKey(a.entries, key) {
      IncludesSetBoth(a, b, missing, Entry(key, value, expiresAt));
    } else if HasKey(b.entries, key) {
      IncludesSetLarge(a, b, missing, Entry(key, value, expiresAt));
    } else {
      IncludesSetNew(a, b, missing, Entry(key, value, expiresAt));
    }
  }

  lemma IncludesSetBoth(a: State, b: State, missing: set<string>, e: Entry)
    requires Includes(a, b) && Thins(a.entries, b.entries, missing) && HasKey(a.entries, e.key)
    requires Valid(SetTo(a, e)) && Valid(SetTo(b, e))
    ensures Includes(SetTo(a, e), SetTo(b, e))
  {
    ThinsFind(a.entries, b.entries, missing, e.key);
    DropsOne(a.entries, e.key);
    DropsOne(b.entries, e.key);
    ThinsMove(a.entries, b.entries, missing, e);
  }

  function SetTo(s: State, e: Entry): State {
    Set(s, e.key, e.value, e.expiresAt).state
  }

  lemma IncludesSetLarge(a: State, b: State, missing: set<string>, e: Entry)
    requires Includes(a, b) && Thins(a.entries, b.entries, missing) && !HasKey(a.entries, e.key)
            && HasKey(b.entries, e.key)
    requires Valid(SetTo(a, e)) && Valid(SetTo(b, e))
    ensures Includes(SetTo(a, e), SetTo(b, e))
  {
    ThinsDelete(b.entries, missing, ByKey(e.key));
    AbsentAfterDelete(b.entries, e.key);
    AbsentUnchanged(a.entries, e.key);
    DropsOne(b.entries, e.key);
    InsertSmall(a, Without(b.entries, ByKey(e.key)), missing, e);
  }

  lemma IncludesSetNew(a: State, b: State, missing: set<string>, e: Entry)
    requires Includes(a, b) && Thins(a.entries, b.entries, missing) && !HasKey(a.entries, e.key)
            && !HasKey(b.entries, e.key)
    requires Valid(SetTo(a, e)) && Valid(SetTo(b, e))
    ensures Includes(SetTo(a, e), SetTo(b, e))
  {
    if 0 < b.capacity <= |b.entries| {
      ThinsDropBoth(a.entries, b.entries, missing);
      var a1, b1 := a.entries[..|a.entries| - 1], b.entries[..|b.entries| - 1];
      var m1 :| Thins(a1, b1, m1);
      ThinsPush(a1, b1, m1, e);
    } else {
      InsertSmall(a, b.entries, missing, e);
    }
  }

  /** The smaller cache inserts, evicting its last entry when it is full, while the larger one only gains the new
      entry. */
  lemma InsertSmall(a: State, b0: seq<Entry>, missing: set<string>, e: Entry)
    requires Valid(a) && Thins(a.entries, b0, missing) && !HasKey(a.entries, e.key) && !HasKey(b0, e.key)
    ensures Subsequence(Set(a, e.key, e.value, e.expiresAt).state.entries, [e] + b0)
  {
    if a.capacity > 0 && |a.entries| >= a.capacity {
      ThinsDropLast(a.entries, b0, missing);
      ThinsPush(a.entries[..|a.entries| - 1], b0, missing + {a.entries[|a.entries| - 1].key}, e);
    } else {
      ThinsPush(a.entries, b0, missing, e);
    }
  }

  lemma IncludesStep(a: State, b: State, op: Op)
    requires Includes(a, b)
    ensures Includes(Apply(a, op), Apply(b, op))
  {
    match op
    case DoGet(key, now) => IncludesGet(a, b, key, now);
    case DoSet(key, value, now, ttl) => IncludesSet(a, b, key, value, now + ttl);
    case DoDelete(sel) => IncludesDelete(a, b, sel);
  }

  lemma IncludesDelete(a: State, b: State, sel: Selector)
    requires Includes(a, b)
    ensures Includes(Delete(a, sel), Delete(b, sel))
  {
    var missing :| Thins(a.entries, b.entries, missing);
    ThinsDelete(b.entries, missing, sel);
  }

  /**
   Two caches run through the same calls at the same clock readings, the second with at least the
   capacity of the first or none. The smaller list stays a subsequence of the larger one.
   */
  lemma {:induction false} Inclusion(small: int, large: int, ops: seq<Op>)
    requires large <= 0 || 0 < small <= large
    ensures Includes(Run(State([], small), ops), Run(State([], large), ops))
  {
    if ops == [] {
      assert Thins([], [], {});
    } else {
      Inclusion(small, large, ops[..|ops| - 1]);
      IncludesStep(Run(State([], small), ops[..|ops| - 1]), Run(State([], large), ops[..|ops| - 1]), ops[|ops| - 1]);
    }
  }

  /** So every hit of the smaller cache is a hit of the larger one, with the same value. */
  lemma {:induction false} HitsIncluded(small: int, large: int, ops: seq<Op>, key: string, now: int)
    requires large <= 0 || 0 < small <= large
    ensures Get(Run(State([], small), ops), key, now).found.Some? ==>
              Get(Run(State([], large), ops), key, now).found == Get(Run(State([], small), ops), key, now).found
  {
    Inclusion(small, large, ops);
    IncludesGet(Run(State([], small), ops), Run(State([], large), ops), key, now);
  }

  // ----- presence by history

  /** The key a call makes most recent: any Set, and a Get that hits. */
  function Touched(s: State, op: Op): Option<string> {
    match op
    case DoGet(key, now) => if Get(s, key, now).found.Some? then Some(key) else None
    case DoSet(key, _, _, _) => Some(key)
    case DoDelete(_) => None
  }

  /** The index of the last call that touched a key, or -1. */
  function LastTouch(s: State, ops: seq<Op>, key: string): (t: int)
    ensures -1 <= t < |ops|
  {
    if ops == [] then -1
    else
      var n := |ops| - 1;
      if Touched(Run(s, ops[..n]), ops[n]) == Some(key) then n else LastTouch(s, ops[..n], key)
  }

  /** The other keys touched since the last touch of a key. */
  function TouchedSince(s: State, ops: seq<Op>, key: string): set<string> {
    if ops == [] then {}
    else
      var n := |ops| - 1;
      match Touched(Run(s, ops[..n]), ops[n])
      case None => TouchedSince(s, ops[..n], key)
      case Some(t) => if t == key then {} else TouchedSince(s, ops[..n], key) + {t}
  }

  /** Later in the list means touched longer ago. */
  ghost predicate ByRecency(es: seq<Entry>, when: string -> int) {
    && (forall i :: 0 <= i < |es| ==> when(es[i].key) >= 0)
    && (forall i, j :: 0 <= i < j < |es| ==> when(es[i].key) > when(es[j].key))
  }

  lemma RecencyCons(e: Entry, es: seq<Entry>, when: string -> int)
    requires ByRecency(es, when) && when(e.key) >= 0
    requires forall i :: 0 <= i < |es| ==> when(e.key) > when(es[i].key)
    ensures ByRecency([e] + es, when)
  {
  }

  lemma {:induction false} RecencyWithout(es: seq<Entry>, sel: Selector, when: string -> int)
    requires ByRecency(es, when)
    ensures ByRecency(Without(es, sel), when)
  {
    if es != [] {
      RecencyWithout(es[1..], sel, when);
      if !Selects(sel, es[0]) {
        var rest := Without(es[1..], sel);
        forall i | 0 <= i < |rest| ensures when(es[0].key) > when(rest[i].key) {
          assert rest[i] in es[1..];
          var j :| 0 <= j < |es[1..]| && es[1..][j] == rest[i];
          assert es[j + 1] == rest[i];
        }
        RecencyCons(es[0], rest, when);
      }
    }
  }

  /** The shape of a touch: key t in front, once, and behind it only entries that were there before. */
  ghost predicate PutsInFront(es: seq<Entry>, es': seq<Entry>, t: string) {
    es' != [] && es'[0].key == t && !HasKey(es'[1..], t) && Subsequence(es'[1..], es)
  }

  lemma GetShape(s: State, key: string, now: int)
    requires Valid(s)
    ensures var es' := Get(s, key, now).state.entries;
            if Touched(s, DoGet(key, now)).Some? then PutsInFront(s.entries, es', key) else Subsequence(es', s.entries)
  {
    DropIsSubsequence(s.entries, ByKey(key));
    DropIsSubsequence(s.entries, AnyOf({}));
    WithoutNone(s.entries, AnyOf({}));
    AbsentAfterDelete(s.entries, key);
  }

  lemma SetShape(s: State, key: string, value: Json, expiresAt: int)
    requires Valid(s)
    ensures PutsInFront(s.entries, Set(s, key, value, expiresAt).state.entries, key)
  {
    var es := s.entries;
    if HasKey(es, key) {
      DropIsSubsequence(es, ByKey(key));
      AbsentAfterDelete(es, key);
    } else {
      assert Thins(es, es, {}) by { WithoutNone(es, AnyOf({})); }
      if es != [] { ThinsDropLast(es, es, {}); }
    }
  }

  /** What a call does to the list: it moves or puts the touched key in front and otherwise only drops entries. */
  lemma ApplyShape(s: State, op: Op)
    requires Valid(s)
    ensures match Touched(s, op)
            case None => Subsequence(Apply(s, op).entries, s.entries)
            case Some(t) => PutsInFront(s.entries, Apply(s, op).entries, t)
  {
    match op
    case DoGet(key, now) => GetShape(s, key, now);
    case DoSet(key, value, now, ttl) => SetShape(s, key, value, now + ttl);
    case DoDelete(sel) => DropIsSubsequence(s.entries, sel);
  }

  lemma DropIsSubsequence(es: seq<Entry>, sel: Selector)
    requires Unique(es)
    ensures Subsequence(Without(es, sel), es)
  {
    var rest := Without(es, AnyOf(Doomed(es, sel) - {}));
    SweepDone(es, sel, rest);
    assert Thins(rest, es, Doomed(es, sel) - {});
  }

  /** The list is strictly ordered by time of last touch, in every run. */
  lemma {:induction false} RecencyOrder(s: State, ops: seq<Op>)
    requires s.entries == []
    ensures ByRecency(Run(s, ops).entries, k => LastTouch(s, ops, k))
  {
    if ops != [] {
      var n := |ops| - 1;
      RecencyOrder(s, ops[..n]);
      RunKeepsValid(s, ops[..n]);
      ApplyShape(Run(s, ops[..n]), ops[n]);
      RecencyStep(Run(s, ops[..n]).entries, Run(s, ops).entries, Touched(Run(s, ops[..n]), ops[n]),
                  k => LastTouch(s, ops[..n], k), k => LastTouch(s, ops, k));
    }
  }

  lemma RecencyStep(es: seq<Entry>, es': seq<Entry>, touched: Option<string>, was: string -> int, when: string -> int)
    requires ByRecency(es, was)
    requires forall k :: Some(k) != touched ==> when(k) == was(k)
    requires touched.Some? ==> when(touched.value) >= 0 && forall k :: when(touched.value) > was(k)
    requires touched.None? ==> Subsequence(es', es)
    requires touched.Some? ==> PutsInFront(es, es', touched.value)
    ensures ByRecency(es', when)
  {
    var rest := if touched.None? then es' else es'[1..];
    var missing :| Thins(rest, es, missing);
    RecencyWithout(es, AnyOf(missing), was);
    forall i | 0 <= i < |rest| ensures when(rest[i].key) == was(rest[i].key) {
      assert Some(rest[i].key) != touched;
    }
    if touched.Some? {
      RecencyCons(es'[0], rest, when);
      assert es' == [es'[0]] + rest;
    }
  }

  /** Eviction takes the key whose last touch is the oldest of all keys present. */
  lemma {:induction false} EvictsOldestTouch(s: State, ops: seq<Op>, key: string, value: Json, expiresAt: int,
                                             other: string)
    requires s.entries == []
    requires !HasKey(Run(s, ops).entries, key) && 0 < s.capacity <= |Run(s, ops).entries|
    requires HasKey(Run(s, ops).entries, other)
    ensures var evicted := Set(Run(s, ops), key, value, expiresAt).evicted;
            HasKey(Run(s, ops).entries, evicted) && 0 <= LastTouch(s, ops, evicted) <= LastTouch(s, ops, other)
  {
    var now := Run(s, ops);
    RecencyOrder(s, ops);
    RunKeepsValid(s, ops);
    assert Set(now, key, value, expiresAt).evicted == now.entries[|now.entries| - 1].key;
    LastIsOldest(now.entries, k => LastTouch(s, ops, k), other);
  }

  lemma LastIsOldest(es: seq<Entry>, when: string -> int, other: string)
    requires ByRecency(es, when) && HasKey(es, other)
    ensures var last := es[|es| - 1].key; HasKey(es, last) && 0 <= when(last) <= when(other)
  {
  }

  /** No call removes anything, be it a delete, a sweep or a Get that finds its entry expired. */
  ghost predicate OnlyEvicts(s: State, ops: seq<Op>) {
    forall i :: 0 <= i < |ops| ==> Undisturbed(Run(s, ops[..i]), ops[i])
  }

  ghost predicate Undisturbed(s: State, op: Op) {
    && (op.DoDelete? ==> forall e :: e in s.entries ==> !Selects(op.sel, e))
    && (op.DoGet? && HasKey(s.entries, op.key) ==> op.now <= Find(s.entries, op.key).expiresAt)
  }

  /** A key at position i has seen exactly the i keys before it; a key that is gone has seen a full cache go by. */
  ghost predicate Remembers(s: State, ops: seq<Op>, es: seq<Entry>) {
    && (forall i :: 0 <= i < |es| ==> TouchedSince(s, ops, es[i].key) == Keys(es[..i]))
    && (forall k :: LastTouch(s, ops, k) >= 0 && !HasKey(es, k) ==> |TouchedSince(s, ops, k)| >= s.capacity)
  }

  lemma {:induction false} RemembersRun(s: State, ops: seq<Op>)
    requires s.entries == [] && s.capacity > 0 && OnlyEvicts(s, ops)
    ensures Remembers(s, ops, Run(s, ops).entries)
  {
    if ops != [] {
      var n := |ops| - 1;
      forall i | 0 <= i < |ops[..n]| ensures Undisturbed(Run(s, ops[..n][..i]), ops[..n][i]) {
        assert ops[..n][..i] == ops[..i];
      }
      RemembersRun(s, ops[..n]);
      RunKeepsValid(s, ops[..n]);
      assert Undisturbed(Run(s, ops[..n]), ops[n]);
      RemembersStep(s, ops);
    }
  }

  lemma {:induction false} RemembersStep(s: State, ops: seq<Op>)
    requires s.entries == [] && s.capacity > 0 && ops != []
    requires var n := |ops| - 1;
             Remembers(s, ops[..n], Run(s, ops[..n]).entries) && Undisturbed(Run(s, ops[..n]), ops[n])
             && Valid(Run(s, ops[..n])) && Run(s, ops[..n]).capacity == s.capacity
    ensures Remembers(s, ops, Run(s, ops).entries)
  {
    var n := |ops| - 1;
    match Touched(Run(s, ops[..n]), ops[n])
    case None =>
      if ops[n].DoDelete? { WithoutNone(Run(s, ops[..n]).entries, ops[n].sel); }
      assert Run(s, ops) == Run(s, ops[..n]);
      forall k
        ensures TouchedSince(s, ops, k) == TouchedSince(s, ops[..n], k)
        ensures LastTouch(s, ops, k) == LastTouch(s, ops[..n], k)
      {}
    case Some(t) => RemembersTouched(s, ops, t);
  }

  lemma {:induction false} SeenStep(s: State, ops: seq<Op>, t: string, k: string)
    requires ops != [] && Touched(Run(s, ops[..|ops| - 1]), ops[|ops| - 1]) == Some(t)
    ensures TouchedSince(s, ops, k) == if k == t then {} else TouchedSince(s, ops[..|ops| - 1], k) + {t}
    ensures LastTouch(s, ops, k) >= 0 <==> k == t || LastTouch(s, ops[..|ops| - 1], k) >= 0
  {
  }

  lemma {:induction false} RemembersTouched(s: State, ops: seq<Op>, t: string)
    requires s.capacity > 0 && ops != []
    requires var n := |ops| - 1;
             Remembers(s, ops[..n], Run(s, ops[..n]).entries) && Touched(Run(s, ops[..n]), ops[n]) == Some(t)
             && Valid(Run(s, ops[..n])) && Run(s, ops[..n]).capacity == s.capacity
    ensures Remembers(s, ops, Run(s, ops).entries)
  {
    var n := |ops| - 1;
    var before, after := Run(s, ops[..n]), Run(s, ops);
    assert after == Apply(before, ops[n]);
    TouchShape(before, ops[n], t);
    var was, seen := k => TouchedSince(s, ops[..n], k), k => TouchedSince(s, ops, k);
    forall k ensures seen(k) == if k == t then {} else was(k) + {t} { SeenStep(s, ops, t, k); }
    RemembersTouch(before.entries, after.entries, t, s.capacity, was, seen, k => LastTouch(s, ops[..n], k) >= 0);
    forall k | LastTouch(s, ops, k) >= 0 && !HasKey(after.entries, k) ensures |TouchedSince(s, ops, k)| >= s.capacity {
      SeenStep(s, ops, t, k);
      assert k != t && |seen(k)| >= s.capacity;
    }
    forall i | 0 <= i < |after.entries| ensures TouchedSince(s, ops, after.entries[i].key) == Keys(after.entries[..i]) {
      assert seen(after.entries[i].key) == Keys(after.entries[..i]);
    }
  }

  /** Moving position j to the front: every key that was ahead of it, or is put behind it, has now seen it. */
  lemma SeenAfterMove(es: seq<Entry>, j: nat, f: Entry, was: string -> set<string>, seen: string -> set<string>)
    requires Unique(es) && j < |es| && f.key == es[j].key
    requires forall i :: 0 <= i < |es| ==> was(es[i].key) == Keys(es[..i])
    requires seen(f.key) == {} && forall k :: k != f.key ==> seen(k) == was(k) + {f.key}
    ensures var r := [f] + (es[..j] + es[j + 1..]);
            forall i :: 0 <= i < |r| ==> seen(r[i].key) == Keys(r[..i])
  {
    var rest := es[..j] + es[j + 1..];
    var r := [f] + rest;
    forall i | 0 <= i < |r| ensures seen(r[i].key) == Keys(r[..i]) {
      if i > 0 {
        assert r[..i] == [f] + rest[..i - 1];
        KeysCons(f, rest[..i - 1]);
        if i - 1 < j {
          assert rest[..i - 1] == es[..i - 1];
        } else {
          assert rest[..i - 1] == es[..i][..j] + es[..i][j + 1..];
          KeysWithoutAt(es[..i], j);
          assert es[..i][j].key in Keys(es[..i]);
        }
      }
    }
  }

  lemma SeenAfterInsert(es: seq<Entry>, m: nat, f: Entry, was: string -> set<string>, seen: string -> set<string>)
    requires Unique(es) && m <= |es| && !HasKey(es, f.key)
    requires forall i :: 0 <= i < |es| ==> was(es[i].key) == Keys(es[..i])
    requires seen(f.key) == {} && forall k :: k != f.key ==> seen(k) == was(k) + {f.key}
    ensures var r := [f] + es[..m];
            forall i :: 0 <= i < |r| ==> seen(r[i].key) == Keys(r[..i])
  {
    var r := [f] + es[..m];
    forall i | 0 <= i < |r| ensures seen(r[i].key) == Keys(r[..i]) {
      if i > 0 {
        assert r[..i] == [f] + es[..i - 1];
        KeysCons(f, es[..i - 1]);
      }
    }
  }

  /** The list after a touch, in terms of positions. */
  lemma TouchShape(s: State, op: Op, t: string)
    requires Valid(s) && Touched(s, op) == Some(t)
    ensures var es' := Apply(s, op).entries;
            && es' != [] && es'[0].key == t
            && (forall j :: 0 <= j < |s.entries| && s.entries[j].key == t ==>
                  es' == [es'[0]] + (s.entries[..j] + s.entries[j + 1..]))
            && (!HasKey(s.entries, t) ==>
                  es' == [es'[0]] + s.entries[..|es'| - 1]
                  && |es'| - 1 == if s.capacity > 0 && |s.entries| >= s.capacity then |s.entries| - 1 else |s.entries|)
  {
    forall j | 0 <= j < |s.entries| && s.entries[j].key == t
      ensures Apply(s, op).entries == [Apply(s, op).entries[0]] + (s.entries[..j] + s.entries[j + 1..])
    {
      WithoutKeyAt(s.entries, j);
    }
  }

  /** From positions to the whole memory: what is absent after the touch was absent before, or has just been evicted. */
  lemma RemembersTouch(es: seq<Entry>, es': seq<Entry>, t: string, cap: nat,
                       was: string -> set<string>, seen: string -> set<string>, touched: string -> bool)
    requires Unique(es) && es' != [] && es'[0].key == t && (|es| >= cap ==> |es| == cap)
    requires forall i :: 0 <= i < |es| ==> was(es[i].key) == Keys(es[..i])
    requires forall k :: touched(k) && !HasKey(es, k) ==> |was(k)| >= cap
    requires seen(t) == {} && forall k :: k != t ==> seen(k) == was(k) + {t}
    requires forall j :: 0 <= j < |es| && es[j].key == t ==> es' == [es'[0]] + (es[..j] + es[j + 1..])
    requires !HasKey(es, t) ==> es' == [es'[0]] + es[..if |es| >= cap > 0 then |es| - 1 else |es|]
    ensures forall i :: 0 <= i < |es'| ==> seen(es'[i].key) == Keys(es'[..i])
    ensures forall k :: k != t && touched(k) && !HasKey(es', k) ==> |seen(k)| >= cap
  {
    if HasKey(es, t) {
      var j :| 0 <= j < |es| && es[j].key == t;
      SeenAfterMove(es, j, es'[0], was, seen);
      forall k | k != t && touched(k) && !HasKey(es', k) ensures |seen(k)| >= cap {
        StillAbsent(es, j, es'[0], k);
        SmallSet(was(k), seen(k));
      }
    } else {
      var m := if |es| >= cap > 0 then |es| - 1 else |es|;
      SeenAfterInsert(es, m, es'[0], was, seen);
      forall k | k != t && touched(k) && !HasKey(es', k) ensures |seen(k)| >= cap {
        if HasKey(es, k) {
          JustEvicted(es, m, es'[0], k);
        } else {
          SmallSet(was(k), seen(k));
        }
      }
    }
  }

  lemma StillAbsent(es: seq<Entry>, j: nat, f: Entry, k: string)
    requires j < |es| && f.key == es[j].key && !HasKey([f] + (es[..j] + es[j + 1..]), k)
    ensures k != f.key && !HasKey(es, k)
  {
    var r := [f] + (es[..j] + es[j + 1..]);
    assert r[0] == f;
    forall i | 0 <= i < |es| ensures es[i].key != k {
      if i != j { assert r[if i < j then i + 1 else i] == es[i]; }
    }
  }

  /** Only the last key can have fallen off, and it has seen all the others and the newcomer. */
  lemma JustEvicted(es: seq<Entry>, m: nat, f: Entry, k: string)
    requires Unique(es) && |es| - 1 <= m <= |es|
    requires HasKey(es, k) && !HasKey([f] + es[..m], k) && !HasKey(es, f.key)
    ensures m == |es| - 1 && es[m].key == k && |Keys(es[..m]) + {f.key}| == |es|
  {
    var i :| 0 <= i < |es| && es[i].key == k;
    forall j | 0 <= j < m ensures es[j].key != k {
      assert ([f] + es[..m])[j + 1] == es[j];
    }
    KeysCount(es[..m]);
    assert f.key !in Keys(es[..m]);
  }

  /** A key that was touched is still present exactly when fewer than `capacity` other keys were touched since. */
  lemma {:induction false} PresentByHistory(s: State, ops: seq<Op>, key: string)
    requires s.entries == [] && s.capacity > 0 && OnlyEvicts(s, ops)
    requires LastTouch(s, ops, key) >= 0
    ensures HasKey(Run(s, ops).entries, key) <==> |TouchedSince(s, ops, key)| < s.capacity
  {
    RemembersRun(s, ops);
    RunKeepsValid(s, ops);
    var es := Run(s, ops).entries;
    if HasKey(es, key) {
      var i :| 0 <= i < |es| && es[i].key == key;
      KeysCount(es[..i]);
    }
  }

  // ----- values: a hit is never stale

  datatype Written = Written(value: Json, expiresAt: int)

  /** A plain map with expiry times, one key of it: what was last written and not removed or found expired since. */
  function LastWrite(ops: seq<Op>, key: string): Option<Written> {
    if ops == [] then None
    else
      var n := |ops| - 1;
      var before := LastWrite(ops[..n], key);
      match ops[n]
      case DoSet(k, value, now, ttl) => if k == key then Some(Written(value, now + ttl)) else before
      case DoGet(k, now) => if k == key && before.Some? && now > before.value.expiresAt then None else before
      case DoDelete(sel) =>
        if before.Some? && Selects(sel, Entry(key, before.value.value, before.value.expiresAt)) then None else before
  }

  ghost predicate Current(es: seq<Entry>, ops: seq<Op>) {
    forall i :: 0 <= i < |es| ==> LastWrite(ops, es[i].key) == Some(Written(es[i].value, es[i].expiresAt))
  }

  /** Nothing the plain map still has is missing from the list. */
  ghost predicate Complete(es: seq<Entry>, ops: seq<Op>) {
    forall k :: LastWrite(ops, k).Some? ==> HasKey(es, k)
  }

  lemma {:induction false} StaysCurrent(s: State, ops: seq<Op>, op: Op)
    requires Valid(s) && Current(s.entries, ops)
    ensures Current(Apply(s, op).entries, ops + [op])
  {
    var es := Apply(s, op).entries;
    assert (ops + [op])[..|ops|] == ops;
    forall i | 0 <= i < |es| ensures LastWrite(ops + [op], es[i].key) == Some(Written(es[i].value, es[i].expiresAt)) {
      ComesFrom(s, op, i);
      if es[i] in s.entries {
        var j :| 0 <= j < |s.entries| && s.entries[j] == es[i];
      }
    }
  }

  /** An entry of the list is the one just set, or it was there, survives the call and its key was not set. */
  lemma ComesFrom(s: State, op: Op, i: nat)
    requires Valid(s) && i < |Apply(s, op).entries|
    ensures var e := Apply(s, op).entries[i];
            match op
            case DoSet(k, value, now, ttl) => e == Entry(k, value, now + ttl) || (e in s.entries && e.key != k)
            case DoGet(k, now) => e in s.entries && !(e.key == k && now > e.expiresAt)
            case DoDelete(sel) => e in s.entries && !Selects(sel, e)
  {
    var es, e := Apply(s, op).entries, Apply(s, op).entries[i];
    match op
    case DoSet(k, value, now, ttl) =>
      if i > 0 { assert e == es[1..][i - 1] && e in es[1..]; AbsentElsewhere(s, k, e); }
    case DoGet(k, now) =>
      if HasKey(s.entries, k) {
        var f := Find(s.entries, k);
        if e in s.entries && e.key == k { SameKeySame(s.entries, e, f); }
      } else {
        AbsentElsewhere(s, k, e);
      }
    case DoDelete(sel) => assert e in es;
  }

  lemma AbsentElsewhere(s: State, key: string, e: Entry)
    ensures !HasKey(s.entries, key) && e in s.entries ==> e.key != key
    ensures e in Without(s.entries, ByKey(key)) ==> e.key != key
  {
  }

  lemma {:induction false} StaysComplete(s: State, ops: seq<Op>, op: Op)
    requires Valid(s) && s.capacity <= 0 && Current(s.entries, ops) && Complete(s.entries, ops)
    ensures Complete(Apply(s, op).entries, ops + [op])
  {
    var es := Apply(s, op).entries;
    assert (ops + [op])[..|ops|] == ops;
    forall k | LastWrite(ops + [op], k).Some? ensures HasKey(es, k) {
      if op.DoSet? && op.key == k {
        assert es[0].key == k;
      } else {
        assert LastWrite(ops, k).Some? && HasKey(s.entries, k);
        var j :| 0 <= j < |s.entries| && s.entries[j].key == k;
        Survives(s, op, j);
        var i :| 0 <= i < |es| && es[i] == s.entries[j];
        assert es[i].key == k;
      }
    }
  }

  /** With no capacity, an entry goes only by its own deletion, expiry or overwriting. */
  lemma Survives(s: State, op: Op, j: nat)
    requires Valid(s) && s.capacity <= 0 && j < |s.entries|
    requires var e := s.entries[j];
             match op
             case DoSet(k, _, _, _) => k != e.key
             case DoGet(k, now) => !(k == e.key && now > e.expiresAt)
             case DoDelete(sel) => !Selects(sel, e)
    ensures s.entries[j] in Apply(s, op).entries
  {
    match op
    case DoSet(k, value, now, ttl) => SurvivesSet(s, k, value, now + ttl, s.entries[j]);
    case DoGet(k, now) => SurvivesGet(s, k, now, s.entries[j]);
    case DoDelete(sel) =>
  }

  lemma InTail(f: Entry, es: seq<Entry>, e: Entry)
    requires e in es
    ensures e in [f] + es
  {
    var i :| 0 <= i < |es| && es[i] == e;
    assert ([f] + es)[i + 1] == e;
  }

  lemma SurvivesSet(s: State, k: string, value: Json, expiresAt: int, e: Entry)
    requires s.capacity <= 0 && e in s.entries && e.key != k
    ensures e in Set(s, k, value, expiresAt).state.entries
  {
    InTail(Entry(k, value, expiresAt), if HasKey(s.entries, k) then Without(s.entries, ByKey(k)) else s.entries, e);
  }

  lemma SurvivesGet(s: State, k: string, now: int, e: Entry)
    requires Valid(s) && e in s.entries && !(k == e.key && now > e.expiresAt)
    ensures e in Get(s, k, now).state.entries
  {
    if HasKey(s.entries, k) {
      var f := Find(s.entries, k);
      if e.key == k {
        SameKeySame(s.entries, e, f);
      } else {
        InTail(f, Without(s.entries, ByKey(k)), e);
      }
    }
  }

  lemma {:induction false} RunIsCurrent(s: State, ops: seq<Op>)
    requires s.entries == []
    ensures Current(Run(s, ops).entries, ops) && (s.capacity <= 0 ==> Complete(Run(s, ops).entries, ops))
  {
    if ops != [] {
      var n := |ops| - 1;
      RunIsCurrent(s, ops[..n]);
      RunKeepsValid(s, ops[..n]);
      StaysCurrent(Run(s, ops[..n]), ops[..n], ops[n]);
      if s.capacity <= 0 { StaysComplete(Run(s, ops[..n]), ops[..n], ops[n]); }
      assert ops[..n] + [ops[n]] == ops;
    }
  }

  /** At any capacity a hit gives the value last written, which has been neither removed nor expired since. */
  lemma {:induction false} HitIsLastWrite(s: State, ops: seq<Op>, key: string, now: int)
    requires s.entries == [] && Get(Run(s, ops), key, now).found.Some?
    ensures LastWrite(ops, key).Some? && LastWrite(ops, key).value.expiresAt >= now
    ensures Get(Run(s, ops), key, now).found == Some(LastWrite(ops, key).value.value)
  {
    RunIsCurrent(s, ops);
    var es := Run(s, ops).entries;
    var i :| 0 <= i < |es| && es[i] == Find(es, key);
  }

  /** Without a capacity the cache is exactly the plain map. */
  lemma {:induction false} UnlimitedIsPlainMap(s: State, ops: seq<Op>, key: string, now: int)
    requires s.entries == [] && s.capacity <= 0
    ensures Get(Run(s, ops), key, now).found
            == match LastWrite(ops, key)
               case None => None
               case Some(w) => if now > w.expiresAt then None else Some(w.value)
  {
    RunIsCurrent(s, ops);
    var es := Run(s, ops).entries;
    if HasKey(es, key) {
      var i :| 0 <= i < |es| && es[i] == Find(es, key);
    }
  }

  // ----- what the calls of a run return

  datatype Answer = Found(value: Option<Json>) | Evicted(key: string) | Removed(count: nat) | Nothing

  /** A bulk delete answers with its count; a plain delete and a sweep answer nothing. */
  function AnswerTo(s: State, op: Op): Answer {
    match op
    case DoGet(key, now) => Found(Get(s, key, now).found)
    case DoSet(key, value, now, ttl) => Evicted(Set(s, key, value, now + ttl).evicted)
    case DoDelete(sel) =>
      if sel.ByPrefix? || sel.BySuffix? then Removed(|s.entries| - |Delete(s, sel).entries|) else Nothing
  }

  function Answers(s: State, ops: seq<Op>): (r: seq<Answer>)
    ensures |r| == |ops|
  {
    if ops == [] then []
    else Answers(s, ops[..|ops| - 1]) + [AnswerTo(Run(s, ops[..|ops| - 1]), ops[|ops| - 1])]
  }

  lemma {:induction false} AnswerAt(s: State, ops: seq<Op>, i: nat)
    requires i < |ops|
    ensures Answers(s, ops)[i] == AnswerTo(Run(s, ops[..i]), ops[i])
    decreases |ops|
  {
    var n := |ops| - 1;
    var before := ops[..n];
    var last := AnswerTo(Run(s, before), ops[n]);
    assert Answers(s, ops) == Answers(s, before) + [last];
    if i < n {
      AnswerAt(s, before, i);
      assert before[..i] == ops[..i] && before[i] == ops[i];
      assert (Answers(s, before) + [last])[i] == Answers(s, before)[i];
    }
  }

  /** The answer to a Get after some calls is the plain map's, or a miss. */
  ghost predicate Fresh(capacity: int, before: seq<Op>, key: string, now: int, found: Option<Json>) {
    var last := LastWrite(before, key);
    var plain := if last.Some? && now <= last.value.expiresAt then Some(last.value.value) else None;
    found == plain || (capacity > 0 && found == None)
  }

  /** In every run, every Get answers with what was last written and is still alive, or with a miss; without a capacity
      it never misses what is alive. */
  lemma {:induction false} AnswersAreFresh(s: State, ops: seq<Op>, i: nat)
    requires s.entries == [] && i < |ops| && ops[i].DoGet?
    ensures Answers(s, ops)[i].Found?
    ensures Fresh(s.capacity, ops[..i], ops[i].key, ops[i].now, Answers(s, ops)[i].value)
  {
    AnswerAt(s, ops, i);
    var key, now := ops[i].key, ops[i].now;
    if s.capacity <= 0 {
      UnlimitedIsPlainMap(s, ops[..i], key, now);
    } else if Get(Run(s, ops[..i]), key, now).found.Some? {
      HitIsLastWrite(s, ops[..i], key, now);
    }
  }
}
