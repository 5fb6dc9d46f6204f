/**
 The linked list and map of cache/cache.go, rewired in place.
 Every method is proved against the recency-ordered list of module Lru.
 The mutex makes each method one step, so each is a plain method here; time.Now() is the `now` argument.
 */
module CacheStore {
  import opened Prelude
  import Lru

  /** The capacity NewSilent gives to the cache of every sheet. */
  const DEFAULT_CAPACITY := 10000

  class Node {
    var entry: Option<Lru.Entry>  // None in the two sentinels
    var prev: Node?
    var next: Node?

    constructor (entry: Option<Lru.Entry>)
      ensures this.entry == entry
    {
      this.entry, prev, next := entry, null, null;
    }
  }

  class Cache {
    var data: map<string, Node>
    const head: Node
    const tail: Node
    var length: int
    const capacity: int

    ghost var chain: seq<Node>           // all nodes from head to tail, sentinels included
    ghost var entries: seq<Lru.Entry>    // what the inner nodes hold, in the same order
    ghost var Repr: set<object>

    ghost predicate Valid()
      reads this, Repr
    {
      && this in Repr
      && (forall n :: n in chain ==> n in Repr)
      && IsList(chain, head, tail, entries) && Agrees(chain, entries, data)
      && length == |entries|
      && (capacity > 0 ==> length <= capacity)
    }

    ghost function View(): Lru.State
      reads this
    {
      Lru.State(entries, capacity)
    }

    constructor (capacity: int)
      ensures Valid() && fresh(Repr)
      ensures View() == Lru.State([], capacity)
    {
      var h := new Node(None);
      var t := new Node(None);
      h.next := t;
      t.prev := h;
      data, head, tail, length := map[], h, t, 0;
      this.capacity := capacity;
      chain, entries := [h, t], [];
      Repr := {this, h, t};
    }

    // The list operations below keep the list well formed and say what they do to its contents;
    // they leave the map to their callers, as the source does.

    method Attach(node: Node)
      requires IsList(chain, head, tail, entries) && node !in chain && node.entry.Some?
      modifies this`chain, this`entries, chain, node
      ensures data == old(data) && Repr == old(Repr) && length == old(length)
      ensures IsList(chain, head, tail, entries)
      ensures chain == [head, node] + old(chain)[1..]
      ensures entries == [old(node.entry).value] + old(entries)
    {
      assert head.next == chain[1];
      node.prev := head;
      node.next := head.next;
      head.next.prev := node;
      head.next := node;
      chain := [head, node] + chain[1..];
      entries := [node.entry.value] + entries;
    }

    method Detach(node: Node, ghost k: nat)
      requires IsList(chain, head, tail, entries) && k < |entries| && chain[k + 1] == node
      modifies this`chain, this`entries, chain
      ensures data == old(data) && Repr == old(Repr) && length == old(length)
      ensures IsList(chain, head, tail, entries)
      ensures chain == old(chain)[..k + 1] + old(chain)[k + 2..] && node !in chain
      ensures entries == old(entries)[..k] + old(entries)[k + 1..]
      ensures node.entry == Some(old(entries)[k])
    {
      assert node.prev == chain[k] && node.next == chain[k + 2];
      node.prev.next := node.next;
      node.next.prev := node.prev;
      chain := chain[..k + 1] + chain[k + 2..];
      entries := entries[..k] + entries[k + 1..];
    }

    method AddToFront(node: Node)
      requires IsList(chain, head, tail, entries) && node !in chain && node.entry.Some?
      modifies this`length, this`chain, this`entries, chain, node
      ensures data == old(data) && Repr == old(Repr)
      ensures IsList(chain, head, tail, entries)
      ensures chain == [head, node] + old(chain)[1..]
      ensures entries == [old(node.entry).value] + old(entries)
      ensures length == old(length) + 1
    {
      Attach(node);
      length := length + 1;
    }

    method RemoveNode(node: Node, ghost k: nat)
      requires IsList(chain, head, tail, entries) && k < |entries| && chain[k + 1] == node
      modifies this`length, this`chain, this`entries, chain
      ensures data == old(data) && Repr == old(Repr)
      ensures IsList(chain, head, tail, entries)
      ensures chain == old(chain)[..k + 1] + old(chain)[k + 2..]
      ensures entries == old(entries)[..k] + old(entries)[k + 1..]
      ensures length == old(length) - 1
    {
      Detach(node, k);
      length := length - 1;
    }

    method MoveToFront(node: Node, ghost k: nat)
      requires IsList(chain, head, tail, entries) && k < |entries| && chain[k + 1] == node
      modifies this`chain, this`entries, chain
      ensures data == old(data) && Repr == old(Repr) && length == old(length)
      ensures IsList(chain, head, tail, entries)
      ensures chain == [head, node] + (old(chain)[..k + 1] + old(chain)[k + 2..])[1..]
      ensures entries == [old(entries)[k]] + (old(entries)[..k] + old(entries)[k + 1..])
    {
      Detach(node, k);
      Attach(node);
    }

    method Refill(node: Node, ghost k: nat, entry: Lru.Entry)
      requires IsList(chain, head, tail, entries) && k < |entries| && chain[k + 1] == node
      modifies this`entries, node`entry
      ensures IsList(chain, head, tail, entries) && entries == old(entries)[k := entry]
    {
      node.entry := Some(entry);
      entries := entries[k := entry];
    }

    /** The position in the list of the node the map holds for a key. */
    ghost function Position(key: string): (k: nat)
      requires Agrees(chain, entries, data) && key in data
      reads this
      ensures k < |entries| && chain[k + 1] == data[key] && entries[k].key == key
    {
      var i :| 0 <= i < |entries| && entries[i].key == key;
      i
    }

    /** Unlinks a node and forgets its key: the two halves every removal performs. */
    method Unlink(node: Node, key: string)
      requires Valid() && key in data && data[key] == node
      modifies Repr
      ensures Valid() && Repr == old(Repr)
      ensures entries == Lru.Without(old(entries), Lru.ByKey(key))
      ensures data == old(data) - {key}
    {
      ghost var k := Position(key);
      assert entries[k].key == key && chain[k + 1] == node;
      AgreesRemove(chain, entries, data, k);
      RemoveNode(node, k);
      data := data - {key};
      assert IsList(chain, head, tail, entries) && Agrees(chain, entries, data);
    }

    method EvictOldest() returns (key: string)
      requires Valid()
      modifies Repr
      ensures Valid() && Repr == old(Repr)
      ensures old(entries) == [] ==> key == "" && entries == []
      ensures old(entries) != [] ==>
                var last := |old(entries)| - 1;
                key == old(entries)[last].key && entries == old(entries)[..last] && data == old(data) - {key}
    {
      var oldest := tail.prev;
      assert oldest == chain[|chain| - 2];
      if oldest == head {
        return "";
      }
      ghost var last := |entries| - 1;
      assert oldest.entry == Some(entries[last]);
      key := oldest.entry.value.key;
      Lru.WithoutKeyAt(entries, last);
      Unlink(oldest, key);
    }

    /** moveToFront on a node of the map; the index still agrees afterwards. */
    method Touch(node: Node, key: string)
      requires Valid() && key in data && data[key] == node
      modifies Repr
      ensures Valid() && Repr == old(Repr) && data == old(data)
      ensures entries == [Lru.Find(old(entries), key)] + Lru.Without(old(entries), Lru.ByKey(key))
      ensures node.entry == Some(entries[0])
    {
      ghost var k := Position(key);
      ghost var nodes := Moved(chain, k);
      AgreesMove(chain, entries, data, k);
      MoveToFront(node, k);
      assert chain == nodes;
      assert IsList(chain, head, tail, entries) && Agrees(chain, entries, data);
    }

    method Get(key: string, now: int) returns (found: Option<Json>)
      requires Valid()
      modifies Repr
      ensures Valid() && Repr == old(Repr)
      ensures Lru.GetResult(View(), found) == Lru.Get(old(View()), key, now)
    {
      if key !in data {
        return None;
      }
      var node := data[key];
      ghost var k := Position(key);
      Lru.FindUnique(entries, k);
      assert node.entry == Some(entries[k]);
      if now > node.entry.value.expiresAt {
        Unlink(node, key);
        return None;
      }
      Touch(node, key);
      return Some(node.entry.value.value);
    }

    /** node.entry = entry: the node now holds a new entry under its old key. */
    method Rewrite(node: Node, entry: Lru.Entry)
      requires Valid() && entry.key in data && data[entry.key] == node
      modifies Repr
      ensures Valid() && Repr == old(Repr) && data == old(data)
      ensures Lru.HasKey(entries, entry.key) && Lru.Find(entries, entry.key) == entry
      ensures Lru.Without(entries, Lru.ByKey(entry.key)) == Lru.Without(old(entries), Lru.ByKey(entry.key))
    {
      ghost var k := Position(entry.key);
      AgreesRewrite(chain, entries, data, k, entry);
      Lru.RewriteAt(entries, k, entry);
      Refill(node, k, entry);
      assert IsList(chain, head, tail, entries) && Agrees(chain, entries, data);
    }

    /** The second half of Set: a new node for a key that is absent. */
    method Insert(entry: Lru.Entry)
      requires Valid() && entry.key !in data && (capacity > 0 ==> length < capacity)
      modifies Repr
      ensures Valid() && fresh(Repr - old(Repr))
      ensures entries == [entry] + old(entries)
    {
      var node := new Node(Some(entry));
      AgreesInsert(chain, entries, data, node, entry);
      AddToFront(node);
      data := data[entry.key := node];
      Repr := Repr + {node};
      assert IsList(chain, head, tail, entries) && Agrees(chain, entries, data);
    }

    method Set(key: string, value: Json, now: int, ttl: int) returns (evicted: string)
      requires Valid()
      modifies Repr
      ensures Valid() && fresh(Repr - old(Repr))
      ensures Lru.SetResult(View(), evicted) == Lru.Set(old(View()), key, value, now + ttl)
    {
      var entry := Lru.Entry(key, value, now + ttl);
      KeyStored(key);
      if key in data {
        var node := data[key];
        Rewrite(node, entry);
        Touch(node, key);
        return "";
      }
      evicted := "";
      if capacity > 0 && length >= capacity {
        evicted := EvictOldest();
      }
      Insert(entry);
    }

    method Delete(key: string)
      requires Valid()
      modifies Repr
      ensures Valid() && Repr == old(Repr)
      ensures View() == Lru.Delete(old(View()), Lru.ByKey(key))
    {
      KeyStored(key);
      if key !in data {
        Lru.WithoutNone(entries, Lru.ByKey(key));
        return;
      }
      Unlink(data[key], key);
    }

    lemma KeyStored(key: string)
      requires Valid()
      ensures key in data <==> Lru.HasKey(entries, key)
    {
    }

    // The bulk loops range over the map while they unlink. Go visits the keys in an order of its own
    // choosing, so each round here takes any key not visited yet.

    /** One round of such a loop. */
    method Visit(key: string, hit: bool, ghost before: seq<Lru.Entry>, ghost sel: Lru.Selector, ghost todo: set<string>)
      requires Valid() && key in todo && todo <= data.Keys
      requires Lru.Unique(before) && Lru.Swept(before, sel, todo, entries)
      requires hit <==> Lru.Selects(sel, entries[Position(key)])
      modifies Repr
      ensures Valid() && Repr == old(Repr) && todo - {key} <= data.Keys
      ensures Lru.Swept(before, sel, todo - {key}, entries)
      ensures |entries| == |old(entries)| - if hit then 1 else 0
    {
      Lru.SweepStep(before, sel, todo, entries, Position(key));
      if hit {
        Unlink(data[key], key);
      }
    }

    method DeletePrefix(prefix: string) returns (count: nat)
      requires Valid()
      modifies Repr
      ensures Valid() && Repr == old(Repr)
      ensures View() == Lru.Delete(old(View()), Lru.ByPrefix(prefix))
      ensures forall e :: e in entries <==> e in old(entries) && !exists rest :: e.key == prefix + rest
      ensures count == |old(entries)| - |entries|
    {
      count := 0;
      ghost var before, sel := entries, Lru.ByPrefix(prefix);
      var todo := data.Keys;
      Lru.SweepStart(entries, sel, todo);
      while todo != {}
        invariant Valid() && Repr == old(Repr) && todo <= data.Keys
        invariant Lru.Swept(before, sel, todo, entries)
        invariant count == |before| - |entries|
      {
        var key :| key in todo;
        var hit := HasPrefix(key, prefix);
        Visit(key, hit, before, sel, todo);
        todo := todo - {key};
        if hit {
          count := count + 1;
        }
      }
      Lru.SweepDone(before, sel, entries);
      PrefixesExactly(prefix);
    }

    method DeleteSuffix(suffix: string) returns (count: nat)
      requires Valid()
      modifies Repr
      ensures Valid() && Repr == old(Repr)
      ensures View() == Lru.Delete(old(View()), Lru.BySuffix(suffix))
      ensures forall e :: e in entries <==> e in old(entries) && !exists rest :: e.key == rest + suffix
      ensures count == |old(entries)| - |entries|
    {
      count := 0;
      ghost var before, sel := entries, Lru.BySuffix(suffix);
      var todo := data.Keys;
      Lru.SweepStart(entries, sel, todo);
      while todo != {}
        invariant Valid() && Repr == old(Repr) && todo <= data.Keys
        invariant Lru.Swept(before, sel, todo, entries)
        invariant count == |before| - |entries|
      {
        var key :| key in todo;
        var hit := HasSuffix(key, suffix);
        Visit(key, hit, before, sel, todo);
        todo := todo - {key};
        if hit {
          count := count + 1;
        }
      }
      Lru.SweepDone(before, sel, entries);
      SuffixesExactly(suffix);
    }

    method CleanupExpired(now: int)
      requires Valid()
      modifies Repr
      ensures Valid() && Repr == old(Repr)
      ensures View() == Lru.Delete(old(View()), Lru.ExpiredAt(now))
    {
      ghost var before, sel := entries, Lru.ExpiredAt(now);
      var todo := data.Keys;
      Lru.SweepStart(entries, sel, todo);
      while todo != {}
        invariant Valid() && Repr == old(Repr) && todo <= data.Keys
        invariant Lru.Swept(before, sel, todo, entries)
      {
        var key :| key in todo;
        assert data[key].entry == Some(entries[Position(key)]);
        Visit(key, now > data[key].entry.value.expiresAt, before, sel, todo);
        todo := todo - {key};
      }
      Lru.SweepDone(before, sel, entries);
    }

    method Dump() returns (result: map<string, Json>)
      requires Valid()
      ensures result == Lru.Dump(entries)
    {
      result := map[];
      var todo := data.Keys;
      while todo != {}
        invariant todo <= data.Keys
        invariant result == map k | k in Lru.Keys(entries) && k !in todo :: Lru.Find(entries, k).value
      {
        var key :| key in todo;
        ghost var k := Position(key);
        Lru.FindUnique(entries, k);
        assert data[key].entry == Some(entries[k]);
        todo := todo - {key};
        result := result[key := data[key].entry.value.value];
      }
    }
  }

  /** The nodes form one acyclic doubly linked list from head to tail, and the inner ones hold the entries in order. */
  ghost predicate IsList(chain: seq<Node>, head: Node, tail: Node, entries: seq<Lru.Entry>)
    reads chain
  {
    && |chain| == |entries| + 2 && chain[0] == head && chain[|chain| - 1] == tail
    && (forall i, j :: 0 <= i < j < |chain| ==> chain[i] != chain[j])
    && (forall i {:trigger chain[i].next} :: 0 <= i < |chain| - 1 ==> chain[i].next == chain[i + 1])
    && (forall i {:trigger chain[i].prev} :: 1 <= i < |chain| ==> chain[i].prev == chain[i - 1])
    && (forall i {:trigger chain[i].entry} :: 1 <= i < |chain| - 1 ==> chain[i].entry == Some(entries[i - 1]))
  }

  /** The map sends each stored key to its own node, and nothing else. */
  ghost predicate Agrees(chain: seq<Node>, entries: seq<Lru.Entry>, data: map<string, Node>) {
    && |chain| == |entries| + 2
    && Lru.Unique(entries)
    && data.Keys == Lru.Keys(entries)
    && (forall i {:trigger entries[i]} :: 0 <= i < |entries| ==>
          entries[i].key in data && data[entries[i].key] == chain[i + 1])
  }

  lemma AgreesRemove(chain: seq<Node>, entries: seq<Lru.Entry>, data: map<string, Node>, k: nat)
    requires Agrees(chain, entries, data) && k < |entries|
    ensures Agrees(chain[..k + 1] + chain[k + 2..], entries[..k] + entries[k + 1..], data - {entries[k].key})
    ensures Lru.Without(entries, Lru.ByKey(entries[k].key)) == entries[..k] + entries[k + 1..]
  {
    Lru.WithoutKeyAt(entries, k);
    Lru.KeysWithoutAt(entries, k);
    var es, ns, rest := entries[..k] + entries[k + 1..], chain[..k + 1] + chain[k + 2..], data - {entries[k].key};
    forall i | 0 <= i < |es| ensures es[i].key in rest && rest[es[i].key] == ns[i + 1] {
      var j := if i < k then i else i + 1;
      CutAt(entries, k, i);
      CutAt(chain, k + 1, i + 1);
      assert entries[j].key != entries[k].key;
    }
  }

  lemma CutAt<T>(s: seq<T>, k: nat, i: nat)
    requires k < |s| && i < |s| - 1
    ensures (s[..k] + s[k + 1..])[i] == s[if i < k then i else i + 1]
  {
  }

  lemma AgreesRewrite(chain: seq<Node>, entries: seq<Lru.Entry>, data: map<string, Node>, k: nat, e: Lru.Entry)
    requires Agrees(chain, entries, data) && k < |entries| && e.key == entries[k].key
    ensures Agrees(chain, entries[k := e], data)
  {
    Lru.RewriteAt(entries, k, e);
  }

  lemma AgreesInsert(chain: seq<Node>, entries: seq<Lru.Entry>, data: map<string, Node>, node: Node, e: Lru.Entry)
    requires Agrees(chain, entries, data) && e.key !in data
    ensures Agrees([chain[0], node] + chain[1..], [e] + entries, data[e.key := node])
  {
    Lru.KeysCons(e, entries);
    forall x | x in entries ensures x.key != e.key {
      var i :| 0 <= i < |entries| && entries[i] == x;
    }
    Lru.UniqueCons(e, entries);
  }

  /** The chain with the node of entry k moved behind the head. */
  ghost function Moved(chain: seq<Node>, k: nat): (nodes: seq<Node>)
    requires k + 2 <= |chain|
    ensures forall n :: n in nodes ==> n in chain
  {
    [chain[0], chain[k + 1]] + (chain[..k + 1] + chain[k + 2..])[1..]
  }

  lemma AgreesMove(chain: seq<Node>, entries: seq<Lru.Entry>, data: map<string, Node>, k: nat)
    requires Agrees(chain, entries, data) && k < |entries|
    ensures Agrees(Moved(chain, k), [entries[k]] + (entries[..k] + entries[k + 1..]), data)
    ensures Lru.HasKey(entries, entries[k].key) && Lru.Find(entries, entries[k].key) == entries[k]
    ensures Lru.Without(entries, Lru.ByKey(entries[k].key)) == entries[..k] + entries[k + 1..]
  {
    var e, node := entries[k], chain[k + 1];
    AgreesRemove(chain, entries, data, k);
    AgreesInsert(chain[..k + 1] + chain[k + 2..], entries[..k] + entries[k + 1..], data - {e.key}, node, e);
    Lru.FindUnique(entries, k);
    assert (data - {e.key})[e.key := node] == data;
  }
}
