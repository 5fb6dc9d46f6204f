/** Whole runs of the linked-list cache: what module LruRuns proves of lists holds of the real structure. */
module CacheRuns {
  import opened Prelude
  import Lru
  import opened LruRuns
  import opened CacheStore

  /** The cache has no call that removes an arbitrary set of keys. */
  predicate HasCall(op: Op) {
    op.DoDelete? ==> !op.sel.AnyOf?
  }

  method Perform(cache: Cache, op: Op) returns (answer: Answer)
    requires cache.Valid() && HasCall(op)
    modifies cache.Repr
    ensures cache.Valid() && fresh(cache.Repr - old(cache.Repr))
    ensures cache.View() == Apply(old(cache.View()), op) && answer == AnswerTo(old(cache.View()), op)
  {
    match op
    case DoGet(key, now) =>
      var found := cache.Get(key, now);
      return Found(found);
    case DoSet(key, value, now, ttl) =>
      var evicted := cache.Set(key, value, now, ttl);
      return Evicted(evicted);
    case DoDelete(sel) => answer := PerformDelete(cache, sel);
  }

  method PerformDelete(cache: Cache, sel: Lru.Selector) returns (answer: Answer)
    requires cache.Valid() && !sel.AnyOf?
    modifies cache.Repr
    ensures cache.Valid() && fresh(cache.Repr - old(cache.Repr))
    ensures cache.View() == Lru.Delete(old(cache.View()), sel) && answer == AnswerTo(old(cache.View()), DoDelete(sel))
  {
    answer := Nothing;
    match sel
    case ByKey(key) => cache.Delete(key);
    case ByPrefix(prefix) =>
      var count := cache.DeletePrefix(prefix);
      answer := Removed(count);
    case BySuffix(suffix) =>
      var count := cache.DeleteSuffix(suffix);
      answer := Removed(count);
    case ExpiredAt(now) => cache.CleanupExpired(now);
  }

  /**
   Any calls whatsoever on a new cache: the structure stays sound and within its capacity, its entries and all its
   answers are the abstract run's, in strict order of last touch, and each Get answers with what was last written and
   is still alive, or with a miss.
   */
  method Replay(capacity: int, ops: seq<Op>) returns (cache: Cache, answers: seq<Answer>)
    requires forall i :: 0 <= i < |ops| ==> HasCall(ops[i])
    ensures cache.Valid() && fresh(cache.Repr)
    ensures cache.View() == Run(Lru.State([], capacity), ops) && answers == Answers(Lru.State([], capacity), ops)
    ensures capacity > 0 ==> cache.length <= capacity
    ensures ByRecency(cache.entries, k => LastTouch(Lru.State([], capacity), ops, k)) && Current(cache.entries, ops)
    ensures forall i :: 0 <= i < |ops| && ops[i].DoGet? ==>
              answers[i].Found? && Fresh(capacity, ops[..i], ops[i].key, ops[i].now, answers[i].value)
  {
    cache := new Cache(capacity);
    answers := [];
    var i := 0;
    while i < |ops|
      invariant 0 <= i <= |ops| && cache.Valid() && fresh(cache.Repr)
      invariant cache.View() == Run(Lru.State([], capacity), ops[..i])
      invariant answers == Answers(Lru.State([], capacity), ops[..i])
    {
      var answer := Perform(cache, ops[i]);
      answers := answers + [answer];
      assert ops[..i + 1][..i] == ops[..i];
      i := i + 1;
    }
    assert ops[..i] == ops;
    RecencyOrder(Lru.State([], capacity), ops);
    RunIsCurrent(Lru.State([], capacity), ops);
    forall j | 0 <= j < |ops| && ops[j].DoGet?
      ensures answers[j].Found? && Fresh(capacity, ops[..j], ops[j].key, ops[j].now, answers[j].value)
    {
      AnswersAreFresh(Lru.State([], capacity), ops, j);
    }
  }
}
