/** lock/lock.go in place: lock objects that refreshes mutate, and a map of them. Each call runs alone here; see
    LockSteps for interleavings. */
module LockManager {
  import opened Prelude
  import Leases

  class Lock {
    const key: string
    const owner: string
    const sheet: string
    const acquiredAt: int
    var expiresAt: int

    constructor (key: string, owner: string, sheet: string, acquiredAt: int, expiresAt: int)
      ensures View() == Leases.Lease(key, owner, sheet, acquiredAt, expiresAt)
    {
      this.key, this.owner, this.sheet, this.acquiredAt, this.expiresAt := key, owner, sheet, acquiredAt, expiresAt;
    }

    ghost function View(): Leases.Lease
      reads this
    {
      Leases.Lease(key, owner, sheet, acquiredAt, expiresAt)
    }

    predicate IsExpired(now: int)
      reads this
    {
      now > expiresAt
    }
  }

  class Manager {
    var locks: map<string, Lock>

    /** No lock object sits in two slots, so a refresh changes one slot only. */
    ghost predicate Valid()
      reads this
    {
      forall a, b :: a in locks && b in locks && a != b ==> locks[a] != locks[b]
    }

    ghost function Objects(): set<object>
      reads this
    {
      set ck | ck in locks :: locks[ck]
    }

    ghost function View(): Leases.Table
      reads this, Objects()
    {
      map ck | ck in locks :: locks[ck].View()
    }

    constructor ()
      ensures Valid() && View() == map[] && Objects() == {}
    {
      locks := map[];
    }

    method TryAcquire(sheet: string, key: string, owner: string, now: int, ttl: int) returns (lock: Lock?)
      requires Valid()
      modifies this, Objects()
      ensures Valid() && fresh(Objects() - old(Objects()))
      ensures var r := Leases.TryAcquire(old(View()), sheet, key, owner, now, ttl);
              View() == r.table && (lock == null <==> r.granted.None?)
                  && (lock != null ==> r.granted == Some(lock.View()))
    {
      var ck := Leases.CompositeKey(sheet, key);
      if ck in locks {
        var existing := locks[ck];
        if existing.IsExpired(now) {
          // fall through to acquire
        } else if existing.owner == owner {
          existing.expiresAt := now + ttl;
          return existing;
        } else {
          return null;
        }
      }
      lock := new Lock(key, owner, sheet, now, now + ttl);
      if ck in locks {
        var existing := locks[ck];
        if existing.owner != owner && !existing.IsExpired(now) {
          assert false;  // only another client's step in between could lead here
        }
      }
      locks := locks[ck := lock];
    }

    method Release(sheet: string, key: string, owner: string) returns (error: Option<Leases.Error>)
      requires Valid()
      modifies this
      ensures Valid() && Objects() <= old(Objects())
      ensures Leases.Removal(View(), error) == Leases.Release(old(View()), sheet, key, owner)
      ensures var slot := sheet + ":" + key;
              && (error == Some(Leases.LockNotFound) <==> slot !in old(locks))
              && (error == Some(Leases.NotOwner) <==> slot in old(View()) && old(View())[slot].owner != owner)
              && (error == None <==> slot in old(View()) && old(View())[slot].owner == owner)
              && locks == if error == None then old(locks) - {slot} else old(locks)
    {
      var ck := Leases.CompositeKey(sheet, key);
      if ck !in locks {
        return Some(Leases.LockNotFound);
      }
      if locks[ck].owner != owner {
        return Some(Leases.NotOwner);
      }
      locks := locks - {ck};
      return None;
    }

    method IsLocked(sheet: string, key: string, now: int) returns (lock: Lock?)
      requires Valid()
      ensures var r := Leases.IsLocked(View(), sheet, key, now);
              if lock == null then r.None? else r == Some(lock.View())
    {
      var ck := Leases.CompositeKey(sheet, key);
      if ck !in locks || locks[ck].IsExpired(now) {
        return null;
      }
      return locks[ck];
    }

    // ReleaseAllByOwner and CleanupExpired first collect the keys, then delete them one by one.

    method OwnedBy(owner: string) returns (keys: set<string>)
      ensures keys == set ck | ck in locks && locks[ck].owner == owner
    {
      keys := {};
      var todo := locks.Keys;
      while todo != {}
        invariant todo <= locks.Keys
        invariant keys == set ck | ck in locks && ck !in todo && locks[ck].owner == owner
      {
        var ck :| ck in todo;
        todo := todo - {ck};
        if locks[ck].owner == owner {
          keys := keys + {ck};
        }
      }
    }

    method ExpiredKeys(now: int) returns (keys: set<string>)
      ensures keys == set ck | ck in locks && locks[ck].IsExpired(now)
    {
      keys := {};
      var todo := locks.Keys;
      while todo != {}
        invariant todo <= locks.Keys
        invariant keys == set ck | ck in locks && ck !in todo && locks[ck].IsExpired(now)
      {
        var ck :| ck in todo;
        todo := todo - {ck};
        if locks[ck].IsExpired(now) {
          keys := keys + {ck};
        }
      }
    }

    method DeleteEach(keys: set<string>)
      requires keys <= locks.Keys
      modifies this
      ensures locks == old(locks) - keys
    {
      var todo := keys;
      while todo != {}
        invariant todo <= keys && locks == old(locks) - (keys - todo)
      {
        var key :| key in todo;
        todo := todo - {key};
        locks := locks - {key};
      }
    }

    method DeleteAll(keys: set<string>)
      requires Valid() && keys <= locks.Keys
      modifies this
      ensures Valid() && locks == old(locks) - keys && View() == old(View()) - keys
      ensures |locks| == |old(locks)| - |keys|
    {
      Leftover(locks, keys);
      DeleteEach(keys);
      assert View().Keys == old(View()).Keys - keys;
      forall ck | ck in View() ensures View()[ck] == old(View())[ck] {
        assert locks[ck] == old(locks)[ck];
      }
    }

    method ReleaseAllByOwner(owner: string) returns (count: nat)
      requires Valid()
      modifies this
      ensures Valid() && Objects() <= old(Objects())
      ensures View() == Leases.ReleaseAllByOwner(old(View()), owner)
      ensures count == |old(locks)| - |locks|
    {
      var toDelete := OwnedBy(owner);
      WithoutOwned(View(), owner, toDelete);
      DeleteAll(toDelete);
      count := |toDelete|;
    }

    method CleanupExpired(now: int) returns (count: nat)
      requires Valid()
      modifies this
      ensures Valid() && Objects() <= old(Objects())
      ensures View() == Leases.CleanupExpired(old(View()), now)
      ensures count == |old(locks)| - |locks|
    {
      var toDelete := ExpiredKeys(now);
      WithoutExpired(View(), now, toDelete);
      DeleteAll(toDelete);
      count := |toDelete|;
    }

    method GetAllBySheet(sheet: string, now: int) returns (result: seq<Lock>)
      requires Valid()
      ensures (set l | l in result :: l.View()) == Leases.GetAllBySheet(View(), sheet, now)
      ensures forall i, j :: 0 <= i < j < |result| ==> result[i] != result[j]
    {
      result := [];
      var todo := locks.Keys;
      while todo != {}
        invariant todo <= locks.Keys
        invariant forall l :: l in result <==>
          exists ck :: ck in locks && ck !in todo && HasPrefix(ck, sheet + ":") && !locks[ck].IsExpired(now)
              && locks[ck] == l
        invariant forall i, j :: 0 <= i < j < |result| ==> result[i] != result[j]
      {
        var ck :| ck in todo;
        assert forall c :: c in locks && c !in todo ==> locks[c] != locks[ck];
        assert locks[ck] !in result;
        todo := todo - {ck};
        if HasPrefix(ck, sheet + ":") {
          var lock := locks[ck];
          if !lock.IsExpired(now) {
            result := result + [lock];
          }
        }
      }
    }
  }

  lemma Leftover(all: map<string, Lock>, gone: set<string>)
    requires gone <= all.Keys
    ensures |all - gone| == |all| - |gone|
  {
  }

  lemma WithoutOwned(t: Leases.Table, owner: string, keys: set<string>)
    requires keys == set ck | ck in t && t[ck].owner == owner
    ensures t - keys == Leases.ReleaseAllByOwner(t, owner)
  {
  }

  lemma WithoutExpired(t: Leases.Table, now: int, keys: set<string>)
    requires keys == set ck | ck in t && Leases.Expired(t[ck], now)
    ensures t - keys == Leases.CleanupExpired(t, now)
  {
  }
}
