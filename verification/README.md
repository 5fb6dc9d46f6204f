# A verified model of advo_cache

advo_cache is a multi-tenant cache service. Each tenant's *sheet* is an LRU cache with expiry times behind a
password; clients join a sheet over a WebSocket, read and write it, and hold distributed locks in it. The leader
tells the other collaborators of a sheet about every change, and tells replica servers too. Readers keep a local
map that the messages update. This project models that behaviour in Dafny and proves what it guarantees.

There are two layers.

**Specifications on values, and theorems about whole runs.** The cache is its entries, most recent first
(`Lru`); the lock table is a map (`Leases`); the whole leader is one value and every client request, connection,
disconnect, sweep or lock cleanup is one step of it (`Server`); a channel is the sequence of messages written to a
connection. On these stand the theorems: `LruRuns` (inclusion between capacities, what the list remembers, what a
hit returns), `Leases` (holds over time, cleanup), `Session` (bookkeeping), `Isolation` (tenants), `Replication`
(how far a replica lags), `Readers`, `ReaderRuns`, `Writers` and `OwnWrites` (what readers end up with); `Exposure` shows
what `Isolation` asks for to be exactly what discretion takes. `History`, `Passwords` and `Holders` tell from the requests
alone what a leader has stored, which password a sheet has and who holds a lock, with lifetimes, patterns and
comparisons written out, and `Replies` says field by field what clients are answered; `LeaderCaches` carries what is
proved of runs of the cache over to a leader's sheets. `LockSteps`, `LockExpiry`, `LockScans`, `Registry` and
`Lifetimes` take `lock.go`, `manager.go` and the end of a sheet apart into single steps and interleave any number of
calls.

**The program's own objects, updated in place.** `CacheStore` rewires the doubly linked list and its map;
`LockManager`, `SheetStore`, `LeaderHandler`, `ReplicaClient` and `ReaderClient` are classes with the source's
fields and loops. Every method is proved to take the abstract value of the object to what the specification
says; `CacheRuns` and `LeaderRuns` carry that over to whole runs. Where the source ranges over a map, the loop takes
any remaining key, so the result holds for every iteration order.

The clock, the jitter drawn and the order of requests are inputs. One clock reading serves one cache or lock
call. A WebSocket connection is named by its address, which is also the owner id of its locks.

No proof rests on automatic induction: inductive proofs are written out, and lemmas about runs switch it off.

## What the proofs turned up

- A connection that opens a sheet and also registers as a replica stays among the sheet's collaborators when it
  disconnects (`ws/handler.go:139-144`), so the sheet is never deleted. `Session.BookkeepingExactly` says that
  this is the only way the bookkeeping breaks, `Session.BothRolesKeepTheSheet` what it leads to.
- What keeps one group of connections from seeing the others is four facts (`Isolation.Separated`): the bookkeeping is
  in order, no sheet is shared, no id of theirs collides with one of the others' as a lock prefix (`a` and `a:b` do),
  and none of them is a replica while the others have sheets. `Exposure.SeparatedExactly` says that, given the
  bookkeeping, this holds if and only if no requests within sheets can ever let one of the group see in its
  channel that the others are there: a collision shows as a refused lock, and a replica hears of every sheet. Hence
  `Exposure.ProperExactly`: an event is proper (`Isolation.Proper`) if and only if it keeps the bookkeeping, has the same
  effect as in a world without the others, and leaves a world that is discreet in that sense.
- A connection can see at once that others are there by asking for their sheet. `Isolation.OpenSeenExactly` says when:
  with a wrong password, when it gets a refusal and the source closes its connection (`ws/handler.go:239`)
  instead of opening a new sheet, or with the right one when their sheet is not empty.
- Under concurrency the lock table puts a client in a position to remove a lock that is not its own in exactly two
  ways (`LockSteps.SafeExactly`): by going on to overwrite another owner's expired lock (`lock/lock.go:88-92`), and by
  a cleanup's collecting one (`lock/lock.go:161-172`). Without them no two owners ever hold a slot. With them
  exclusion still holds between running leases as long as nobody acts on a check that is out of date
  (`LockExpiry.LeasesExclude`; `LeasedExactly` has the exact condition for a step). Each of the three ways of doing
  so, which include the Delete in `Release` (`lock/lock.go:102-112`), lets two clients hold a slot with running
  leases, from the empty table (`LockExpiry.ExpiryBreaksExclusion`, `CleanupBreaksExclusion`,
  `ReleaseBreaksExclusion`) and from every state in which it is about to happen to a slot that is still absent or
  expired (`TakeoverBreaks`, where the overwriting client's own new lease must still be running, `CollectionBreaks`,
  `DeletionBreaks`).
- Which answers a cleanup changes: a `Release` in an expired slot, the count of `ReleaseAllByOwner` if the owner
  has an expired lock, the count of a later cleanup if any lock had expired, and no others
  (`Leases.CleanupSeenExactly`).
- A passive reader and the leader part ways exactly at a `set_null` that changes something, an expired entry met by a
  `get` or removed by a sweep, an empty key or pattern that matches something, and the eviction of the empty key
  (`Readers.StepConvergesExactly`).
- A replica misses at most one key per sheet, and none if a sheet holds one key only, even when it registers again with
  whatever it held before: what the leader does not have stays behind what it has and is evicted first
  (`Replication.ReplicaLagBound`). At every other capacity the bound is met: `Replication.LagIsTight` continues any
  state with a full sheet to one where a key is missing.
- A connection in both roles receives a collaborator's set also as a replicated one without a sheet
  (`sheet/sheet.go:131`), and its replica stores it under the sheet "" (`Replication.BothRolesStrayCopy`).
- Deleting a sheet after its last collaborator has left is a step of its own (`ws/handler.go:157-161`). If another
  connection has been given the sheet by then, it keeps using a sheet that is no longer registered, and a newcomer
  opens a different one under the same id (`Lifetimes.OrphanSplits`, `LeavingSplits`). No other step separates users
  of an id (`Lifetimes.TogetherExactly`).

The code and its documentation disagree in these places; the model follows the code. The repository's `README.md:728`
offers `ADVO_CACHE_CAPACITY`, and `README.md:729` offers `ADVO_TTL_CLEANUP_SECONDS`, but every sheet gets the built-in
capacity of 10000 and sweep interval (`cache/cache.go:64-66, 83`). `README.md:133` says that a set is broadcast to all
collaborators; the sender is left out (`sheet/sheet.go:143-147`), as `README.md:667` says. The replica has a case for
messages of type "success" (`replica/client.go:120-122`), which the leader never sends: its response has no type.

## Model

| member | source | states |
|---|---|---|
| CacheStore.Cache.constructor | cache/cache.go:71-86 | a new cache is a list of two linked sentinels and an empty map |
| CacheStore.Cache.AddToFront | cache/cache.go:94-100 | the list stays acyclic and doubly linked; the node is first; length grows by one |
| CacheStore.Cache.RemoveNode | cache/cache.go:105-109 | the list closes over the node; order of the others kept; length shrinks by one |
| CacheStore.Cache.MoveToFront | cache/cache.go:113-122 | the node is first, the others keep their order, length unchanged |
| CacheStore.Cache.EvictOldest | cache/cache.go:127-138 | unlinks the last entry and forgets its key, or returns "" on an empty list |
| CacheStore.Cache.Get | cache/cache.go:147-167 | result and new recency list are the abstract Get's: miss, lazy expiry, or hit moved to front |
| CacheStore.Cache.Set | cache/cache.go:172-201 | recency list and evicted key are the abstract Set's; the invariant keeps length within a positive capacity |
| CacheStore.Cache.Delete | cache/cache.go:204-215 | exactly the entry under the key goes |
| CacheStore.Cache.DeletePrefix | cache/cache.go:222-235 | unlinking while ranging in any order leaves in order the entries whose key is not the prefix with something after it, and counts the others |
| CacheStore.Cache.DeleteSuffix | cache/cache.go:238-251 | the same for keys that are something with the suffix after it |
| CacheStore.Cache.CleanupExpired | cache/cache.go:298-316 | leaves exactly the unexpired entries in order, for any iteration order |
| CacheStore.Cache.Dump | cache/cache.go:258-267 | returns exactly the stored pairs |
| CacheRuns.Replay | cache/cache.go:94-316 | any run of calls on the linked structure keeps it sound and within capacity; its entries and all its answers are the abstract run's, ordered by last touch, and each Get answers with the last write still alive or with a miss |
| Lru.SetKeepsValid | cache/cache.go:172-201 | Set keeps keys unique and the number of entries within the capacity |
| Lru.GetKeepsValid | cache/cache.go:147-167 | so does Get |
| Lru.Without | cache/cache.go:222-251 | a removal keeps exactly the entries that are not selected |
| Lru.SweepStep | cache/cache.go:298-311 | one round of a range-and-unlink loop keeps it on course whatever key comes next |
| Lru.SweepDone | cache/cache.go:298-311 | such a loop ends with the filtered list |
| LruRuns.Inclusion | cache/cache.go:127-251 | after the same calls the smaller cache's list is a subsequence of the larger's, and the sizes differ by at most the capacities |
| LruRuns.HitsIncluded | cache/cache.go:147-167 | every hit of the smaller cache is a hit of the larger, with the same value |
| LruRuns.RecencyOrder | cache/cache.go:113-122 | in every run the list is strictly ordered by time of last touch |
| LruRuns.EvictsOldestTouch | cache/cache.go:127-138 | an eviction takes the key whose last touch is the oldest |
| LruRuns.PresentByHistory | cache/cache.go:172-201 | as long as no call removes anything, a touched key is present iff fewer than `capacity` other keys were touched since |
| LruRuns.HitIsLastWrite | cache/cache.go:147-201 | at any capacity a hit returns the value last written, neither removed nor expired since |
| LruRuns.UnlimitedIsPlainMap | cache/cache.go:147-251 | without a capacity the cache answers exactly like a plain map with expiry times |
| LruRuns.AnswersAreFresh | cache/cache.go:147-251 | every Get of a run answers with the last write still alive or with a miss, and never misses without a capacity |
| Contents.DumpSet | cache/cache.go:172-201 | what Set does to the contents, and that the evicted key was there and is not the key just set |
| Contents.DumpWithout | cache/cache.go:204-251 | a delete removes from the contents exactly the keys it selects |
| Contents.RemovedCount | cache/cache.go:222-251 | a bulk delete counts exactly the matching keys |
| Contents.RemovedByPrefix | cache/cache.go:222-235 | what delete_prefix leaves and how many keys it counts, in terms of concatenation |
| Contents.RemovedBySuffix | cache/cache.go:238-251 | the same for delete_suffix |
| Prelude.HasPrefixExactly | cache/cache.go:228 | the prefix test holds iff the key is the prefix with something after it |
| Prelude.HasSuffixExactly | cache/cache.go:244 | the suffix test holds iff the key is something with the suffix after it |
| Leases.CompositeKeysDiffer | lock/lock.go:47-49 | sheet ids without ":" never share a slot, whatever the keys |
| Leases.CollisionsExactly | lock/lock.go:47-49 | two sheet ids can collide iff one with its separator is a prefix of the other |
| Leases.ListingIsExact | lock/lock.go:192-208 | with such ids a listing is exactly the sheet's unexpired locks |
| Leases.HoldsNeverOverlap | lock/lock.go:53-153 | at no time do two owners hold a slot, as inferred from the answers they got |
| Leases.RefusedExactlyWhenHeld | lock/lock.go:53-96 | an acquisition is refused iff another owner's hold is still running |
| Leases.HoldSurvives | lock/lock.go:99-153 | an unexpired hold ends iff its owner releases it or disconnects |
| Leases.CleanupsUnseen | lock/lock.go:157-179 | with tables that agree on live locks, dropping all cleanups changes no answer |
| Leases.CleanupUnobservable | lock/lock.go:157-179 | two runs that differ only in cleanups give the same answers to TryAcquire, IsLocked and GetAllBySheet |
| Leases.CleanupSeenExactly | lock/lock.go:99-179 | for every call, a cleanup now or earlier changes its answer iff the call meets a lock that had expired by then: in the slot it frees, among its owner's, or any for a cleanup |
| Session.ListingAlways | lock/lock.go:192-208 | the listing is exact in every state that a single-role run of the leader reaches |
| LockManager.Manager.TryAcquire | lock/lock.go:53-96 | table and answer are the specification's; a refresh through the pointer changes one slot |
| LockManager.Manager.Release | lock/lock.go:99-114 | removes an owned lock; not found iff the slot is empty, not owner iff it is another's |
| LockManager.Manager.IsLocked | lock/lock.go:117-131 | returns the unexpired lock, if any |
| LockManager.Manager.ReleaseAllByOwner | lock/lock.go:135-153 | removes and counts exactly the owner's locks |
| LockManager.Manager.CleanupExpired | lock/lock.go:157-179 | removes and counts exactly the expired locks |
| LockManager.Manager.OwnedBy | lock/lock.go:139-146 | collects exactly the owner's keys, in any order |
| LockManager.Manager.GetAllBySheet | lock/lock.go:192-208 | lists each unexpired lock under the prefix once |
| LockSteps.OwnershipIsStable | lock/lock.go:53-179 | from a safe state, one map step of a client never takes another owner's lock out of a slot |
| LockSteps.SafeExactly | lock/lock.go:53-179 | a step keeps every claim of every client backed by the map iff it neither goes on to overwrite another owner's expired lock nor is a cleanup's collecting one |
| LockSteps.MutualExclusion | lock/lock.go:53-179 | in every interleaving without such a step, no two owners hold the same slot, whatever has expired |
| LockSteps.ExactlyOneWinner | lock/lock.go:53-96 | of any clients racing for an absent slot, with any traffic at other slots, exactly one of those that finished won |
| LockScans.ScansExactly | lock/lock.go:135-172 | run alone, in whatever order the keys come up, a disconnect removes exactly the client's locks and a cleanup exactly the expired ones |
| LockExpiry.LeasesExclude | lock/lock.go:53-179 | in every interleaving with expiry, takeovers and cleanups in which nobody acts on a stale check, no two owners have running leases on a slot |
| LockExpiry.LeasedExactly | lock/lock.go:53-179 | one step keeps every running lease backed iff it removes no lock whose owner's lease is running or which its owner is about to refresh; only a stale act can |
| LockExpiry.TakeoverBreaks | lock/lock.go:84-95 | whenever a client goes on to overwrite an expired lock, the slot still holds an expired lock or none and the client's new lease still runs, a second client can come to hold the slot with it, both leases running |
| LockExpiry.CollectionBreaks | lock/lock.go:157-172 | whenever a cleanup collects an expired lock, two clients can come to hold the slot, both leases running |
| LockExpiry.DeletionBreaks | lock/lock.go:102-172 | so they can whenever a client is about to delete a slot that is absent or holds an expired lock |
| LockExpiry.ExpiryBreaksExclusion | lock/lock.go:84-95 | two running leases on a slot are reachable from the empty table by overwriting |
| LockExpiry.CleanupBreaksExclusion | lock/lock.go:157-172 | and by a cleanup |
| LockExpiry.ReleaseBreaksExclusion | lock/lock.go:99-114 | and by a release |
| Registry.RacingOpenersAgree | sheet/manager.go:27-64 | all successful calls on one id, in every interleaving, return the same, still registered sheet |
| Registry.InstalledOnce | sheet/manager.go:49-63 | once a sheet is in the slot no other call replaces it |
| Registry.OpenedExactlyByPassword | sheet/manager.go:34-63 | a finished call got the sheet iff its password is that of the installed sheet |
| Registry.LaterCallersByPassword | sheet/manager.go:34-41 | a call that begins once the sheet is there succeeds iff its password matches |
| Lifetimes.TogetherExactly | ws/handler.go:155-162 | a single step of opening or leaving keeps every user of an id in the registered sheet iff it does not delete a sheet in use |
| Lifetimes.OneSheet | sheet/manager.go:27-83 | in every interleaving without such a step all connections inside are inside the same, registered sheet |
| Lifetimes.LeavesAlone | ws/handler.go:155-162 | a connection that leaves with nobody coming in between deletes no sheet in use |
| Lifetimes.OrphanSplits | ws/handler.go:155-162 | whenever a sheet in use is deleted, its user and any newcomer can end up in different sheets of the same id |
| Lifetimes.LeavingSplits | ws/handler.go:155-162 | that is reachable from nothing |
| SheetStore.Sheet.ValidatePassword | sheet/sheet.go:68-82 | accepts iff there is no hash yet or the password is the one it was made from, and then the hash is the password's |
| SheetStore.Sheet.Broadcast | sheet/sheet.go:112-126 | appends the message once to each collaborator's channel but the sender's |
| SheetStore.Sheet.BroadcastSetMsg | sheet/sheet.go:129-148 | the same for a set |
| SheetStore.Sheet.RemoveCollaborator | sheet/sheet.go:94-101 | removes the connection and returns how many remain |
| SheetStore.Manager.GetOrCreateSheet | sheet/manager.go:27-64 | fails iff an argument is empty or the password is wrong; otherwise the one sheet under the id is returned, new or old |
| SheetStore.Manager.AddSheet | sheet/manager.go:75-77 | exactly this sheet is stored, under its id |
| SheetStore.Manager.DeleteSheet | sheet/manager.go:80-83 | exactly the sheet of this id goes |
| LeaderHandler.Handler.HandleGet | ws/handler.go:271-282 | cache, reply and all channels afterwards are the specification's |
| LeaderHandler.Handler.HandleSet | ws/handler.go:284-313 | set, reply, broadcast, replication and the eviction notices, in this order, give exactly the specified world |
| LeaderHandler.Handler.HandleDelete | ws/handler.go:315-331 | likewise for delete |
| LeaderHandler.Handler.HandleDeletePrefix | ws/handler.go:333-347 | likewise for delete_prefix |
| LeaderHandler.Handler.HandleDeleteSuffix | ws/handler.go:349-363 | likewise for delete_suffix |
| LeaderHandler.Handler.HandleDump | ws/handler.go:365-372 | replies with the whole contents and their number |
| LeaderHandler.Handler.HandleLock | ws/handler.go:378-412 | acquires, refreshes or refuses with the right message, and replicates a grant |
| LeaderHandler.Handler.HandleUnlock | ws/handler.go:414-439 | releases or reports, and replicates a release |
| LeaderHandler.Handler.HandleSetNull | ws/handler.go:445-466 | stores and replicates the placeholder without broadcasting it, and announces an eviction |
| LeaderHandler.Handler.HandleOpen | ws/handler.go:222-265 | guards in the source's order; a success seats the client in the one registered sheet and sends its state |
| LeaderHandler.Handler.HandleRegisterReplica | ws/handler.go:472-502 | the connection moves from clients to replicas and gets the full state, then the response |
| LeaderHandler.Handler.DumpAll | ws/handler.go:505-512 | the full state holds exactly every sheet's contents |
| LeaderHandler.Handler.BroadcastToReplicas | ws/handler.go:600-611 | appends the message once to every replica's channel |
| LeaderHandler.Handler.HandleAction | ws/handler.go:173-216 | the dispatch gives the specified world for every request and keeps every client seated in the registered sheet |
| LeaderHandler.Handler.OnDisconnect | ws/handler.go:137-167 | a replica is only forgotten; a client loses its locks and its seat, and an empty sheet is deleted |
| LeaderHandler.Handler.Step | ws/handler.go:104-216 | every event takes the handler's objects to exactly the next world |
| LeaderRuns.Serve | ws/handler.go:104-134 | so does every sequence of events |
| LeaderRuns.Lead | ws/handler.go:88-167 | from a new handler, with no connection in both roles, the bookkeeping holds of the real objects |
| History.StoredExactly | cache/cache.go:147-316 | in every run of a fresh leader each sheet holds under each key exactly what the history of requests says: last set, lifetime from that set, removed, displaced, expired or deleted with the sheet |
| LeaderCaches.SheetIsRun | cache/cache.go:147-316 | in every run of a fresh leader a sheet's cache is what the calls made in it since it was opened make of an empty cache, so every theorem on runs of the cache holds of it |
| LeaderCaches.DisplacesOldest | cache/cache.go:127-138 | over a whole run of the leader, a set displaces the key of the sheet that has not been touched for longest |
| Replies.GetAnswersExactly | ws/handler.go:271-282 | over a whole run, a get is answered with the value last stored in that sheet under that key iff it is still there and its lifetime has not passed, and otherwise fails |
| Replies.SetLives | ws/handler.go:284-296 | after a set at `now` that nothing removes, overwrites or displaces, a get by anyone in the sheet hits iff it comes by `now` plus the cache lifetime, plus the jitter drawn if asked for |
| Replies.SetNullLives | ws/handler.go:445-451 | the same for the placeholder of a set_null, without jitter |
| Replies.DumpAnswersExactly | ws/handler.go:365-372 | over a whole run, a dump is exactly the keys stored with their values, and their number |
| Replies.SetReply | ws/handler.go:293-296 | the sender of a set or set_null is told success and the key, and nothing else |
| Replies.DeleteReply | ws/handler.go:315-321 | a delete is answered with success, the key and the number 1 |
| Replies.DeletePrefixReply | ws/handler.go:333-338 | a delete_prefix is answered with the number of keys held that are the prefix with something after it |
| Replies.DeleteSuffixReply | ws/handler.go:349-354 | a delete_suffix with the number of those that are something with the suffix after it |
| Replies.RefusalReply | ws/handler.go:222-232 | the messages for requests without a sheet, second opens, missing arguments and unknown actions |
| Replies.ConnectReply | ws/handler.go:104-118 | a new connection is a client without a sheet, with an empty channel |
| Replies.RegisterReply | ws/handler.go:472-512 | a registration is answered with all that every sheet holds, and then acknowledged |
| Passwords.PasswordStays | sheet/manager.go:27-64 | as long as a sheet stays registered its password is that of the open that made it |
| Passwords.SeatedExactly | ws/handler.go:222-251 | in every run, a connection without a sheet gets into the one it names iff that is not there or was made with the very password given; otherwise it is refused and nothing else changes |
| Passwords.ReaderJoinsExactly | reader/reader.go:384-416 | a reader that asked becomes live with the contents, or fails, by the same test |
| Holders.HeldExactly | lock/lock.go:53-179 | in every run of a fresh leader the lock table holds in each slot exactly what the history of requests says: last grant, its end, release, disconnect, cleanup |
| Holders.AnsweredExactly | ws/handler.go:378-439 | over a whole run, what lock and unlock are answered: granted, refused, not found, not owner |
| Holders.LockHeard | ws/handler.go:378-412 | a replica hears of every grant, with its end, and of no refusal |
| Holders.UnlockHeard | ws/handler.go:414-439 | and of every release |
| Server.InSheetFrame | ws/handler.go:271-466 | a request in a sheet changes that sheet's cache, the locks and the channels, nothing else |
| Server.StepKeepsLinked | ws/handler.go:222-251 | in every step, whoever has a sheet open is a collaborator of a registered sheet |
| Channels.HeardExactly | ws/handler.go:284-466 | exactly which messages, in which order, every other connection receives from a request |
| Channels.AppendedExactly | ws/handler.go:104-216 | and from any event |
| Session.BookkeepingExactly | ws/handler.go:137-502 | one step keeps sheets, collaborators, clients, replicas and locks consistent iff it gives no connection both roles |
| Session.BookkeepingAlways | ws/handler.go:137-502 | hence in every reachable state of single-role runs |
| Session.SheetNeverDeleted | ws/handler.go:137-163 | once a connection in both roles is stuck in a sheet, no run without its address deletes the sheet |
| Session.BothRolesKeepTheSheet | ws/handler.go:137-502 | the step that breaks the bookkeeping makes that connection's sheet permanent in every such run |
| Isolation.StepCommutes | ws/handler.go:137-502 | a step restricted to what the kept connections see is that step of the restricted world, or nothing if it was an outsider's |
| Isolation.StepCommutesExactly | ws/handler.go:137-502 | from a separated world: an event is proper iff that holds and the next world is separated again (bookkeeping, no shared sheet, no colliding ids, no kept replica beside others' sheets) |
| Exposure.SeparatedExactly | ws/handler.go:173-466 | with the bookkeeping in order, a world is separated iff the kept connections make a world of their own and no requests within sheets ever let one of them see from its channel that others are there |
| Exposure.ProperExactly | ws/handler.go:137-502 | an event is proper iff it keeps the bookkeeping, commutes with the restriction and leaves a world in which no requests within sheets can show the others |
| Exposure.CollisionShows | lock/lock.go:47-96 | if two ids of the two groups collide, an outsider's lock can get a kept client's lock in its own sheet refused |
| Exposure.ReplicaShows | ws/handler.go:284-313 | a kept replica hears of a set in a sheet of theirs |
| Isolation.TenantIsolation | ws/handler.go:137-502 | removing all other connections, replicas included, from a run changes nothing in the kept ones' sheets, recency orders, locks or messages |
| Isolation.OpenSeenExactly | ws/handler.go:222-265 | the answer to an open differs from the one in a world without the others iff they have that sheet open and the password is wrong or the sheet is not empty |
| Replication.FullStateArrives | replica/client.go:186-203 | full state over any contents, in any order, leaves every leader pair; over nothing, exactly them |
| Replication.CarrySet | replica/client.go:206-252 | set, then evict message, keep the replica within the bound whichever key it evicted itself, the leader's keys ahead of all others |
| Replication.CarryStep | ws/handler.go:284-363 | every leader step and its messages keep every sheet within the bound |
| Replication.ReplicaLagBound | replica/client.go:186-252 | from any registration on, first or repeated, in every reachable state, pending messages applied, in each sheet: common keys have the leader's value, at most one of the leader's keys is missing (none at capacity 1), at most capacity minus the leader's number plus one are others (none after a clean start) |
| Replication.DrainedReplicaLag | replica/client.go:206-252 | with nothing pending that bounds the replica's own caches |
| Replication.QueueCanDrain | replica/client.go:104-183 | every queue can be applied to the end |
| Replication.LagIsTight | cache/cache.go:147-201 | at every capacity of 2 or more, from any state with a full sheet some run since a first registration ends with the replica missing exactly one key |
| Replication.BothRolesStrayCopy | sheet/sheet.go:129-148 | whatever the replica held, a set heard in both roles leaves the pair under the sheet "" |
| Replication.DropsByPrefix | replica/client.go:230-235 | what a replica drops on a replicated delete_prefix, in terms of concatenation |
| Replication.DropsBySuffix | replica/client.go:238-243 | and on a replicated delete_suffix |
| Replication.DropsInPlace | replica/client.go:222-252 | removals make no sheet and touch no other |
| Replication.CachesOkRun | ws/handler.go:284-466 | runs without empty keys only reach states from which the bound starts |
| ReplicaClient.Client.ApplyFullState | replica/client.go:186-203 | the nested loops load every sheet, in any order, every pair to live one cache lifetime from now |
| ReplicaClient.Client.ApplySet | replica/client.go:206-219 | creates a missing sheet and sets, to live one cache lifetime from its own now, plus its own jitter if asked for |
| ReplicaClient.Client.ApplyDeletePrefix | replica/client.go:230-235 | deletes in the sheet if it exists and creates none |
| ReplicaClient.Client.ApplyEvict | replica/client.go:246-252 | drops the evicted key if the sheet exists |
| ReplicaClient.Client.HandleMessage | replica/client.go:104-183 | every message has the effect the lag bound assumes |
| ReplicaClient.Client.Listen | replica/client.go:76-101 | receiving a queue is folding it, so the lag bound speaks about these objects |
| Readers.TellsExactly | ws/handler.go:284-363 | what a request broadcasts keeps a collaborator's map equal to the leader's iff the request is none of the spoiling ones |
| Readers.InvalidatesExactly | reader/reader.go:485-510 | what an invalidation drops from the local map, in terms of concatenation |
| Readers.StoresExactly | reader/reader.go:478-488 | what a pair adds to a live reader's map, and that a whole state replaces it |
| Readers.OrdinaryNeverSpoils | ws/handler.go:284-363 | requests with non-empty keys and patterns, no set_null and no expired entry are never spoiling |
| Readers.StepConvergesExactly | ws/handler.go:137-502 | while the collaborator is passive, an event of any kind keeps its map, with all pending messages, the leader's iff it is neither a spoiling request in the sheet nor a sweep of it that finds an expired entry |
| Readers.ReaderConverges | reader/reader.go:432-513 | from its open on, in every reachable state, a passive collaborator's map with all pending messages applied is the leader's Dump, evictions included |
| ReaderRuns.OrdinaryReaderConverges | reader/reader.go:432-513 | the same from a fresh leader on, if keys and patterns are not empty, no set_null is used and nothing expires |
| Readers.OpenedConverges | ws/handler.go:253-265 | the open's two messages bring any reader to the leader's contents |
| Readers.OwnReply | sheet/sheet.go:112-148 | the sender hears its response and none of its own broadcasts |
| Writers.TellsEnough | reader/reader.go:473-513 | hearing about any change but set_null loses no pair the leader still has |
| Writers.IssueCovers | reader/reader.go:205-310 | neither does applying one's own change first |
| Writers.NoLostKeys | reader/reader.go:205-310 | after every round of a run, across evictions, expiry, sweeps and disconnects, each joined reader, writers included, has every leader pair |
| OwnWrites.SyncedExactly | reader/reader.go:205-310 | a reader that applies its own changes first has after an event exactly the leader's contents iff the event is none of: its own set that displaces a key, a set_null that changes something, something expired, or another's spoiling request |
| OwnWrites.WriterHasExactly | reader/reader.go:205-310 | hence, from its open on and after every event of a run without such events, other writers included |
| OwnWrites.OnlyWriterStays | reader/reader.go:205-310 | the only writer of a sheet meets none of them while nothing expires and none of its sets displaces a key |
| ReaderClient.Reader.Get | reader/reader.go:156-158 | the local map's value, or none |
| ReaderClient.Reader.Set | reader/reader.go:205-227 | refuses when closed, then when not connected; otherwise the local map has the pair, and it is sent unless the write fails |
| ReaderClient.Reader.Delete | reader/reader.go:231-252 | likewise; the local map loses exactly the key |
| ReaderClient.Reader.DeletePrefix | reader/reader.go:255-281 | likewise; the local map loses exactly the keys that are the prefix with something after it |
| ReaderClient.Reader.DeleteSuffix | reader/reader.go:284-310 | likewise; the local map loses exactly the keys that are something with the suffix after it |
| ReaderClient.Reader.LoadState | reader/reader.go:432-443 | the map becomes exactly the data received |
| ReaderClient.Reader.HandleMessage | reader/reader.go:473-513 | the effect of each message is the one the convergence proofs use |
| ReaderClient.Reader.Listen | reader/reader.go:445-471 | receiving a queue is folding it |
| ReaderClient.Reader.ConnectTo | reader/reader.go:365-430 | connects iff the open was acknowledged and the state arrived, fails iff refused or cut off, and reads not one message more |

## Left out

- SheetStore.Sheet: its embedded cache is held as its `Lru` value; module CacheStore proves that the linked structure behaves as that value, but the two are not composed on the heap, so a cache shared between two sheets is not ruled out here.
- SheetStore.Manager.GetOrCreateSheet: the hash is abstract (it verifies exactly the password it was made from), so bcrypt's errors and its 72-byte limit are not modelled.
- SheetStore.Sheet.ValidatePassword: likewise, the first password of a replica sheet is always taken; the source refuses it when hashing fails.
- LockManager.Manager.TryAcquire: one clock reading per call; the source reads the clock up to three times, which LockSteps models step by step.
- Registry.OpenedExactlyByPassword: a registered sheet has a hash; the race for the first password of a promoted replica sheet is not modelled.
- Replication.ReplicaLagBound: nothing expires, keys are non-empty, the leader deletes no sheet while the replica is registered (a deletion is not replicated), no connection is in both roles, and both sides have the same capacity of at least 1; leader and replica draw their own clocks and jitter, so no bound across expiry is claimed.
- Readers.ReaderConverges: the collaborator sends nothing that changes the sheet, and no step is one of those that `Readers.Upsets` lists; `Readers.StepConvergesExactly` shows that each of them ends the agreement.
- Writers.NoLostKeys: each change and its broadcasts are delivered before the next one, and `set_null` is not used; two writers that overlap can leave a reader with the older value.
- Isolation.TenantIsolation: every event is proper; `Exposure.ProperExactly` says what that amounts to, event by event.
- Lifetimes.OneSheet: the passwords of the openers, which module Registry treats; a first lookup and LoadOrStore are single steps.
- LockSteps.MutualExclusion: runs without a takeover of an expired lock and without a cleanup's find; `LockExpiry` treats those that have them.
- LockExpiry.LeasesExclude: nobody acts on a stale check; `LockExpiry.LeasedExactly` says which stale acts do harm (overwriting the lock of a client that has given up does none).
- ReaderClient.Reader.ConnectTo: dialling and sending the open cannot fail here; what arrives, or that nothing more arrives, is the input.
- Mutexes: every cache, sheet and handler call is one step, so messages of two writers are never interleaved inside a request.
- WebSocket upgrade, dialling, read and write errors, JSON encoding and invalid JSON; channels are reliable FIFO queues.
- LeaderHandler.Handler.HandleOpen: the source closes the connection after a wrong password (`ws/handler.go:239`); here it may go on, which only adds runs.
- Reader reconnect, failover and Close, replica reconnect, heartbeats and promotion: timers and I/O around the operations modelled.
- Locks replicated to replicas, which only log them (`replica/client.go:164-170`), and SetLock.
- The width of integers, time overflow and the truncation of RFC 3339 timestamps to seconds.
- Jitter arithmetic, itoa, IsNull, the other getters, counters, configuration, logging and main.
