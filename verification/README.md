# Bakery: storage, cache and authority, modelled and proved

Bakery is a multi-tenant build-cache server. This project models its three hardest parts in
Dafny and proves what they promise.

**The blob service.** `BlobProtocol` is a step system: every transaction (PUT, Delete,
DeleteBatch, the GC's mark, ReapDigest) runs one SQL statement per step, uncommitted writes
live in the transaction, each statement takes the row and advisory locks Postgres takes and
waits for others', the byte store is not transactional, and a rollback or a crash may come at
any step. `BlobSafety` proves the storage invariant over every interleaving, and `BlobEffects`
what each kind of transaction does to the tables when it commits. `Lru`,
`LruShards` and `LruCaches` are the metadata cache: the shard as a value, the shard as the
class with its map, list, generation and mark counter, and 64 of them behind an arbitrary
hash. `Coherence`, `CoherenceProofs`, `PublishOrder`, `Serialised` and `Races` put the cache in front of the
protocol, with fills and publications interleaved freely. `CacheKey`, `Toucher`, `AuxMarks`,
`AccessFlush` and `Veto` are the access toucher and the GC's veto; `BatchExists` is
FindMissingBlobs; `LockOrder` and `BatchDelete` are the GC's deletion path.

**Authority.** `Authority` has the membership, project-role and key tables and one step per
transaction that writes them, statement by statement, with cascades and epoch triggers.
`AuthorityProofs`, `AuthorityLaws` and `Epochs` prove what runs keep; `AuthService` is the
reconciliation and the handlers as methods over those tables; `GroupMaps` resolves a groups
claim; `Roles` holds the capabilities and `Capabilities` says which rows confer them; `PrincipalCaches` and `PrincipalRuns` are the
principal cache and the requests racing through it.

**Exact algorithms.** `Sstate` derives a unihash by a backtracking match, `GcPlan` builds the
retention ladder, `ObjectBrowser` turns a prefix into a key range and pages over it.

## Where the code and its own comments part

The model follows the code.

- *The refcount trigger's ordered lock* (`internal/db/migrations/000006_blobs_and_objects.up.sql:275-282`)
  is said to rule out a deadlock between overwrites that swap two digests. A PUT has by then
  locked the row of its new digest (`internal/db/query/objects.sql:109-113`), so two PUTs over
  existing rows can deadlock: over two keys exactly when they swap a pair of digests, and over one
  key exactly when one of them re-puts the content the row holds (`LockOrder.OverwritesDeadlockIff`).
- *A single Delete against a batch that names its key* takes the object row and the blob row in
  the opposite order. The two can deadlock exactly when the batch locks the key's digest and deletes
  the key: `LockOrder.DeleteAgainstBatch`. Batches and reaps among
  themselves cannot: `LockOrder.GcNeverDeadlocks`.
- *The ordered locks of a batch* (`internal/blob/deletebatch.go:45-53`, `internal/db/query/gc.sql:283-300`)
  are said to rule a deadlock with a concurrent overwrite out. The overwrite has by then locked its
  new digest, and locks its object row before the old digest. The two can deadlock exactly when the
  batch locks the old digest and either the new one after it, or not the new one but the overwritten
  key: `LockOrder.OverwriteAgainstBatch`.
- *A Delete that finds no row* still publishes a negative entry, and holds no lock that keeps a
  PUT of the key from running in between, from first statement to publish: `Races.AbsentDeleteHidesObject`.
  A discipline that rules it out, and that a caller can check as it goes, is to take the writers
  of a key one at a time, from their object statement to their publish: `Serialised.OneAtATime`
  and `Serialised.SerialCoherent`. The exact condition, in the order in which the writers of a key
  committed and published, is `PublishOrder.CoherentIffInOrder`.
- *A commit whose answer is lost* returns an error and skips the publish
  (`internal/blob/blob.go:1114-1118`, `internal/blob/blob.go:1211-1213`), so a positive entry can
  outlive its row and its bytes: `Races.LostCommitDangles`. With lost commits in a run,
  `CoherenceProofs.CoherentIffTimely` is the exact condition.
- *An org admin cannot unmake an owner* (`internal/api/members.go:370-388`) holds of the checks, which
  read before the transaction that writes. A promotion in between is undone by the late write:
  `AuthorityLaws.LateWriteUnmakesOwner`. `AuthorityLaws.OwnersOnlyByOwners` gives exactly when.
- *A key never exceeds its owner's role* (`internal/db/query/api_keys.sql:41-46`): the role is read and
  the key inserted by two statements, and a downgrade in between revokes nothing of a key that is not
  there yet: `AuthorityProofs.MintRace`. It holds over a run exactly when no insert is overtaken so:
  `AuthorityProofs.KeysWithinIffTimely`.
- *"It must run before"* (`internal/db/query/identity.sql:229-237`): with the guards the two
  reconciliation statements carry, they touch disjoint rows and commute, on every table and every
  epoch: `AuthorityLaws.DeleteAndClearCommute`.
- *"Clear only the ones that were written"*: a tag's mark is never written, and is cleared
  whenever some other key of the same tick was written, and kept otherwise. `AccessFlush.FlushAccess`
  states both.
- *The stage ladder never decreases* exactly while doubling a window fits in 64 bits, which it does
  for every retention of at most ten years, typed or seeded: `GcPlan.LadderIff`, `GcPlan.BuildPlans`.
- *A prefix is a key range* (`internal/api/objects.go:88-118`) in byte order. The key column is
  ordered by the database's default collation (`internal/db/query/objects.sql:201-202`,
  `internal/db/query/usage.sql:76-81`). The range holds exactly the keys with the prefix, for every
  key and prefix, if and only if that order is byte order: `ObjectBrowser.RangesIffBytewise`. Where
  '[' sorts before 'Z' the range of "Z" is empty: `ObjectBrowser.RangeMissesPrefix`.
- *The incremented last byte* need not be text: the bound of a well-formed prefix that ends in 0x7F or
  0xBF is no UTF-8, and the database refuses it, so such a prefix gives an error and not a page. No
  other does: `ObjectBrowser.BoundIsTextIff`.

## Assumptions

SQL statements, triggers, checks and foreign keys are taken from the query and migration files
cited. A digest is an abstract content address; two contents never share one. A row lock is
exclusive: the KEY SHARE locks of foreign keys are not modelled. An authority handler runs as one
step, or as its write alone with checks made on a read that may be out of date.
Flushes of access marks may overlap, as the ticker's (`internal/server/boot.go:457`) and the
sweep's (`internal/gc/sweep.go:451`) do. The clock never reads 0, and for the veto distinct reads carry
distinct stamps (`Veto.SharedStampLosesRead` shows why). The shard hash is any fixed function;
a generation is unbounded. Cache agreement is on presence, digest, size and content type, since
a PUT caches its own clock as the time. The database's order of keys is any total one with the
empty string first.

## Model

| member | source | states |
|---|---|---|
| BlobSafety.StepKeeps | internal/blob/blob.go:1009-1161 | every statement, commit, rollback and crash of PUT, Delete, mark and reap keeps the storage invariant together with what each uncommitted transaction holds |
| BlobSafety.StorageSafety | internal/blob/blob.go:12-28 | in every state of every interleaving, with a crash or rollback anywhere: live blobs have their bytes, object rows name a live blob of their size, a tombstone is unreferenced, each refcount is the number of rows naming the digest |
| BlobSafety.NeverDangling | internal/blob/blob.go:968-987 | no committed object row ever names bytes storage does not have |
| BlobSafety.ReapUnreferenced | internal/blob/blob.go:1226-1300 | when a reap is about to delete the blob row, no row names the digest, not even an uncommitted one, so ON DELETE RESTRICT never fires |
| BlobSafety.RecordIncrementsLive | internal/blob/blob.go:1061-1120 | when the trigger is about to count a PUT's row, the blob is live in the transaction's view and its bytes are durable |
| BlobSafety.UnlinkKeeps | internal/blob/blob.go:1279-1286 | unlinking inside the reap's transaction takes the bytes of no blob anyone could see as live |
| BlobSafety.CommitSound | internal/db/query/objects.sql:124-160 | any transaction's writes, committed alone at any moment, leave the tables sound |
| BlobSafety.CommitKeepsOther | internal/blob/blob.go:1061-1120 | a commit invalidates no other transaction's uncommitted writes |
| BlobSafety.NamingMove | internal/db/migrations/000006_blobs_and_objects.up.sql:251-302 | moving a key between digests changes each digest's number of naming rows by exactly the trigger's arithmetic |
| BlobEffects.PutTakesEffect | internal/blob/blob.go:1061-1161 | a PUT that recorded its row and commits leaves the key naming the uploaded digest, live, of its size and in storage, and moves no other row; one that lost the key to an immutable row commits no object row |
| BlobEffects.CommittedPut | internal/db/query/objects.sql:124-161 | from its object statement to its commit, whatever runs between: a PUT that may overwrite, or that found no row, leaves the key naming the uploaded digest, live and stored; an immutable PUT that found a row leaves every row as it was |
| BlobEffects.TablesMoveAtCommits | internal/blob/blob.go:1061-1120 | over any run the committed tables move only at a commit, and then to what that transaction saw; no rollback or crash moves them |
| BlobEffects.EndsRelease | internal/blob/blob.go:1061-1120 | the end of a transaction gives up its locks and nobody else's, and a crash ends them all and keeps tables and bytes |
| BlobEffects.CheckDecides | internal/blob/blob.go:1009-1060 | a PUT writes bytes exactly if its check found no live blob of its digest, and otherwise keeps that blob's row locked |
| BlobEffects.DeletedRowIsGone | internal/blob/blob.go:1191-1224 | the statement takes the row from the transaction's view if it was there, and touches no other |
| BlobEffects.DeleteTakesEffect | internal/blob/deletebatch.go:186-197 | a committed Delete or batch removes rows it named and no others |
| BlobEffects.FoundRowGoes | internal/blob/deletebatch.go:186-197 | a row the statement found is gone at the commit, whatever ran between the two |
| BlobEffects.MarkStatement | internal/db/query/gc.sql:65-86 | a candidate the mark takes becomes a tombstone in its view, and nothing else in the view moves |
| BlobEffects.MarkTakesEffect | internal/db/query/gc.sql:65-86 | a committed mark tombstones only blobs no row names, and touches no object row |
| BlobEffects.ReapTakesEffect | internal/db/query/gc.sql:109-111 | a finished reap removes exactly its own blob row, no row names it then, and the tables it leaves are sound |
| BlobEffects.BytesMove | internal/blob/blob.go:1279-1286 | over any run a digest's bytes come exactly with the sync or commit of a PUT of it, and go exactly at its own reap's unlink |
| Lru.LookupInsert | internal/blob/lru.go:223-268 | after an insert the key answers with the new meta and keeps a pending stamp; every other key keeps its entry or was evicted |
| Lru.EvictsOnlyTheTail | internal/blob/lru.go:246-268 | an insert loses a key exactly when a new key meets a full shard and that key is the least recently used |
| Lru.HistoryIsLru | internal/blob/lru.go:153-371 | from any state, after any history of publishes, fills, reads, removals and clears, the shard holds the keys of the plain recency list in its order, and its generation counts the invalidations |
| Lru.ReplayIsLru | internal/blob/lru.go:153-268 | after any history of publishes, landed or dropped fills, hits and misses, a shard holds exactly the keys most recently used, in that order, up to its capacity; a hit is a use, a miss and a dropped fill are none |
| Lru.CollectExact | internal/blob/lru.go:402-444 | a mark is collected exactly when an entry carries that stamp and it is old enough |
| LruShards.LruShard.Get | internal/blob/lru.go:153-199 | a hit moves to the front and stamps a positive unmarked entry, a miss changes nothing; map, list, bound and mark counter stay in step |
| LruShards.LruShard.InsertLocked | internal/blob/lru.go:223-268 | refresh in place keeping the stamp, or push front and evict the tail; reports what it added and evicted |
| LruShards.LruShard.PutIfUnchanged | internal/blob/lru.go:312-340 | a fill lands exactly when the generation is the captured one |
| LruShards.LruShard.DelBatch | internal/blob/lru.go:524-571 | one generation bump for the shard, every named key gone, the number removed returned |
| LruShards.LruShard.CollectMarks | internal/blob/lru.go:402-444 | the walk that stops at the last marked entry returns what a full walk returns |
| LruShards.LruShard.ClearMarks | internal/blob/lru.go:447-478 | unmarks exactly the entries whose stamp is still the collected one |
| LruShards.LruShard.PendingMark | internal/blob/lru.go:490-504 | true exactly when the key's entry carries a stamp |
| LruCaches.LruCache.CollectMarks | internal/blob/lru.go:402-444 | over all 64 shards, the marks a full walk would return for the cutoff |
| LruCaches.LruCache.ClearMarks | internal/blob/lru.go:447-478 | grouping the marks by shard clears what clearing them all in every shard would |
| LruCaches.LruCache.DelBatch | internal/blob/lru.go:524-571 | each shard loses its own keys under at most one bump; a shard with none is untouched |
| LruCaches.ClearMine | internal/blob/lru.go:447-478 | marks of other shards clear nothing in this one |
| LruCaches.CollectFromExact | internal/blob/lru.go:402-444 | a collected mark is one some shard holds |
| CoherenceProofs.StepKeeps | internal/blob/lru.go:294-340 | every timely step keeps cache agreement, and, a lost commit apart, that a fill whose generation is current saw the current row or is about to be overtaken |
| CoherenceProofs.LandKeeps | internal/blob/blob.go:724-747 | landing a fill that is timely keeps agreement, whatever happened while it was in flight |
| CoherenceProofs.ReadEffect | internal/blob/lru.go:153-199 | in front of any protocol state a read brings its entry to the front, marks a positive unmarked one, and changes no other |
| CoherenceProofs.DropEffect | internal/blob/lru.go:524-571 | an invalidation forgets exactly the keys it names in its shard and moves its generation |
| CoherenceProofs.CommitCovered | internal/blob/blob.go:1167-1224 | every row a commit changes is one its writer still has to publish |
| CoherenceProofs.UntimelyBreaks | internal/blob/blob.go:1167-1182 | an untimely put, landing or lost commit leaves an entry the table contradicts and nobody will correct |
| CoherenceProofs.CoherentIffTimely | internal/blob/lru.go:294-371 | over any run, with commits whose answer is lost, the cache agrees with the tables in every state, for every key with no writer between commit and publish, if and only if every put, landing and lost commit is timely |
| CoherenceProofs.CoherentIffPutsTimely | internal/blob/lru.go:294-340 | while no commit's answer is lost the puts alone decide: the generation check makes every landing timely |
| PublishOrder.RowIsLastWritten | internal/blob/blob.go:1061-1120 | the committed row is what the last commit to write it left, over any run |
| PublishOrder.TimelyIffLastWritten | internal/blob/blob.go:1167-1182 | a put is timely exactly when another writer of the key has still to publish, or it describes the row the last commit left |
| PublishOrder.LastCommitterIsTimely | internal/blob/blob.go:1061-1120 | the last writer of a row to commit may publish at any time; writers publishing in commit order never leave a key wrong |
| PublishOrder.CoherentIffInOrder | internal/blob/lru.go:294-371 | over a run without lost commits, the cache is coherent in every state exactly when every put passes that test of commit and publish order |
| CoherenceProofs.RunWellFormed | internal/blob/lru.go:223-268 | in any run each entry sits once, in the shard its key hashes to, within the capacity |
| Serialised.SerialCoherent | internal/blob/blob.go:1061-1120 | with the writers of each key taken one at a time, and any number of fills in flight, the cache is coherent in every state |
| Serialised.CachedPositiveHasBytes | internal/blob/blob.go:933-964 | then every positive entry of a key with no writer between commit and publish names bytes that are in storage: a Get served from it is not dangling |
| Races.AbsentDeleteHidesObject | internal/blob/blob.go:1191-1224 | a reachable state in which a Delete that found no row leaves a negative entry over an existing object |
| Races.FillLands | internal/blob/blob.go:724-747 | a reachable state in which a fill that nothing overtook has landed and answers from memory |
| Races.ReversedPublishDangles | internal/blob/blob.go:1061-1120 | a reachable state in which two writers published in the opposite order to their commits and a positive entry names unlinked bytes |
| Races.LostCommitDangles | internal/blob/blob.go:1211-1213 | a reachable state in which a Delete's commit was lost and the positive entry names unlinked bytes |
| CacheKey.ParseFormatInt | internal/blob/toucher.go:437-456 | a base-36 id reads back, negatives included, exactly when it is an int64 |
| CacheKey.SplitInvertsCompose | internal/blob/toucher.go:437-456 | the split gives back backend, namespace and key, for every int64 and every key, exactly when the namespace holds no NUL |
| CacheKey.ComposeInjective | internal/blob/blob.go:155-163 | two refs with one cache key are one ref: backends never share an entry |
| CacheKey.NulNamespaceCollides | internal/blob/blob.go:155-163 | with a NUL in a namespace two refs do share an entry |
| CacheKey.CanonicalSplit | internal/blob/toucher.go:437-456 | cache keys that split to the same parts are the same key |
| Toucher.TargetOfComposed | internal/blob/toucher.go:405-428 | a mark is written under its own backend and namespace, unless it is a tag's |
| Toucher.GroupMarks | internal/blob/toucher.go:405-428 | both sources fold into groups holding exactly the targets of the marks, none twice |
| AuxMarks.AuxPending.Mark | internal/blob/toucher.go:127-143 | the first mark of a key wins; a new one is dropped exactly when its shard is full |
| AuxMarks.AuxPending.Collect | internal/blob/toucher.go:148-164 | exactly the marks at or before the cutoff, each once |
| AuxMarks.AuxPending.Clear | internal/blob/toucher.go:167-181 | clears a mark exactly when its stamp is one that was collected |
| AccessFlush.WriteGroup | internal/blob/toucher.go:345-400 | one group's keys in order, in chunks of at most a thousand, stopping at the first error |
| AccessFlush.WritePending | internal/blob/toucher.go:331-366 | a finished write sent each wanted key under its own group exactly once; an unfinished one sent nothing else |
| AccessFlush.FlushAccess | internal/blob/toucher.go:331-366 | a tick that wrote clears exactly the collected marks of both sources; one that failed or had nothing to write clears none; the rows reported are the sum over the statements that committed, up to the first error |
| Veto.ClearExact | internal/blob/lru.go:447-478 | clearing unmarks a key exactly when its entry still carries a collected stamp |
| Veto.SharedStampLosesRead | internal/blob/toucher.go:331-366 | with equal stamps a flush that saw the first read clears the second |
| Veto.ReadMarks | internal/blob/lru.go:153-199 | a read of a cached object, and a reachability mark, make the key's answer pending at once |
| Veto.PendingLost | internal/blob/toucher.go:235-245 | a pending answer turns false only when no source is left: the entry's mark goes with the entry or when a flush that finished its writes clears the mark it collected, the auxiliary mark only by such a clear |
| Veto.NewerSurvives | internal/blob/lru.go:447-478 | a read stamped after a flush had collected outlives that flush's clears, in both sources, whichever other flushes are under way |
| Veto.ClearTakes | internal/blob/lru.go:447-478 | a clear unmarks a key exactly when its entry, or its auxiliary mark, still carries what the flush collected |
| Veto.FlushGathers | internal/blob/lru.go:402-444 | a flush gathers from a shard exactly the marks in it that are due |
| Veto.FlushGathersAux | internal/blob/toucher.go:148-164 | and the same of the auxiliary marks |
| Veto.FlushCarries | internal/blob/toucher.go:331-366 | what a flush gathered is what it clears once its writes have committed; one that fails clears nothing, and flushes do not touch each other |
| Veto.VetoHolds | internal/blob/toucher.go:235-245 | over any run, with any number of overlapping flushes, a key's pending answer stays true through their collects, writes and failures, and through evictions while an auxiliary mark is there, until a step leaves no source of it |
| Veto.AuxHolds | internal/blob/toucher.go:167-181 | an auxiliary mark stays at its stamp until a finished flush clears that very stamp, whatever is evicted |
| Veto.ClearsOnlyCollected | internal/blob/toucher.go:331-366 | over any run no clear of any flush takes a mark made after that flush had collected |
| BatchExists.LookUp | internal/blob/blob.go:830-862 | one position: the cached answer, or the generation captured before any query |
| BatchExists.Scan | internal/blob/blob.go:826-863 | the residue is exactly the missed refs, each once, with every position that asked and its shard's generation |
| BatchExists.Land | internal/blob/blob.go:893-916 | every fill of the batch finds its captured generation current and lands |
| BatchExists.ExistsBatch | internal/blob/blob.go:796-924 | at each position the answer of a single lookup against the same cache and database, duplicates and mixed namespaces included; an error exactly when a missed ref cannot be answered; one landed fill per distinct missed ref |
| BatchExists.ScannedAnswers | internal/blob/lru.go:153-199 | the scan changes no answer and no generation |
| BatchExists.FilledAnswers | internal/blob/blob.go:893-916 | what is cached afterwards is what was, or, for the ref filled under that key, its row's digest, size, time and content type, or that there is no row |
| LockOrder.NoDeadlock | internal/blob/deletebatch.go:144-165 | while the transactions under way lock digests in ascending order and object rows under their blob rows, they form no cycle of waits, however many there are and whatever ran before |
| LockOrder.NeverWaitsForObject | internal/db/query/gc.sql:302-318 | such transactions never wait for an object row, in whatever order the DELETE takes them |
| LockOrder.SomeoneProceeds | internal/blob/deletebatch.go:144-165 | while such transactions remain, one is not waiting |
| LockOrder.GcNeverDeadlocks | internal/blob/blob.go:1251-1300 | while every transaction under way is a DeleteBatch or a ReapDigest, any number of them: no cycle of waits, and always one that can go on; a key may have had other digests before |
| LockOrder.PutNewOrdered | internal/blob/blob.go:1127-1161 | a first upload fits the same order exactly when the key's row names its digest |
| LockOrder.DeadlockIff | internal/blob/deletebatch.go:219-223 | two transactions can reach a deadlock exactly when their lock plans cross |
| LockOrder.OverwritesDeadlockIff | internal/db/migrations/000006_blobs_and_objects.up.sql:273-282 | two PUTs over existing rows deadlock exactly when they move two keys and swap a pair of digests, or name one key and exactly one re-puts the content it holds |
| LockOrder.DeleteAgainstBatch | internal/db/query/objects.sql:223-225 | a single Delete and a batch can deadlock exactly when the batch locks the digest and deletes the key of that Delete |
| LockOrder.OverwriteAgainstBatch | internal/blob/deletebatch.go:45-53 | an overwrite and a batch can deadlock exactly when the batch locks the old digest and either locks the new one after it, or does not lock it and deletes the key |
| BatchDelete.SortShape | internal/blob/deletebatch.go:168-170 | the locks are the batch's digests in ascending order, none lost |
| BatchDelete.AcceptedIff | internal/blob/deletebatch.go:85-97 | a batch passes exactly when it has one group and every key has 1 to 1024 characters; the complaint is the first ref's, of its group before its key |
| BatchDelete.BlobService.DeleteBatchTx | internal/blob/deletebatch.go:165-215 | at most three attempts, a retry only after a deadlock, only the committed attempt deletes and only its count is reported, rows the write barrier holds spared, each error exactly for its cause |
| BatchDelete.BlobService.DeleteBatch | internal/blob/deletebatch.go:66-106 | an accepted batch succeeds exactly when an attempt commits after nothing but deadlocks; then a row is gone exactly if it was named and is not newer than the run, the number gone is reported, and the cache is invalidated; on any error neither the table nor the cache moved |
| BatchDelete.BatchForgets | internal/blob/deletebatch.go:101-105 | no named key is answered from memory afterwards, and fills in flight for its shard are void |
| BatchDelete.BatchIsGcPlan | internal/blob/deletebatch.go:144-165 | such a batch takes its locks as the no-deadlock theorem asks; only the rows it deletes need still carry the digests that were scanned |
| Roles.TokenWithinSession | internal/auth/principal.go:289-450 | a user token can do nothing its owner's session on the same roles cannot, administers nothing, and never writes under a read ceiling |
| Roles.KeyWithinSession | internal/auth/principal.go:481-510 | an API key within its owner's project role can do nothing the owner's session cannot |
| Capabilities.SessionMay | internal/auth/principal.go:325-450 | what a signed-in user may view, own, administer, read and write, exactly, by the site columns, both halves of the membership row and the project role row |
| Capabilities.TokenMay | internal/auth/principal.go:375-437 | what their token may: no site role, no administration, reads by membership or project role, writes exactly by a writing project role under a write ceiling |
| Capabilities.KeyMay | internal/auth/principal.go:478-491 | a key reads exactly its own project, and writes it exactly with write scope |
| Capabilities.RobotMay | internal/auth/principal.go:464-476 | a robot reads the projects of its own org and no other, and writes them exactly with write scope |
| Capabilities.NoGrantNoAccess | internal/auth/principal.go:452-462 | a machine credential without a grant opens nothing |
| Capabilities.ScopeCap | internal/auth/principal.go:493-510 | a reader mints read keys, a writer or an admin either |
| Capabilities.WritesNeedAuthority | internal/api/members.go:125-192 | every write of the API went through on the rows that authorise it: an admin's, an owner's where an owner is made or unmade, a project admin's, or the minter's own role |
| AuthorityProofs.CascadedKeeps | internal/db/migrations/000002_identity.up.sql:105-127 | whatever membership and role rows go, the cascade leaves no dangling role or key |
| AuthorityProofs.ClearClaimsKeeps | internal/db/query/identity.sql:239-254 | clearing the claim half never leaves a row without a source |
| AuthorityProofs.DowngradeKeeps | internal/api/members.go:486-535 | after a role change the keys left live are within the new role, if they were within the old |
| AuthorityProofs.StepKeeps | internal/api/members.go:125-355 | every login, grant, revocation, role change, mint, creation and teardown, and every write checked on an old read, keeps sources, memberships and the roles keys hang on |
| AuthorityProofs.MembershipsJustified | internal/auth/reconcile.go:66-214 | in any run every membership has a claim or a local source, and project roles imply org membership |
| AuthorityProofs.LiveKeysWithinOwner | internal/auth/service.go:600-655 | while no mint is overtaken by a downgrade, every unrevoked key's scope is within its owner's current project role, and the key can do nothing the owner's session cannot |
| AuthorityProofs.KeysWithinIffTimely | internal/db/query/api_keys.sql:41-51 | over any run, every unrevoked key is within its owner's role in every state exactly when no key is inserted after the role it was checked against was lowered below its scope |
| AuthorityProofs.MintRace | internal/auth/service.go:617-650 | tables on which a mint is checked, the downgrade runs, and the insert leaves a live write key under a reader |
| AuthorityProofs.WriteAtOnce | internal/api/members.go:125-192 | checked on the tables it writes to, a handler's write is the handler as one step |
| AuthorityLaws.LoginPointwise | internal/auth/reconcile.go:118-208 | the login's statements together replace the claim half of each of the user's rows, keep every local half, and remove exactly the rows neither justifies |
| AuthorityLaws.LoginCascade | internal/db/query/identity.sql:211-237 | project roles and keys go with a login exactly when their org membership goes |
| AuthorityLaws.LoginKeepsLocalGrants | internal/auth/reconcile.go:48-60 | a login changes, adds and deletes no local grant of anyone |
| Epochs.LoginKeepsSiteGrants | internal/auth/reconcile.go:134-152 | a login writes its user's site claim, and no site grant of anyone |
| AuthorityLaws.DeleteAndClearCommute | internal/auth/reconcile.go:175-205 | the delete and the clear reach the same tables in either order: memberships, project roles, keys and every epoch |
| AuthorityLaws.RepeatedLogin | internal/auth/reconcile.go:118-208 | a repeated login changes no role, local half, project role or key, and with the same groups recorded no membership at all |
| AuthorityLaws.ApiKeepsClaims | internal/db/query/identity.sql:309-356 | no operation of the API writes, clears or deletes a claim |
| AuthorityLaws.OwnersOnlyByOwners | internal/api/members.go:125-355 | a caller who could not own the org when checked makes no owner of it, and unmakes one exactly when their write comes late and finds an owner by local grant that the checks did not see and its own guard lets through; never on a read that still holds |
| AuthorityLaws.LateWriteUnmakesOwner | internal/api/members.go:238-325 | an admin's grant and an admin's removal, checked while the target was a plain member, unmake the owner the target became |
| AuthorityLaws.RemovalCascade | internal/db/query/identity.sql:346-356 | leaving an org takes exactly the user's project roles in it and the keys held under them |
| AuthorityLaws.RemovalUndoesGrant | internal/api/members.go:125-355 | granting and then removing a local half restores every membership, project role and key |
| AuthorityLaws.ProjectRemoval | internal/api/members.go:572-610 | a removed project member has no role and no key there, and nothing else moves |
| AuthorityLaws.SiteGrants | internal/db/query/identity.sql:147-184 | a site grant makes a site admin, and its revocation leaves one exactly while the claim does |
| AuthorityLaws.CreatorsHold | internal/api/projects.go:132-172 | who creates an org owns it, and who creates a project as a member of its org administers it |
| AuthorityLaws.DroppedProject | internal/db/migrations/000002_identity.up.sql:105-127 | a dropped project takes its roles and keys and nothing else |
| AuthorityLaws.DroppedOrg | internal/db/migrations/000002_identity.up.sql:78-82 | a dropped org takes its memberships, and no project role or key |
| AuthorityLaws.KeyLife | internal/db/query/api_keys.sql:48-51 | a key is live from its mint to its revocation, only a revoked one is purged, and no other key moves |
| Epochs.NoBumpIff | internal/db/migrations/000015_user_tokens.up.sql:116-202 | a statement fires no trigger for a user exactly when no watched column of theirs differs |
| Epochs.WatchedRowsDecide | internal/auth/reconcile.go:368-402 | the watched columns determine everything a principal is built from |
| Epochs.EpochDecidesAuthority | internal/db/migrations/000015_user_tokens.up.sql:91-202 | at any two moments of a run at which a user's epoch is the same, their authority is the same; epochs never fall |
| Epochs.RepeatedLoginKeepsEpochs | internal/db/query/identity.sql:259-280 | a repeated login bumps nobody's epoch |
| AuthService.UpsertNext | internal/db/query/identity.sql:259-280 | one guarded upsert more is the combined write for one org more, epochs included |
| AuthService.SameClaimSameRows | internal/config/groupmap.go:320-366 | two logins with one claim ask for the same roles, whatever order the file's maps were read in |
| AuthService.ScopesExceedingRole | internal/api/members.go:554-564 | exactly the scopes the role may not hold |
| AuthService.AuthStore.ReconcileTx | internal/auth/reconcile.go:118-208 | the upserts in any order, the delete and the clear reach the one specified state |
| AuthService.AuthStore.Reconcile | internal/auth/reconcile.go:66-214 | an unreadable claim or a failed gate is refused with nothing written; otherwise the user has a claim exactly in the orgs in which the file maps a claimed group to a role, Owner before Admin before Member, with a group mapped to that role, and the site claim is the first listed claimed site-admin group |
| AuthService.AuthStore.PutOrgMember | internal/api/members.go:125-192 | on a read that may be out of date: grants the local half exactly when the read allows it and the row can be written, and otherwise changes nothing |
| AuthService.AuthStore.DeleteOrgMember | internal/api/members.go:227-355 | on a read that may be out of date: refused by what was read, removed, or still a member with the group that holds the membership up; an error, with nothing moved, exactly when the claim half has come or gone since |
| AuthService.AuthStore.PutProjectMember | internal/api/members.go:468-535 | the role and the revocation of the keys above it, together, exactly when the read allows it and the row can be written; a role that may write revokes nothing |
| AuthService.AuthStore.CreateAPIKey | internal/auth/service.go:600-655 | mints only for an interactive caller and never above the project role that was read; the cap holds afterwards exactly when that role is still enough |
| GroupMaps.Validate | internal/config/groupmap.go:241-299 | accepts exactly the files with good distinct slugs, non-empty groups, real roles and no empty names |
| GroupMaps.FirstClaimed | internal/config/groupmap.go:376-384 | the first listed group the user holds, empty when none |
| GroupMaps.Resolve | internal/config/groupmap.go:320-366 | refuses an unreadable claim before the gate, then the gate, with the zero resolution; otherwise each org gets the greatest claimed role, a group that grants it, and the first listed site-admin group |
| GroupMaps.ResolutionsAgree | internal/config/groupmap.go:348-357 | two resolutions of one claim give the same roles and site group |
| GroupMaps.RecordedGroupJustifies | internal/config/groupmap.go:340-357 | in a valid file the recorded group is one the user holds and alone grants the recorded role |
| PrincipalCaches.PrincipalShard.Get | internal/auth/principalcache.go:172-190 | answers exactly from an unexpired entry; an expired one is dropped and missed |
| PrincipalCaches.PrincipalShard.EvictLocked | internal/auth/principalcache.go:210-224 | the shard ends below its bound, expired entries go, and live ones only if that was not enough |
| PrincipalCaches.PrincipalShard.Put | internal/auth/principalcache.go:192-204 | the entry is in, nothing else is new, and the bound holds |
| PrincipalCaches.PrincipalCache.Load | internal/auth/principalcache.go:140-170 | a hit answers without a read; a miss answers with what was read and caches it, absence included; a failed read caches nothing |
| PrincipalRuns.Rebase | internal/auth/principalcache.go:20-45 | a part read since one probe counts as read since any probe of the same epoch |
| PrincipalRuns.StepKeeps | internal/auth/usertoken.go:130-164 | every commit, probe, hit, role read, fill and eviction keeps that cached and half-read role sets are no older than their probe |
| PrincipalRuns.NeverOlderThanProbe | internal/auth/usertoken.go:130-164 | each part of the role set a request is answered with is what the tables said at that request's own probe or later |
| PrincipalRuns.RevokedIsGone | internal/auth/principalcache.go:20-45 | an org role revoked before the probe and not granted since is in no answer |
| PrincipalRuns.UndisturbedAnswerIsExact | internal/auth/reconcile.go:368-402 | with no commit since the probe, the answer is exactly the owner's authority, however old the entry |
| PrincipalRuns.FillIsHit | internal/auth/principalcache.go:140-170 | what a request filled is what the next one of the same epoch is answered with |
| PrincipalRuns.OwnerStays | internal/auth/principalcache.go:152-164 | no transaction modelled removes the user row under a request |
| Sstate.RunToStop | internal/gc/sstate.go:52-54 | a repetition that excludes the literal after it has one way to match |
| Sstate.VersionGivesBack | internal/gc/sstate.go:44-54 | the version field gives back to the last colon before the first underscore |
| Sstate.GreedyIsSplit | internal/gc/sstate.go:52-54 | on every name the backtracking match captures exactly what the deterministic split yields |
| Sstate.SplitIff | internal/gc/sstate.go:36-54 | a name yields a capture exactly when it is a spec name, and the capture is its hash field |
| Sstate.DeriveUnihash | internal/gc/sstate.go:66-97 | the loops compute the derivation, and stop |
| Sstate.SidecarsSeparate | internal/gc/sstate.go:34-36 | none of the three suffixes ends in another, so the order they are tried in does not matter |
| Sstate.DerivedIgnoresSidecarsAndDirectories | internal/gc/sstate.go:62-88 | any stack of sidecar suffixes and any directory leave the result as it was |
| Sstate.DerivationRecoversHash | internal/gc/sstate.go:66-97 | a well-formed object gives back its hash, whatever its fields, tail, directory and sidecars |
| Sstate.SidecarsOfObject | internal/gc/sstate.go:34-36 | the .siginfo, .sig and .done of an object, and one stacked on another, derive the object's hash |
| Sstate.DerivedOnlyFromSpecs | internal/gc/sstate.go:66-97 | and nothing else does: a hash is derived exactly when it is one to sixty-four lower-case hexadecimal digits and the stripped base name is a spec name with it |
| GcPlan.DisabledIsClamped | internal/gc/plan.go:176-192 | a disabled backend's window is at most the ceiling and at most its own, except for a forever downloads archive |
| GcPlan.LadderIff | internal/gc/plan.go:198-273 | stage windows never decrease along a plan exactly when doubling does not overflow |
| GcPlan.ConfigurableLadder | internal/api/backends.go:455-459 | they never decrease for any window of at most ten years |
| GcPlan.AcceptedWindow | internal/gc/plan.go:159-192 | a retention of at most ten years, typed in microseconds or seeded in days, is the window of an enabled backend; a disabled one gets at most thirty days of it, thirty for forever, and a forever archive stays |
| GcPlan.NamerGoesFirst | internal/gc/plan.go:224-262 | where one namespace names another, it is swept first and kept no longer |
| GcPlan.StagesComplete | internal/gc/plan.go:198-273 | every namespace of a kind has exactly one stage, at the window or, where others name it, at twice the window |
| GcPlan.BuildPlans | internal/gc/plan.go:99-157 | one plan per row in row order, with the window its retention gives it, an sstate plan with the longer of its own and its paired hashserv's, forever on top; no plan's ladder decreases |
| GcPlan.PlansIgnoreOrder | internal/gc/plan.go:99-157 | the order the rows come in does not matter |
| GcPlan.SstateOutlivesHashserv | internal/gc/plan.go:133-148 | an sstate window is never shorter than either of the two it comes from |
| ObjectBrowser.PrefixIsRange | internal/api/objects.go:88-118 | a key has the prefix exactly when it lies in the computed range, 0xFF tails and the unbounded case included |
| ObjectBrowser.RangesIffBytewise | internal/api/objects.go:88-118 | under a total order of keys the range is the prefix, for every key and prefix, if and only if the order is byte order |
| ObjectBrowser.RangeMissesPrefix | internal/db/query/usage.sql:76-81 | a total order under which the range of a prefix misses every key that has it |
| ObjectBrowser.UnboundedIff | internal/api/objects.go:96-101 | there is no bound exactly for a prefix whose every byte is 0xFF, the empty one included |
| ObjectBrowser.BoundIsTextIff | internal/api/objects.go:88-118 | the bound of a well-formed prefix is well-formed exactly when the prefix ends in neither 0x7F nor 0xBF |
| ObjectBrowser.PrefixUpperBound | internal/api/objects.go:102-118 | the backward loop over the byte slice computes that bound |
| ObjectBrowser.ListPage | internal/api/objects.go:126-182 | refused exactly when a parameter is no text; else, under any order, a page is the next keys of the range after the cursor, those with the prefix in byte order, and carries a cursor exactly when it is full |
| ObjectBrowser.Browse | internal/api/objects.go:126-182 | under any total order, following the cursor lists every key of the range once, in order, and ends, and in byte order those are the keys with the prefix; a last page that is exactly full costs one more, empty, page |

## Left out

- Metrics, logging and gauges, the inexact LRU bytes gauge among them: they change no state.
- HTTP plumbing, JSON, error envelopes, snippets, the route table and access levels: finite case splits and strings.
- OIDC discovery, token verification, sessions, hashing and random tokens: foreign libraries.
- Singleflight, contexts and timeouts: a fill is one step sequence, and two are never collapsed into one.
- StatUncached, Touch, ListKeysByPrefix and the read stream of Get: no state of their own beyond what is modelled.
- The GC engine's sweeps, quotas, write barrier and grace periods: a mark may take any unreferenced live blob, and the barrier of a batch is a given set.
- Teardown of backends, user deletion, robots and user-token minting: members that repeat the shape of modelled ones.
- The deadlock retry of the login transaction: the same loop as the batch delete's, which is modelled.
- The auxiliary mark set's drop at its bound in `Veto`: modelled in `AuxMarks`, not in the veto runs.
- ExistsBatch against concurrent writers: its fills are the fills of `Coherence`; the batch itself is stated against a fixed database and a cache nobody else writes.
- BatchExists.StatObjectsBatch: stands for the query; its reply is any order of the asked rows.
- AuthService.AuthStore.PutProjectMember: the roster lookup by email or id is a given user id.
