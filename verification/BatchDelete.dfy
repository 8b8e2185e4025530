/** The GC's deletion path: ordered digest locks, a bounded retry, and invalidation after the commit. */
module BatchDelete {
  import opened Types
  import opened Lru
  import opened LruCaches
  import opened BatchExists
  import LockOrder

  const MAX_KEY_LEN: nat := 1024
  const DELETE_BATCH_ATTEMPTS: nat := 3

  /** A doomed object and the digest the GC's scan read for it. */
  datatype DeleteRef = DeleteRef(ref: Ref, digest: Digest)

  datatype Error = MixedDeleteBatch | InvalidKey | Failed | Cancelled | Deadlocked

  datatype Result = Ok(n: nat) | Err(error: Error)

  /** How the database ends one attempt. */
  datatype Outcome = Commits | AbortsOnDeadlock | AbortsOtherwise

  /** The world a batch runs in: the n-th attempt's end, and whether the n-th pause is cancelled. */
  datatype Environment = Environment(attempt: nat -> Outcome, cancelled: nat -> bool)

  predicate ValidKey(key: string) {
    0 < |key| <= MAX_KEY_LEN
  }

  // ---- slices.SortFunc -----------------------------------------------------

  function Place(d: Digest, ds: seq<Digest>): seq<Digest> {
    if ds == [] || d <= ds[0] then [d] + ds else [ds[0]] + Place(d, ds[1..])
  }

  function SortDigests(ds: seq<Digest>): seq<Digest> {
    if ds == [] then [] else Place(ds[0], SortDigests(ds[1..]))
  }

  lemma {:induction false} PlaceContents(d: Digest, ds: seq<Digest>)
    ensures multiset(Place(d, ds)) == multiset{d} + multiset(ds)
  {
    if ds != [] && d > ds[0] {
      PlaceContents(d, ds[1..]);
      assert ds == [ds[0]] + ds[1..];
    }
  }

  lemma {:induction false} PlaceAscending(d: Digest, ds: seq<Digest>)
    requires LockOrder.Ascending(ds)
    ensures LockOrder.Ascending(Place(d, ds))
    ensures Place(d, ds)[0] == if ds == [] || d <= ds[0] then d else ds[0]
  {
    if ds != [] && d > ds[0] {
      var rest := Place(d, ds[1..]);
      PlaceAscending(d, ds[1..]);
      assert forall i :: 0 <= i < |rest| ==> rest[0] <= rest[i];
    }
  }

  lemma {:induction false} SortShape(ds: seq<Digest>)
    ensures LockOrder.Ascending(SortDigests(ds)) && multiset(SortDigests(ds)) == multiset(ds)
  {
    if ds != [] {
      SortShape(ds[1..]);
      PlaceAscending(ds[0], SortDigests(ds[1..]));
      PlaceContents(ds[0], SortDigests(ds[1..]));
      assert ds == [ds[0]] + ds[1..];
    }
  }

  // ---- the batch -----------------------------------------------------------

  function CacheKeys(refs: seq<DeleteRef>): seq<Key> {
    seq(|refs|, i requires 0 <= i < |refs| => CacheKeyOf(refs[i].ref))
  }

  /** The first complaint, in order: another group before a bad key. */
  function Complaint(refs: seq<DeleteRef>, g: GroupKey): Option<Error> {
    if refs == [] then None
    else if GroupOf(refs[0].ref) != g then Some(MixedDeleteBatch)
    else if !ValidKey(refs[0].ref.key) then Some(InvalidKey)
    else Complaint(refs[1..], g)
  }

  predicate Fits(r: DeleteRef, g: GroupKey) {
    GroupOf(r.ref) == g && 1 <= |r.ref.key| <= 1024
  }

  /**
   A batch is accepted exactly when it has one group and every key has 1 to 1024 characters; the
   complaint is about the first ref that does not fit, and of its group before its key.
   */
  lemma {:induction false} AcceptedIff(refs: seq<DeleteRef>, g: GroupKey)
    ensures Complaint(refs, g).None? <==> forall i :: 0 <= i < |refs| ==> Fits(refs[i], g)
    ensures Complaint(refs, g).Some? ==>
              exists i :: 0 <= i < |refs| && FirstMisfit(refs, g, i)
                && Complaint(refs, g).value == if GroupOf(refs[i].ref) != g then MixedDeleteBatch else InvalidKey
  {
    if refs != [] {
      AcceptedIff(refs[1..], g);
      assert forall i :: 1 <= i < |refs| ==> refs[i] == refs[1..][i - 1];
      if Fits(refs[0], g) && Complaint(refs, g).Some? {
        var i :| 0 <= i < |refs[1..]| && FirstMisfit(refs[1..], g, i)
          && Complaint(refs[1..], g).value == if GroupOf(refs[1..][i].ref) != g then MixedDeleteBatch else InvalidKey;
        assert refs[i + 1] == refs[1..][i];
        assert FirstMisfit(refs, g, i + 1);
      } else if !Fits(refs[0], g) {
        assert FirstMisfit(refs, g, 0);
      }
    }
  }

  ghost predicate FirstMisfit(refs: seq<DeleteRef>, g: GroupKey, i: nat)
    requires i < |refs|
  {
    !Fits(refs[i], g) && forall j :: 0 <= j < i ==> Fits(refs[j], g)
  }

  /** The doomed rows that exist and are older than the run: what one DELETE removes and counts. */
  function Doomed(rows: set<Ref>, barrier: set<Ref>, refs: seq<DeleteRef>): set<Ref> {
    set i | 0 <= i < |refs| && refs[i].ref in rows && refs[i].ref !in barrier :: refs[i].ref
  }

  /** Named by the batch. */
  ghost predicate Names(refs: seq<DeleteRef>, q: Ref) {
    exists i :: 0 <= i < |refs| && refs[i].ref == q
  }

  /** What a batch that went through left: the rows it did not name, and those the write barrier spares. */
  ghost predicate Swept(before: set<Ref>, after: set<Ref>, barrier: set<Ref>, refs: seq<DeleteRef>) {
    after <= before && forall q :: q in before ==> (q !in after <==> q !in barrier && Names(refs, q))
  }

  lemma DoomedIsSwept(rows: set<Ref>, barrier: set<Ref>, refs: seq<DeleteRef>)
    ensures Swept(rows, rows - Doomed(rows, barrier, refs), barrier, refs)
    ensures |Doomed(rows, barrier, refs)| == |rows| - |rows - Doomed(rows, barrier, refs)|
  {
    var doomed := Doomed(rows, barrier, refs);
    assert doomed <= rows;
    assert rows == doomed + (rows - doomed);
    forall q | q in rows ensures q in doomed <==> q !in barrier && Names(refs, q) {
      if q !in barrier && Names(refs, q) { var i :| 0 <= i < |refs| && refs[i].ref == q; }
    }
  }

  /** What the attempts until the last one did. */
  ghost predicate RetriedTo(env: Environment, last: nat) {
    && last < DELETE_BATCH_ATTEMPTS
    && forall a :: 0 <= a < last ==> env.attempt(a).AbortsOnDeadlock? && !env.cancelled(a)
  }

  /** Why a batch ends after its `n`-th attempt without having committed. */
  function Cause(env: Environment, n: nat): Error
    requires n > 0
  {
    match env.attempt(n - 1)
    case AbortsOnDeadlock => if env.cancelled(n - 1) then Cancelled else Deadlocked
    case _ => Failed
  }

  /** Only a deadlock is tried again, and only while there are attempts left and nobody cancels. */
  predicate LastAttempt(env: Environment, n: nat)
    requires n > 0
  {
    env.attempt(n - 1).AbortsOnDeadlock? && !env.cancelled(n - 1) ==> n == 3
  }

  class BlobService {
    var rows: set<Ref>      // the committed cache_objects rows
    const lru: LruCache

    ghost predicate Valid()
      reads this, lru, lru.shards
    {
      lru.Valid()
    }

    constructor (rows0: set<Ref>, cache: LruCache)
      ensures rows == rows0 && lru == cache
    {
      rows := rows0;
      lru := cache;
    }

    /** One transaction: lock the digests in order, then delete. An abort leaves the rows alone. */
    method Attempt(env: Environment, attempt: nat, barrier: set<Ref>, refs: seq<DeleteRef>) returns (n: nat)
      modifies this`rows
      ensures !env.attempt(attempt).Commits? ==> rows == old(rows)
      ensures env.attempt(attempt).Commits? ==> Swept(old(rows), rows, barrier, refs) && n == |old(rows)| - |rows|
    {
      var doomed := Doomed(rows, barrier, refs);
      n := |doomed|;
      DoomedIsSwept(rows, barrier, refs);
      if env.attempt(attempt).Commits? {
        rows := rows - doomed;
      }
    }

    /** deleteBatchTx. Only the committed attempt deletes and only its count is reported. */
    method DeleteBatchTx(env: Environment, barrier: set<Ref>, refs: seq<DeleteRef>)
      returns (r: Result, locks: seq<Digest>, attempts: nat)
      modifies this`rows
      ensures LockOrder.Ascending(locks)
      ensures multiset(locks) == multiset(seq(|refs|, i requires 0 <= i < |refs| => refs[i].digest))
      ensures 0 < attempts <= 3 && RetriedTo(env, attempts - 1) && LastAttempt(env, attempts)
      ensures r.Ok? <==> env.attempt(attempts - 1).Commits?
      ensures r.Ok? ==> Swept(old(rows), rows, barrier, refs) && r.n == |old(rows)| - |rows|
      ensures r.Err? ==> rows == old(rows) && r.error == Cause(env, attempts)
    {
      var digests := seq(|refs|, i requires 0 <= i < |refs| => refs[i].digest);
      locks := SortDigests(digests);
      SortShape(digests);
      attempts := 0;
      while attempts < DELETE_BATCH_ATTEMPTS
        invariant attempts <= DELETE_BATCH_ATTEMPTS && rows == old(rows)
        invariant forall a :: 0 <= a < attempts ==> env.attempt(a).AbortsOnDeadlock? && !env.cancelled(a)
      {
        var n := Attempt(env, attempts, barrier, refs);
        attempts := attempts + 1;
        match env.attempt(attempts - 1)
        case Commits => return Ok(n), locks, attempts;
        case AbortsOtherwise => return Err(Failed), locks, attempts;
        case AbortsOnDeadlock =>
          if env.cancelled(attempts - 1) {
            return Err(Cancelled), locks, attempts;
          }
      }
      r := Err(Deadlocked);
    }

    /** The loop that builds the parallel key and cache-key slices, stopping at the first complaint. */
    method Collect(refs: seq<DeleteRef>) returns (complaint: Option<Error>, cks: seq<Key>)
      requires refs != []
      ensures complaint == Complaint(refs, GroupOf(refs[0].ref))
      ensures complaint.None? ==> cks == CacheKeys(refs)
    {
      var g := GroupOf(refs[0].ref);
      cks := [];
      var i := 0;
      while i < |refs|
        invariant 0 <= i <= |refs| && cks == CacheKeys(refs[..i])
        invariant Complaint(refs, g) == Complaint(refs[i..], g)
      {
        assert refs[i..][1..] == refs[i + 1..];
        if GroupOf(refs[i].ref) != g {
          return Some(MixedDeleteBatch), [];
        }
        if !ValidKey(refs[i].ref.key) {
          return Some(InvalidKey), [];
        }
        cks := cks + [CacheKeyOf(refs[i].ref)];
        i := i + 1;
      }
      assert refs[..i] == refs;
      complaint := None;
    }

    /**
     DeleteBatch. On success exactly the doomed rows are gone, their number is returned and
     every named key has left the cache; on any error neither the table nor the cache moved.
     */
    method DeleteBatch(env: Environment, barrier: set<Ref>, refs: seq<DeleteRef>) returns (r: Result)
      requires Valid()
      modifies this`rows, lru.shards
      ensures Valid()
      ensures refs == [] ==> r == Ok(0)
      ensures refs != [] && Complaint(refs, GroupOf(refs[0].ref)).Some? ==>
                r == Err(Complaint(refs, GroupOf(refs[0].ref)).value)
      ensures refs != [] && Complaint(refs, GroupOf(refs[0].ref)).None? ==>
                (r.Ok? <==> exists a :: 0 <= a < 3 && RetriedTo(env, a) && env.attempt(a).Commits?)
      ensures r.Ok? ==> rows <= old(rows) && r.n == |old(rows)| - |rows|
      ensures r.Ok? ==> forall q :: q in old(rows) ==>
                (q !in rows <==> q !in barrier && exists i :: 0 <= i < |refs| && refs[i].ref == q)
      ensures r.Ok? ==> forall i :: 0 <= i < LRU_SHARDS ==>
                lru.shards[i].Model() ==
                DelAll(old(lru.shards[i].Model()), KeysOfShard(lru.hash, CacheKeys(refs), i))
      ensures r.Err? ==> rows == old(rows) && unchanged(lru.shards)
    {
      if refs == [] {
        assert forall i :: 0 <= i < LRU_SHARDS ==> KeysOfShard(lru.hash, CacheKeys(refs), i) == [];
        assert forall q :: !Names(refs, q);
        return Ok(0);
      }
      var complaint, cks := Collect(refs);
      if complaint.Some? {
        return Err(complaint.value);
      }
      var locks, attempts;
      r, locks, attempts := DeleteBatchTx(env, barrier, refs);
      assert forall a :: 0 <= a < 3 && RetriedTo(env, a) && env.attempt(a).Commits? ==> a == attempts - 1;
      assert forall q :: Names(refs, q) <==> exists i :: 0 <= i < |refs| && refs[i].ref == q;
      if r.Ok? {
        lru.DelBatch(cks);
      }
    }
  }

  /** After a batch, no lookup of a named key is answered from memory, and its shard's generation has moved. */
  lemma BatchForgets(h: Hash, s: Shard, refs: seq<DeleteRef>, r: DeleteRef)
    requires r in refs
    ensures var k := CacheKeyOf(r.ref);
            var s' := DelAll(s, KeysOfShard(h, CacheKeys(refs), ShardOf(h, k)));
            Lookup(s'.entries, k).None? && s'.gen == s.gen + 1
  {
    var k := CacheKeyOf(r.ref);
    var i :| 0 <= i < |refs| && refs[i] == r;
    assert CacheKeys(refs)[i] == k;
    InKeysOfShard(h, CacheKeys(refs), ShardOf(h, k), k);
    LookupWithoutAll(s.entries, KeysOfShard(h, CacheKeys(refs), ShardOf(h, k)), k);
  }

  /**
   Such a batch takes its locks as `LockOrder.GcNeverDeadlocks` asks, whatever order its rows
   are deleted in. Only a row it deletes need still carry the digest that was scanned: one
   overwritten since is spared by the write barrier, and its stale digest is just a lock.
   */
  lemma BatchIsGcPlan(refs: seq<DeleteRef>, locks: seq<Digest>, rows: seq<Key>, digestOf: Key -> Digest)
    requires LockOrder.Ascending(locks)
    requires multiset(locks) == multiset(seq(|refs|, i requires 0 <= i < |refs| => refs[i].digest))
    requires forall k :: k in rows ==> k in CacheKeys(refs)
    requires forall i :: 0 <= i < |refs| && CacheKeyOf(refs[i].ref) in rows ==> digestOf(CacheKeyOf(refs[i].ref)) == refs[i].digest
    ensures LockOrder.GcPlan(LockOrder.BatchPlan(locks, rows), digestOf)
  {
    var digests := seq(|refs|, i requires 0 <= i < |refs| => refs[i].digest);
    forall k | k in rows ensures digestOf(k) in locks {
      var i :| 0 <= i < |refs| && CacheKeys(refs)[i] == k;
      assert digests[i] == digestOf(k);
      assert digestOf(k) in multiset(digests);
    }
  }
}
