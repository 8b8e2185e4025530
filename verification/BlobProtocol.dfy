/**
 The storage protocol of the blob service, as a step system.

 Every transaction runs one statement per step, and any other transaction may run
 between two of them. Uncommitted writes live in the transaction's own `Writes`; a
 statement takes the row locks Postgres takes and is disabled (waits) while another
 transaction holds them. The byte store is not transactional: bytes written or
 unlinked stay so whatever the transaction does next. `Rollback` and `Crash` are
 enabled in every state.
 */
module BlobProtocol {
  import opened Types

  datatype BlobState = Live | PendingDelete

  datatype Blob = Blob(size: nat, refcount: int, state: BlobState)

  datatype Row = Row(digest: Digest, size: nat, contentType: string)

  /** The committed tables `blobs` and `cache_objects`. */
  datatype Tables = Tables(blobs: map<Digest, Blob>, objects: map<Key, Row>)

  /** Uncommitted writes: `None` deletes the row. */
  datatype Writes = Writes(blobs: map<Digest, Option<Blob>>, objects: map<Key, Option<Row>>)

  datatype PutArgs = PutArgs(key: Key, digest: Digest, size: nat, contentType: string, overwrite: bool)

  datatype PutPc = Staged | Locked | Checked(deduped: bool) | BytesDurable | Revived | Recorded(created: bool)

  datatype ReapPc = Queued | Holding | Rechecked | Unlinked | Reaped

  datatype Job =
    | Put(args: PutArgs, pc: PutPc)
    | Delete(touched: seq<Key>, batch: bool)
    | Mark
    | Reap(digest: Digest, at: ReapPc)

  datatype Tx = Tx(job: Job, w: Writes)

  datatype State = State(
    db: Tables,
    bytes: set<Digest>,           // content addresses present in storage
    advisory: map<Digest, Tid>,   // pg_advisory_xact_lock(digest)
    rowLock: map<Digest, Tid>,    // row locks on blobs
    keyLock: map<Key, Tid>,       // row locks on cache_objects
    txs: map<Tid, Tx>)

  const NO_WRITES := Writes(map[], map[])

  const INIT := State(Tables(map[], map[]), {}, map[], map[], map[], map[])

  /** Reading through a transaction's own writes. */
  function Overlay<K, V>(base: map<K, V>, w: map<K, Option<V>>): map<K, V> {
    map k | k in base.Keys + w.Keys && (k in w ==> w[k].Some?) :: if k in w then w[k].value else base[k]
  }

  function View(db: Tables, w: Writes): Tables {
    Tables(Overlay(db.blobs, w.blobs), Overlay(db.objects, w.objects))
  }

  /** The keys whose object row names `d`; its size is what the refcount must be. */
  function Naming(objects: map<Key, Row>, d: Digest): set<Key> {
    set k | k in objects && objects[k].digest == d
  }

  predicate Free<K>(locks: map<K, Tid>, x: K, t: Tid) {
    x in locks ==> locks[x] == t
  }

  function Release<K>(locks: map<K, Tid>, t: Tid): map<K, Tid> {
    map x | x in locks && locks[x] != t :: locks[x]
  }

  predicate Holds<K>(locks: map<K, Tid>, x: K, t: Tid) {
    x in locks && locks[x] == t
  }

  predicate IsPut(s: State, t: Tid) {
    t in s.txs && s.txs[t].job.Put?
  }

  predicate PutAt(s: State, t: Tid, pc: PutPc) {
    IsPut(s, t) && s.txs[t].job.pc == pc
  }

  predicate IsReap(s: State, t: Tid) {
    t in s.txs && s.txs[t].job.Reap?
  }

  predicate ReapAt(s: State, t: Tid, at: ReapPc) {
    IsReap(s, t) && s.txs[t].job.at == at
  }

  // ---- statements ----------------------------------------------------------

  /** What a transaction looks like before its first statement. */
  predicate Fresh(job: Job) {
    match job
    case Put(_, pc) => pc == Staged
    case Delete(touched, _) => touched == []
    case Mark => true
    case Reap(_, at) => at == Queued
  }

  function Advance(s: State, t: Tid, pc: PutPc): State
    requires IsPut(s, t)
  {
    s.(txs := s.txs[t := s.txs[t].(job := s.txs[t].job.(pc := pc))])
  }

  function ReapTo(s: State, t: Tid, at: ReapPc): State
    requires IsReap(s, t)
  {
    s.(txs := s.txs[t := s.txs[t].(job := s.txs[t].job.(at := at))])
  }

  function LockOf(job: Job): Digest
    requires job.Put? || job.Reap?
  {
    if job.Put? then job.args.digest else job.digest
  }

  /** LockBlobDigest: the first statement of a PUT and of a reap. */
  predicate CanLock(s: State, t: Tid) {
    && (PutAt(s, t, Staged) || ReapAt(s, t, Queued))
    && Free(s.advisory, LockOf(s.txs[t].job), t)
  }

  function LockDigest(s: State, t: Tid): State
    requires CanLock(s, t)
  {
    var s1 := s.(advisory := s.advisory[LockOf(s.txs[t].job) := t]);
    if IsPut(s, t) then Advance(s1, t, Locked) else ReapTo(s1, t, Holding)
  }

  /** GetBlobForWrite (FOR UPDATE). A size mismatch leaves only the rollback. */
  predicate CanCheck(s: State, t: Tid) {
    && PutAt(s, t, Locked)
    && var a := s.txs[t].job.args;
       a.digest in s.db.blobs ==>
         Free(s.rowLock, a.digest, t) && s.db.blobs[a.digest].size == a.size
  }

  function CheckBlob(s: State, t: Tid): State
    requires CanCheck(s, t)
  {
    var d := s.txs[t].job.args.digest;
    if d in s.db.blobs then
      Advance(s.(rowLock := s.rowLock[d := t]), t, Checked(s.db.blobs[d].state.Live?))
    else
      Advance(s, t, Checked(false))
  }

  /** storage.Writer.Commit, skipped when the live row lets the write be elided. */
  predicate CanCommitBytes(s: State, t: Tid) {
    PutAt(s, t, Checked(false))
  }

  function CommitBytes(s: State, t: Tid): State
    requires CanCommitBytes(s, t)
  {
    Advance(s.(bytes := s.bytes + {s.txs[t].job.args.digest}), t, BytesDurable)
  }

  /** CreateOrReviveBlob: insert, or flip back to live if the size agrees. */
  predicate CanRevive(s: State, t: Tid) {
    && (PutAt(s, t, Checked(true)) || PutAt(s, t, BytesDurable))
    && var a := s.txs[t].job.args;
       && Free(s.rowLock, a.digest, t)
       && (a.digest in s.db.blobs ==> s.db.blobs[a.digest].size == a.size)
  }

  function Revive(s: State, t: Tid): State
    requires CanRevive(s, t)
  {
    var a := s.txs[t].job.args;
    var blob := if a.digest in s.db.blobs then s.db.blobs[a.digest].(state := Live) else Blob(a.size, 0, Live);
    var w := s.txs[t].w;
    var tx := Tx(Put(a, Revived), w.(blobs := w.blobs[a.digest := Some(blob)]));
    s.(rowLock := s.rowLock[a.digest := t], txs := s.txs[t := tx])
  }

  /** One arm of the refcount trigger: UPDATE blobs SET refcount = refcount + delta. */
  function Bump(db: Tables, w: Writes, d: Digest, delta: int): Writes {
    var blobs := View(db, w).blobs;
    if d in blobs then w.(blobs := w.blobs[d := Some(blobs[d].(refcount := blobs[d].refcount + delta))]) else w
  }

  function RowOf(a: PutArgs): Row {
    Row(a.digest, a.size, a.contentType)
  }

  /** PutObjectImmutable / PutObjectOverwritable with the trigger's row locks. */
  predicate CanRecord(s: State, t: Tid) {
    && PutAt(s, t, Revived)
    && var a := s.txs[t].job.args;
       && Free(s.keyLock, a.key, t)
       && (a.key in s.db.objects && a.overwrite ==> Free(s.rowLock, s.db.objects[a.key].digest, t))
  }

  /** The inserted or updated row, and the trigger's arithmetic on the blobs it moves between. */
  function RecordWrites(db: Tables, w: Writes, a: PutArgs): Writes {
    var named := w.(objects := w.objects[a.key := Some(RowOf(a))]);
    if a.key !in db.objects then
      Bump(db, named, a.digest, 1)
    else
      var was := db.objects[a.key].digest;
      if was == a.digest then named else Bump(db, Bump(db, named, was, -1), a.digest, 1)
  }

  function RecordObject(s: State, t: Tid): State
    requires CanRecord(s, t)
  {
    var a := s.txs[t].job.args;
    if a.key in s.db.objects && !a.overwrite then
      Advance(s, t, Recorded(false))
    else
      var rows := if a.key in s.db.objects then s.rowLock[s.db.objects[a.key].digest := t] else s.rowLock;
      s.(keyLock := s.keyLock[a.key := t], rowLock := rows,
         txs := s.txs[t := Tx(Put(a, Recorded(true)), RecordWrites(s.db, s.txs[t].w, a))])
  }

  /** DELETE of one object row; a row that is not visible deletes nothing and locks nothing. */
  predicate CanDelete(s: State, t: Tid, k: Key) {
    && t in s.txs && s.txs[t].job.Delete?
    && (!s.txs[t].job.batch ==> s.txs[t].job.touched == [])
    && var objects := View(s.db, s.txs[t].w).objects;
       k in objects ==> Free(s.keyLock, k, t) && Free(s.rowLock, objects[k].digest, t)
  }

  function DeleteRow(s: State, t: Tid, k: Key): State
    requires CanDelete(s, t, k)
  {
    var w := s.txs[t].w;
    var objects := View(s.db, w).objects;
    var job := s.txs[t].job.(touched := s.txs[t].job.touched + [k]);
    if k !in objects then
      s.(txs := s.txs[t := Tx(job, w)])
    else
      var d := objects[k].digest;
      var dropped := w.(objects := w.objects[k := None]);
      s.(keyLock := s.keyLock[k := t], rowLock := s.rowLock[d := t],
         txs := s.txs[t := Tx(job, Bump(s.db, dropped, d, -1))])
  }

  /** MarkBlobsPendingDelete: FOR UPDATE SKIP LOCKED, so only unlocked candidates are taken. */
  predicate CanMark(s: State, t: Tid, d: Digest) {
    && t in s.txs && s.txs[t].job.Mark?
    && d in s.db.blobs && s.db.blobs[d].state.Live? && s.db.blobs[d].refcount == 0
    && d !in s.rowLock
  }

  function MarkBlob(s: State, t: Tid, d: Digest): State
    requires CanMark(s, t, d)
  {
    var w := s.txs[t].w;
    var blob := s.db.blobs[d].(state := PendingDelete);
    s.(rowLock := s.rowLock[d := t],
       txs := s.txs[t := s.txs[t].(w := w.(blobs := w.blobs[d := Some(blob)]))])
  }

  /** GetBlobForPhysicalDelete: zero rows means revived, and leaves only the rollback. */
  predicate CanRecheck(s: State, t: Tid) {
    && ReapAt(s, t, Holding)
    && var d := s.txs[t].job.digest;
       && d in s.db.blobs && Free(s.rowLock, d, t)
       && s.db.blobs[d].state.PendingDelete? && s.db.blobs[d].refcount == 0
  }

  function Recheck(s: State, t: Tid): State
    requires CanRecheck(s, t)
  {
    ReapTo(s.(rowLock := s.rowLock[s.txs[t].job.digest := t]), t, Rechecked)
  }

  function Unlink(s: State, t: Tid): State
    requires ReapAt(s, t, Rechecked)
  {
    ReapTo(s.(bytes := s.bytes - {s.txs[t].job.digest}), t, Unlinked)
  }

  function ReapRow(s: State, t: Tid): State
    requires ReapAt(s, t, Unlinked)
  {
    var w := s.txs[t].w;
    var d := s.txs[t].job.digest;
    s.(txs := s.txs[t := Tx(Reap(d, Reaped), w.(blobs := w.blobs[d := None]))])
  }

  predicate Finished(job: Job) {
    match job
    case Put(_, pc) => pc.Recorded?
    case Delete(touched, _) => touched != []
    case Mark => true
    case Reap(_, at) => at == Reaped
  }

  /** Transaction end: all its locks go, its writes only on commit. */
  function End(s: State, t: Tid, db: Tables): State {
    s.(db := db, advisory := Release(s.advisory, t), rowLock := Release(s.rowLock, t),
       keyLock := Release(s.keyLock, t), txs := s.txs - {t})
  }

  datatype Step =
    | Begin(t: Tid, job: Job)
    | SyncBytes(t: Tid)          // storage.Writer.Sync; the S3 driver publishes here, unlocked
    | DoLock(t: Tid)
    | DoCheck(t: Tid)
    | DoCommitBytes(t: Tid)
    | DoRevive(t: Tid)
    | DoRecord(t: Tid)
    | DoDelete(t: Tid, k: Key)
    | DoMark(t: Tid, d: Digest)
    | DoRecheck(t: Tid)
    | DoUnlink(t: Tid)
    | DoReapRow(t: Tid)
    | Commit(t: Tid)
    | Rollback(t: Tid)
    | Crash

  predicate Enabled(s: State, step: Step) {
    match step
    case Begin(t, job) => t !in s.txs && Fresh(job)
    case SyncBytes(t) => PutAt(s, t, Staged)
    case DoLock(t) => CanLock(s, t)
    case DoCheck(t) => CanCheck(s, t)
    case DoCommitBytes(t) => CanCommitBytes(s, t)
    case DoRevive(t) => CanRevive(s, t)
    case DoRecord(t) => CanRecord(s, t)
    case DoDelete(t, k) => CanDelete(s, t, k)
    case DoMark(t, d) => CanMark(s, t, d)
    case DoRecheck(t) => CanRecheck(s, t)
    case DoUnlink(t) => ReapAt(s, t, Rechecked)
    case DoReapRow(t) => ReapAt(s, t, Unlinked)
    case Commit(t) => t in s.txs && Finished(s.txs[t].job)
    case Rollback(t) => t in s.txs
    case Crash => true
  }

  function Next(s: State, step: Step): State
    requires Enabled(s, step)
  {
    match step
    case Begin(t, job) => s.(txs := s.txs[t := Tx(job, NO_WRITES)])
    case SyncBytes(t) => s.(bytes := s.bytes + {s.txs[t].job.args.digest})
    case DoLock(t) => LockDigest(s, t)
    case DoCheck(t) => CheckBlob(s, t)
    case DoCommitBytes(t) => CommitBytes(s, t)
    case DoRevive(t) => Revive(s, t)
    case DoRecord(t) => RecordObject(s, t)
    case DoDelete(t, k) => DeleteRow(s, t, k)
    case DoMark(t, d) => MarkBlob(s, t, d)
    case DoRecheck(t) => Recheck(s, t)
    case DoUnlink(t) => Unlink(s, t)
    case DoReapRow(t) => ReapRow(s, t)
    case Commit(t) => End(s, t, View(s.db, s.txs[t].w))
    case Rollback(t) => End(s, t, s.db)
    case Crash => State(s.db, s.bytes, map[], map[], map[], map[])
  }

  /** `states` is an execution: any interleaving of enabled steps from the empty store. */
  ghost predicate IsRun(states: seq<State>, steps: seq<Step>) {
    && |states| == |steps| + 1
    && states[0] == INIT
    && forall i :: 0 <= i < |steps| ==> Enabled(states[i], steps[i]) && states[i + 1] == Next(states[i], steps[i])
  }

  // ---- the invariant -------------------------------------------------------

  /** What the package exists to hold, said of the committed tables and the byte store. */
  ghost predicate Sound(db: Tables, bytes: set<Digest>) {
    && (forall d :: d in db.blobs && db.blobs[d].state.Live? ==> d in bytes)
    && (forall d :: d in db.blobs && db.blobs[d].state.PendingDelete? ==> db.blobs[d].refcount == 0)
    && (forall d :: d in db.blobs ==> db.blobs[d].refcount == |Naming(db.objects, d)|)
    && (forall k :: k in db.objects ==>
          && db.objects[k].digest in db.blobs
          && db.blobs[db.objects[k].digest].size == db.objects[k].size
          && db.blobs[db.objects[k].digest].state.Live?)
  }

  /** Every pending write is under its lock, and the writes would keep `Sound` if committed alone. */
  ghost predicate WritesOk(s: State, t: Tid, w: Writes) {
    && (forall d :: d in w.blobs ==> Holds(s.rowLock, d, t))
    && (forall k :: k in w.objects ==> Holds(s.keyLock, k, t))
    && (forall d :: d in w.blobs ==> BlobWriteOk(s, w, d))
    && (forall k :: k in w.objects ==> ObjectWriteOk(s, w, k))
  }

  ghost predicate BlobWriteOk(s: State, w: Writes, d: Digest)
    requires d in w.blobs
  {
    var named := Naming(Overlay(s.db.objects, w.objects), d);
    match w.blobs[d]
    case None => named == {}
    case Some(b) =>
      && b.refcount == |named|
      && (b.state.Live? ==> d in s.bytes)
      && (b.state.PendingDelete? ==> b.refcount == 0)
      && (d in s.db.blobs ==> b.size == s.db.blobs[d].size)
  }

  /** The blob rows an object write moves a reference from or to are written with it. */
  ghost predicate ObjectWriteOk(s: State, w: Writes, k: Key)
    requires k in w.objects
  {
    && (k in s.db.objects ==> s.db.objects[k].digest in w.blobs)
    && (w.objects[k].Some? ==>
          var row := w.objects[k].value;
          row.digest in w.blobs && w.blobs[row.digest].Some? && w.blobs[row.digest].value.size == row.size)
  }

  /** What each program counter may rely on; these are the facts the two locks protect. */
  ghost predicate PcOk(s: State, t: Tid, tx: Tx) {
    match tx.job
    case Put(a, Staged) => tx.w == NO_WRITES
    case Put(a, Locked) => tx.w == NO_WRITES && Holds(s.advisory, a.digest, t)
    case Put(a, Checked(deduped)) =>
      && tx.w == NO_WRITES && Holds(s.advisory, a.digest, t)
      && (deduped ==> Holds(s.rowLock, a.digest, t) && a.digest in s.db.blobs && s.db.blobs[a.digest].state.Live?)
    case Put(a, BytesDurable) => tx.w == NO_WRITES && Holds(s.advisory, a.digest, t) && a.digest in s.bytes
    case Put(a, Revived) =>
      && tx.w.objects == map[] && tx.w.blobs.Keys == {a.digest}
      && tx.w.blobs[a.digest].Some? && tx.w.blobs[a.digest].value.state.Live?
      && tx.w.blobs[a.digest].value.size == a.size
    case Reap(d, Queued) => tx.w == NO_WRITES
    case Reap(d, Holding) => tx.w == NO_WRITES && Holds(s.advisory, d, t)
    case Reap(d, Rechecked) => ReapHolds(s, t, d, tx)
    case Reap(d, Unlinked) => ReapHolds(s, t, d, tx)
    case _ => true
  }

  ghost predicate ReapHolds(s: State, t: Tid, d: Digest, tx: Tx) {
    && tx.w == NO_WRITES && Holds(s.advisory, d, t) && Holds(s.rowLock, d, t)
    && d in s.db.blobs && s.db.blobs[d].state.PendingDelete? && s.db.blobs[d].refcount == 0
  }

  ghost predicate TxOk(s: State, t: Tid, tx: Tx) {
    WritesOk(s, t, tx.w) && PcOk(s, t, tx)
  }

  ghost predicate Inv(s: State) {
    && Sound(s.db, s.bytes)
    && forall t :: t in s.txs ==> TxOk(s, t, s.txs[t])
  }
}
