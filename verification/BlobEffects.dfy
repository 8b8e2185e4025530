/** What each transaction does to the tables when it commits: the other half of keeping them sound. */
module BlobEffects {
  import opened Types
  import opened BlobProtocol
  import opened BlobSafety

  /** The writes a transaction may have buffered, at each point of its program. */
  ghost predicate Buffered(tx: Tx) {
    match tx.job
    case Put(a, Recorded(true)) => tx.w.objects == map[a.key := Some(RowOf(a))]
    case Put(a, Revived) => tx.w.objects == map[]
    case Put(a, Recorded(false)) => tx.w.objects == map[]
    case Put(a, _) => tx.w == NO_WRITES
    case Delete(touched, _) => forall k :: k in tx.w.objects ==> k in touched && tx.w.objects[k].None?
    case Mark =>
      && tx.w.objects == map[]
      && forall d :: d in tx.w.blobs ==> tx.w.blobs[d].Some? && tx.w.blobs[d].value.state.PendingDelete?
    case Reap(d, Reaped) => tx.w == Writes(map[d := None], map[])
    case Reap(d, _) => tx.w == NO_WRITES
  }

  ghost predicate AllBuffered(s: State) {
    forall t :: t in s.txs ==> Buffered(s.txs[t])
  }

  lemma RecordedObjects(db: Tables, w: Writes, a: PutArgs)
    ensures RecordWrites(db, w, a).objects == w.objects[a.key := Some(RowOf(a))]
  {
    var named := w.(objects := w.objects[a.key := Some(RowOf(a))]);
    if a.key in db.objects {
      BumpObjects(db, named, db.objects[a.key].digest, -1);
      BumpObjects(db, Bump(db, named, db.objects[a.key].digest, -1), a.digest, 1);
    } else {
      BumpObjects(db, named, a.digest, 1);
    }
  }

  lemma RecordBuffers(s: State, t: Tid)
    requires AllBuffered(s) && CanRecord(s, t)
    ensures AllBuffered(RecordObject(s, t))
  {
    assert Buffered(s.txs[t]);
    RecordedObjects(s.db, s.txs[t].w, s.txs[t].job.args);
  }

  lemma DeleteBuffers(s: State, t: Tid, k: Key)
    requires AllBuffered(s) && CanDelete(s, t, k)
    ensures AllBuffered(DeleteRow(s, t, k))
  {
    assert Buffered(s.txs[t]);
    var w := s.txs[t].w;
    var objects := View(s.db, w).objects;
    if k in objects { BumpObjects(s.db, w.(objects := w.objects[k := None]), objects[k].digest, -1); }
  }

  lemma OtherStepBuffers(s: State, step: Step)
    requires AllBuffered(s) && Enabled(s, step) && !step.DoRecord? && !step.DoDelete?
    ensures AllBuffered(Next(s, step))
  {
    forall t | t in Next(s, step).txs ensures Buffered(Next(s, step).txs[t]) {
      if t in s.txs { assert Buffered(s.txs[t]); }
      if step.Crash? || step.t != t {
        OthersKept(s, step, t);
      } else if step.Begin? || step.Commit? || step.Rollback? {
        EndsBuffer(s, step, t);
      } else {
        OwnStepBuffers(s, step, t);
      }
    }
  }

  lemma OthersKept(s: State, step: Step, t: Tid)
    requires Enabled(s, step) && (step.Crash? || step.t != t) && t in Next(s, step).txs
    ensures t in s.txs && Next(s, step).txs[t] == s.txs[t]
  {
  }

  lemma EndsBuffer(s: State, step: Step, t: Tid)
    requires Enabled(s, step) && (step.Begin? || step.Commit? || step.Rollback?) && step.t == t && t in Next(s, step).txs
    ensures Buffered(Next(s, step).txs[t])
  {
  }

  lemma OwnStepBuffers(s: State, step: Step, t: Tid)
    requires Enabled(s, step) && !step.Crash? && !step.Begin? && !step.Commit? && !step.Rollback?
    requires !step.DoRecord? && !step.DoDelete? && step.t == t && t in s.txs && Buffered(s.txs[t])
    ensures t in Next(s, step).txs && Buffered(Next(s, step).txs[t])
  {
  }

  lemma {:induction false} RunBuffers(states: seq<State>, steps: seq<Step>, i: nat)
    requires IsRun(states, steps) && i < |states|
    ensures AllBuffered(states[i])
  {
    if i > 0 {
      RunBuffers(states, steps, i - 1);
      var s, step := states[i - 1], steps[i - 1];
      match step
      case DoRecord(t) => RecordBuffers(s, t);
      case DoDelete(t, k) => DeleteBuffers(s, t, k);
      case _ => OtherStepBuffers(s, step);
    }
  }

  /** The tables if transaction `t` commits now. */
  function After(s: State, t: Tid): Tables
    requires t in s.txs
  {
    View(s.db, s.txs[t].w)
  }

  /**
   A PUT that recorded its row and commits: the key names the uploaded digest, live and in
   storage, and no other row moves. One that lost the key to an immutable row moves none.
   */
  lemma PutTakesEffect(states: seq<State>, steps: seq<Step>, i: nat, t: Tid, won: bool)
    requires IsRun(states, steps) && i < |states| && PutAt(states[i], t, Recorded(won))
    ensures var s, a := states[i], states[i].txs[t].job.args;
            if won then
              && After(s, t).objects == s.db.objects[a.key := RowOf(a)]
              && a.digest in After(s, t).blobs && After(s, t).blobs[a.digest].state.Live? && a.digest in s.bytes
              && After(s, t).blobs[a.digest].size == a.size
            else After(s, t).objects == s.db.objects
  {
    RunBuffers(states, steps, i);
    RunKeeps(states, steps, i);
    var s, a := states[i], states[i].txs[t].job.args;
    assert Buffered(s.txs[t]);
    if won {
      CommitSound(s, t);
      OverlayPut(s.db.objects, a.key, RowOf(a));
      assert a.key in After(s, t).objects;
    }
  }

  /** After its check a PUT writes bytes exactly if no live blob of its digest was there: a live one elides the write. */
  lemma CheckDecides(states: seq<State>, steps: seq<Step>, i: nat, t: Tid)
    requires IsRun(states, steps) && i < |steps| && steps[i] == DoCheck(t)
    ensures IsPut(states[i], t)
    ensures var d, s, s' := states[i].txs[t].job.args.digest, states[i], states[i + 1];
            && (Enabled(s', DoCommitBytes(t)) <==> !(d in s.db.blobs && s.db.blobs[d].state.Live?))
            && (d in s.db.blobs && s.db.blobs[d].state.Live? ==> PutAt(s', t, Checked(true)) && Holds(s'.rowLock, d, t))
  {
    assert Follows(states[i], steps[i], states[i + 1]);
    CheckOutcome(states[i], t);
  }

  lemma CheckOutcome(s: State, t: Tid)
    requires CanCheck(s, t)
    ensures var d := s.txs[t].job.args.digest;
            var live := d in s.db.blobs && s.db.blobs[d].state.Live?;
            PutAt(CheckBlob(s, t), t, Checked(live)) && (live ==> Holds(CheckBlob(s, t).rowLock, d, t))
  {
  }

  /** Which PUT wins its key: one that finds no row, and any that may overwrite. */
  predicate Wins(s: State, a: PutArgs) {
    a.key !in s.db.objects || a.overwrite
  }

  lemma StatementWins(s: State, t: Tid)
    requires CanRecord(s, t)
    ensures PutAt(RecordObject(s, t), t, Recorded(Wins(s, s.txs[t].job.args)))
    ensures RecordObject(s, t).txs[t].job.args == s.txs[t].job.args
  {
  }

  lemma RunStatementWins(states: seq<State>, steps: seq<Step>, j: nat, t: Tid)
    requires IsRun(states, steps) && j < |steps| && steps[j] == DoRecord(t)
    ensures IsPut(states[j], t)
    ensures PutAs(states[j + 1], t, states[j].txs[t].job.args, Wins(states[j], states[j].txs[t].job.args))
  {
    StatementWins(states[j], t);
  }

  /** The transaction is a PUT of `a` past its object statement. */
  predicate PutAs(s: State, t: Tid, a: PutArgs, won: bool) {
    t in s.txs && s.txs[t].job == Put(a, Recorded(won))
  }

  predicate KeepsPut(s: State, s': State, t: Tid, a: PutArgs, won: bool) {
    PutAs(s, t, a, won) && Alive(s', t) ==> PutAs(s', t, a, won)
  }

  lemma RunKeepsPut(states: seq<State>, steps: seq<Step>, i: nat, t: Tid, a: PutArgs, won: bool)
    requires IsRun(states, steps) && i < |steps|
    ensures KeepsPut(states[i], states[i + 1], t, a, won)
  {
    assert Follows(states[i], steps[i], states[i + 1]);
    if PutAs(states[i], t, a, won) && Alive(states[i + 1], t) { PutStays(states[i], steps[i], states[i + 1], t, a, won); }
  }

  /** After its object statement a PUT only ends. */
  lemma PutStays(s: State, step: Step, s': State, t: Tid, a: PutArgs, won: bool)
    requires Follows(s, step, s') && PutAs(s, t, a, won) && Alive(s', t)
    ensures PutAs(s', t, a, won)
  {
    if !step.Crash? && step.t != t { OthersKept(s, step, t); }
  }

  lemma {:induction false} PutUntil(states: seq<State>, j: nat, i: nat, t: Tid, a: PutArgs, won: bool)
    requires j <= i < |states| && PutAs(states[j], t, a, won)
    requires forall n :: j <= n < i ==> KeepsPut(states[n], states[n + 1], t, a, won)
    requires forall n :: j <= n <= i ==> Alive(states[n], t)
    ensures PutAs(states[i], t, a, won)
  {
    if j < i {
      PutUntil(states, j, i - 1, t, a, won);
      assert KeepsPut(states[i - 1], states[i - 1 + 1], t, a, won) && Alive(states[i], t);
    }
  }

  /** The committed tables move only at a commit, and then to what the transaction saw. */
  lemma TablesMoveAtCommits(states: seq<State>, steps: seq<Step>, i: nat)
    requires IsRun(states, steps) && i < |steps|
    ensures if steps[i].Commit? then Alive(states[i], steps[i].t) && states[i + 1].db == After(states[i], steps[i].t)
            else states[i + 1].db == states[i].db
  {
    assert Follows(states[i], steps[i], states[i + 1]);
    TablesMove(states[i], steps[i], states[i + 1]);
  }

  lemma TablesMove(s: State, step: Step, s': State)
    requires Follows(s, step, s')
    ensures if step.Commit? then Alive(s, step.t) && s'.db == After(s, step.t) else s'.db == s.db
  {
  }

  /** The end of a transaction gives up its locks and no one else's; a crash ends them all and keeps tables and bytes. */
  lemma EndsRelease(s: State, step: Step, d: Digest, k: Key, u: Tid)
    requires Enabled(s, step)
    ensures step == Crash ==> Next(s, step) == State(s.db, s.bytes, map[], map[], map[], map[])
    ensures step.Commit? || step.Rollback? ==>
              var s' := Next(s, step);
              && s'.bytes == s.bytes && s'.txs == s.txs - {step.t}
              && (Holds(s'.advisory, d, u) <==> u != step.t && Holds(s.advisory, d, u))
              && (Holds(s'.rowLock, d, u) <==> u != step.t && Holds(s.rowLock, d, u))
              && (Holds(s'.keyLock, k, u) <==> u != step.t && Holds(s.keyLock, k, u))
  {
  }

  /**
   From the object statement to the commit: a PUT that may overwrite, or that found no row under
   its key, leaves the key naming the uploaded digest, live, of its size and stored; an immutable
   PUT that found one leaves every row as it was.
   */
  lemma CommittedPut(states: seq<State>, steps: seq<Step>, j: nat, i: nat, t: Tid)
    requires IsRun(states, steps) && j < i < |steps| && steps[j] == DoRecord(t) && steps[i] == Commit(t)
    requires forall n :: j < n <= i ==> Alive(states[n], t)
    ensures IsPut(states[j], t)
    ensures var a, objects, s' := states[j].txs[t].job.args, states[i].db.objects, states[i + 1];
            if a.overwrite || a.key !in states[j].db.objects then
              && s'.db.objects == objects[a.key := RowOf(a)]
              && a.digest in s'.db.blobs && s'.db.blobs[a.digest].state.Live? && s'.db.blobs[a.digest].size == a.size
              && a.digest in s'.bytes
            else s'.db.objects == objects
  {
    RunStatementWins(states, steps, j, t);
    var a, won := states[j].txs[t].job.args, Wins(states[j], states[j].txs[t].job.args);
    forall n | j < n < i ensures KeepsPut(states[n], states[n + 1], t, a, won) { RunKeepsPut(states, steps, n, t, a, won); }
    PutUntil(states, j + 1, i, t, a, won);
    PutTakesEffect(states, steps, i, t, won);
    CommitIs(states, steps, i, t);
  }

  lemma CommitIs(states: seq<State>, steps: seq<Step>, i: nat, t: Tid)
    requires IsRun(states, steps) && i < |steps| && steps[i] == Commit(t) && Alive(states[i], t)
    ensures states[i + 1].db == After(states[i], t) && states[i + 1].bytes == states[i].bytes
  {
  }

  /** The statement itself: a row the transaction could see is gone from its view, a row it could not see it leaves alone. */
  lemma DeletedRowIsGone(s: State, t: Tid, k: Key)
    requires CanDelete(s, t, k)
    ensures var s' := DeleteRow(s, t, k);
            View(s'.db, s'.txs[t].w).objects == View(s.db, s.txs[t].w).objects - {k}
  {
    var w := s.txs[t].w;
    var objects := View(s.db, w).objects;
    if k in objects {
      BumpObjects(s.db, w.(objects := w.objects[k := None]), objects[k].digest, -1);
      OverlayDrop(s.db.objects, w.objects, k);
    }
  }

  /**
   A Delete or a batch removes rows it named and nothing else: every row that stays is as it was.
   */
  lemma DeleteTakesEffect(states: seq<State>, steps: seq<Step>, i: nat, t: Tid)
    requires IsRun(states, steps) && i < |states| && t in states[i].txs && states[i].txs[t].job.Delete?
    ensures var s := states[i];
            && After(s, t).objects == s.db.objects - s.txs[t].w.objects.Keys
            && (forall k :: k in s.txs[t].w.objects ==> k in s.txs[t].job.touched)
  {
    RunBuffers(states, steps, i);
    assert Buffered(states[i].txs[t]);
  }

  /** The row of `k` is among those the transaction takes with it. */
  predicate Taken(s: State, t: Tid, k: Key) {
    t in s.txs && s.txs[t].job.Delete? && k in s.txs[t].w.objects && s.txs[t].w.objects[k].None?
  }

  predicate Follows(s: State, step: Step, s': State) {
    Enabled(s, step) && s' == Next(s, step)
  }

  lemma StatementTakes(s: State, t: Tid, k: Key)
    requires CanDelete(s, t, k) && k in View(s.db, s.txs[t].w).objects
    ensures Taken(DeleteRow(s, t, k), t, k)
  {
    var w := s.txs[t].w;
    BumpObjects(s.db, w.(objects := w.objects[k := None]), View(s.db, w).objects[k].digest, -1);
  }

  lemma DeleteKeepsTaken(s: State, t: Tid, k: Key, u: Tid, j: Key)
    requires CanDelete(s, u, j) && Taken(s, t, k)
    ensures Taken(DeleteRow(s, u, j), t, k)
  {
    var w := s.txs[u].w;
    var objects := View(s.db, w).objects;
    if j in objects { BumpObjects(s.db, w.(objects := w.objects[j := None]), objects[j].digest, -1); }
  }

  /** Nothing gives a taken row back but the transaction's own end. */
  lemma TakenStays(s: State, step: Step, s': State, t: Tid, k: Key)
    requires Follows(s, step, s') && Taken(s, t, k) && t in s'.txs
    ensures Taken(s', t, k)
  {
    match step
    case DoDelete(u, j) => DeleteKeepsTaken(s, t, k, u, j);
    case _ =>
  }

  predicate KeepsTaken(s: State, s': State, t: Tid, k: Key) {
    Taken(s, t, k) && Alive(s', t) ==> Taken(s', t, k)
  }

  lemma RunKeepsTaken(states: seq<State>, steps: seq<Step>, i: nat, t: Tid, k: Key)
    requires IsRun(states, steps) && i < |steps|
    ensures KeepsTaken(states[i], states[i + 1], t, k)
  {
    assert Follows(states[i], steps[i], states[i + 1]);
    if Taken(states[i], t, k) && Alive(states[i + 1], t) {
      TakenStays(states[i], steps[i], states[i + 1], t, k);
    }
  }

  predicate Alive(s: State, t: Tid) {
    t in s.txs
  }

  lemma {:induction false} TakenUntil(states: seq<State>, j: nat, i: nat, t: Tid, k: Key)
    requires j <= i < |states| && Taken(states[j], t, k)
    requires forall n :: j <= n < i ==> KeepsTaken(states[n], states[n + 1], t, k)
    requires forall n :: j <= n <= i ==> Alive(states[n], t)
    ensures Taken(states[i], t, k)
  {
    if j < i {
      TakenUntil(states, j, i - 1, t, k);
      assert KeepsTaken(states[i - 1], states[i - 1 + 1], t, k) && Alive(states[i], t);
    }
  }

  /**
   The other half: a row the statement could see is gone at the commit, whatever ran between
   the two.
   */
  lemma FoundRowGoes(states: seq<State>, steps: seq<Step>, j: nat, i: nat, t: Tid, k: Key)
    requires IsRun(states, steps) && j < i < |states| && steps[j] == DoDelete(t, k)
    requires t in states[j].txs && k in View(states[j].db, states[j].txs[t].w).objects
    requires forall n :: j < n <= i ==> Alive(states[n], t)
    ensures Alive(states[i], t) && k !in After(states[i], t).objects
  {
    StatementTakes(states[j], t, k);
    forall n | j < n < i ensures KeepsTaken(states[n], states[n + 1], t, k) { RunKeepsTaken(states, steps, n, t, k); }
    TakenUntil(states, j + 1, i, t, k);
  }

  /** The mark's statement: a candidate it takes is a tombstone in its view, and nothing else in the view moves. */
  lemma MarkStatement(s: State, t: Tid, d: Digest)
    requires Inv(s) && CanMark(s, t, d)
    ensures var s', view := MarkBlob(s, t, d), View(s.db, s.txs[t].w);
            && View(s'.db, s'.txs[t].w).objects == view.objects
            && d in view.blobs && View(s'.db, s'.txs[t].w).blobs == view.blobs[d := view.blobs[d].(state := PendingDelete)]
  {
    assert TxOk(s, t, s.txs[t]);
  }

  /** The reap of `d` past its recheck. */
  predicate ReapsOf(s: State, t: Tid, d: Digest) {
    ReapAt(s, t, Rechecked) && s.txs[t].job.digest == d
  }

  predicate PutsOf(s: State, t: Tid, d: Digest) {
    IsPut(s, t) && s.txs[t].job.args.digest == d
  }

  /** Bytes come with the sync or the commit of a PUT of their digest, and go at the unlink of its reap. */
  lemma BytesMove(states: seq<State>, steps: seq<Step>, i: nat, d: Digest)
    requires IsRun(states, steps) && i < |steps|
    ensures d in states[i + 1].bytes <==>
            || ((steps[i].SyncBytes? || steps[i].DoCommitBytes?) && PutsOf(states[i], steps[i].t, d))
            || (d in states[i].bytes && !(steps[i].DoUnlink? && ReapsOf(states[i], steps[i].t, d)))
  {
    assert Follows(states[i], steps[i], states[i + 1]);
    StepBytes(states[i], steps[i], states[i + 1], d);
  }

  lemma StepBytes(s: State, step: Step, s': State, d: Digest)
    requires Follows(s, step, s')
    ensures d in s'.bytes <==>
            || ((step.SyncBytes? || step.DoCommitBytes?) && PutsOf(s, step.t, d))
            || (d in s.bytes && !(step.DoUnlink? && ReapsOf(s, step.t, d)))
  {
  }

  /** The mark tombstones unreferenced blobs and touches no object row. */
  lemma MarkTakesEffect(states: seq<State>, steps: seq<Step>, i: nat, t: Tid, d: Digest)
    requires IsRun(states, steps) && i < |states| && t in states[i].txs && states[i].txs[t].job.Mark?
    ensures var s := states[i];
            && After(s, t).objects == s.db.objects
            && (d in s.txs[t].w.blobs ==>
                  d in After(s, t).blobs && After(s, t).blobs[d].state.PendingDelete? && After(s, t).blobs[d].refcount == 0
                  && Naming(s.db.objects, d) == {})
  {
    RunBuffers(states, steps, i);
    RunKeeps(states, steps, i);
    var s := states[i];
    assert Buffered(s.txs[t]);
    assert TxOk(s, t, s.txs[t]);
    assert Overlay(s.db.objects, s.txs[t].w.objects) == s.db.objects;
    if d in s.txs[t].w.blobs { assert BlobWriteOk(s, s.txs[t].w, d); }
  }

  /** A finished reap removes exactly its own blob row, which no row names any more, and the tables it leaves are sound. */
  lemma ReapTakesEffect(states: seq<State>, steps: seq<Step>, i: nat, t: Tid)
    requires IsRun(states, steps) && i < |states| && ReapAt(states[i], t, Reaped)
    ensures var s, d := states[i], states[i].txs[t].job.digest;
            && After(s, t).objects == s.db.objects && After(s, t).blobs == s.db.blobs - {d}
            && Naming(s.db.objects, d) == {} && Sound(After(s, t), s.bytes)
  {
    RunBuffers(states, steps, i);
    RunKeeps(states, steps, i);
    var s, d := states[i], states[i].txs[t].job.digest;
    assert Buffered(s.txs[t]);
    CommitSound(s, t);
    assert TxOk(s, t, s.txs[t]) && BlobWriteOk(s, s.txs[t].w, d);
    assert Overlay(s.db.objects, s.txs[t].w.objects) == s.db.objects;
  }
}
