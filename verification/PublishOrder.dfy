/** When a put is timely, in terms a caller can check: the order in which the writers of a key committed and published. */
module PublishOrder {
  import opened Types
  import P = BlobProtocol
  import E = BlobEffects
  import L = Lru
  import opened LruCaches
  import opened Coherence
  import opened CoherenceProofs

  predicate IsCommit(step: Step) {
    step.CommitWriter? || step.CommitLost?
  }

  /** The step commits a transaction that wrote the row of `k`. */
  predicate Writes(s: Sys, step: Step, k: Key) {
    IsCommit(step) && step.t in s.p.txs && k in s.p.txs[step.t].w.objects
  }

  /** Of the commits before state `n`, the one at `j` was the last to write the row of `k`. */
  ghost predicate LastWrote(states: seq<Sys>, steps: seq<Step>, k: Key, j: nat, n: nat)
    requires n <= |steps| <= |states|
  {
    j < n && Writes(states[j], steps[j], k) && forall m :: j < m < n ==> !Writes(states[m], steps[m], k)
  }

  function RowOf(s: Sys, k: Key): Option<P.Row> {
    if k in s.p.db.objects then Some(s.p.db.objects[k]) else None
  }

  /** What the commit at `j` made of the row. */
  function Left(s: Sys, step: Step, k: Key): Option<P.Row>
    requires Writes(s, step, k)
  {
    s.p.txs[step.t].w.objects[k]
  }

  lemma CommitLeaves(h: Hash, s: Sys, step: Step, k: Key)
    requires |s.cache| == LRU_SHARDS && Enabled(h, s, step) && IsCommit(step)
    ensures RowOf(Next(h, s, step), k) == if Writes(s, step, k) then Left(s, step, k) else RowOf(s, k)
  {
    assert Next(h, s, step).p.db == P.View(s.p.db, s.p.txs[step.t].w);
  }

  /** No other step touches the committed rows, a crash included. */
  lemma RowStays(h: Hash, s: Sys, step: Step, k: Key)
    requires |s.cache| == LRU_SHARDS && Enabled(h, s, step) && !Writes(s, step, k)
    ensures RowOf(Next(h, s, step), k) == RowOf(s, k)
  {
    if IsCommit(step) {
      CommitLeaves(h, s, step, k);
    } else if step.Storage? {
      StorageLeaves(h, s, step.step);
    }
  }

  /** The row after a step is what the step committed to it, or what it was. */
  predicate RowMoves(s: Sys, step: Step, s': Sys, k: Key) {
    RowOf(s', k) == if Writes(s, step, k) then Left(s, step, k) else RowOf(s, k)
  }

  lemma RunRowMoves(h: Hash, states: seq<Sys>, steps: seq<Step>, k: Key, m: nat)
    requires IsRun(h, states, steps) && m < |steps|
    ensures RowMoves(states[m], steps[m], states[m + 1], k)
  {
    RunStep(h, states, steps, m);
    if IsCommit(steps[m]) { CommitLeaves(h, states[m], steps[m], k); } else { RowStays(h, states[m], steps[m], k); }
  }

  /** The row the commits before state `n` left, taken in their order; no row before the first. */
  function LastRow(states: seq<Sys>, steps: seq<Step>, k: Key, n: nat): Option<P.Row>
    requires n <= |steps| <= |states|
  {
    if n == 0 then None
    else if Writes(states[n - 1], steps[n - 1], k) then Left(states[n - 1], steps[n - 1], k)
    else LastRow(states, steps, k, n - 1)
  }

  lemma {:induction false} LastRowIs(states: seq<Sys>, steps: seq<Step>, k: Key, j: nat, n: nat)
    requires n <= |steps| <= |states| && LastWrote(states, steps, k, j, n)
    ensures LastRow(states, steps, k, n) == Left(states[j], steps[j], k)
  {
    if j < n - 1 { LastRowIs(states, steps, k, j, n - 1); }
  }

  lemma {:induction false} ChainRow(states: seq<Sys>, steps: seq<Step>, k: Key, n: nat)
    requires n <= |steps| && |states| == |steps| + 1 && RowOf(states[0], k).None?
    requires forall m :: 0 <= m < n ==> RowMoves(states[m], steps[m], states[m + 1], k)
    ensures RowOf(states[n], k) == LastRow(states, steps, k, n)
  {
    if n > 0 {
      ChainRow(states, steps, k, n - 1);
      assert RowMoves(states[n - 1], steps[n - 1], states[n - 1 + 1], k);
    }
  }

  /** The committed row is that one, crashes and all. */
  lemma RowIsLastWritten(h: Hash, states: seq<Sys>, steps: seq<Step>, k: Key, n: nat)
    requires IsRun(h, states, steps) && n <= |steps|
    ensures RowOf(states[n], k) == LastRow(states, steps, k, n)
  {
    forall m | 0 <= m < n ensures RowMoves(states[m], steps[m], states[m + 1], k) { RunRowMoves(h, states, steps, k, m); }
    ChainRow(states, steps, k, n);
  }

  /** The meta describes the row. */
  predicate Describes(meta: L.Meta, row: Option<P.Row>) {
    if row.Some? then
      meta.present && meta.digest == row.value.digest && meta.size == row.value.size && meta.contentType == row.value.contentType
    else meta.(updatedAt := 0) == NEGATIVE
  }

  /**
   A put is timely exactly when another writer of the key has still to publish, or it describes
   the row that the last writer to commit left.
   */
  lemma TimelyIffLastWritten(h: Hash, states: seq<Sys>, steps: seq<Step>, n: nat, t: Tid, k: Key, meta: L.Meta)
    requires IsRun(h, states, steps) && n < |steps| && steps[n] == Publish(t)
    requires t in states[n].publishing && states[n].publishing[t] == Assert(k, meta)
    ensures TimelyAt(h, states, steps, n) <==>
            OtherPublisher(states[n], t, k) || Describes(meta, LastRow(states, steps, k, n))
  {
    RowIsLastWritten(h, states, steps, k, n);
    RunStep(h, states, steps, n);
  }

  // ---- a writer's own row --------------------------------------------------

  lemma {:induction false} RunBuffered(h: Hash, states: seq<Sys>, steps: seq<Step>, n: nat)
    requires IsRun(h, states, steps) && n < |states|
    ensures E.AllBuffered(states[n].p)
  {
    if n > 0 {
      RunBuffered(h, states, steps, n - 1);
      RunStep(h, states, steps, n - 1);
      StepBuffered(h, states[n - 1], steps[n - 1]);
    }
  }

  lemma StepBuffered(h: Hash, s: Sys, step: Step)
    requires |s.cache| == LRU_SHARDS && Enabled(h, s, step) && E.AllBuffered(s.p)
    ensures E.AllBuffered(Next(h, s, step).p)
  {
    match step
    case Storage(st) => StorageBuffers(s.p, st);
    case CommitWriter(t, _) => StorageBuffers(s.p, P.Commit(t));
    case CommitLost(t) => StorageBuffers(s.p, P.Commit(t));
    case Crash => StorageBuffers(s.p, P.Crash);
    case _ =>
  }

  lemma StorageBuffers(p: P.State, st: P.Step)
    requires P.Enabled(p, st) && E.AllBuffered(p)
    ensures E.AllBuffered(P.Next(p, st))
  {
    match st
    case DoRecord(t) => E.RecordBuffers(p, t);
    case DoDelete(t, k) => E.DeleteBuffers(p, t, k);
    case _ => E.OtherStepBuffers(p, st);
  }

  /**
   In commit order: whoever was the last to write the row and publishes what its commit owed is
   timely, so a key whose writers publish in the order they committed in is never left wrong.
   */
  lemma LastCommitterIsTimely(h: Hash, states: seq<Sys>, steps: seq<Step>, j: nat, n: nat, t: Tid, at: int, k: Key, meta: L.Meta)
    requires IsRun(h, states, steps) && n < |steps| && steps[n] == Publish(t)
    requires t in states[n].publishing && states[n].publishing[t] == Assert(k, meta)
    requires LastWrote(states, steps, k, j, n) && steps[j] == CommitWriter(t, at)
    requires PublicationOf(states[j].p.txs[t].job, at) == Some(Assert(k, meta))
    ensures TimelyAt(h, states, steps, n)
  {
    RunBuffered(h, states, steps, j);
    assert E.Buffered(states[j].p.txs[t]);
    LastRowIs(states, steps, k, j, n);
    TimelyIffLastWritten(h, states, steps, n, t, k, meta);
  }

  /** If step `n` is a put, another writer of its key has still to publish or it describes the last committed row. */
  ghost predicate InOrder(states: seq<Sys>, steps: seq<Step>, n: nat)
    requires n < |steps| <= |states|
  {
    steps[n].Publish? && steps[n].t in states[n].publishing && states[n].publishing[steps[n].t].Assert? ==>
      var Assert(k, meta) := states[n].publishing[steps[n].t];
      OtherPublisher(states[n], steps[n].t, k) || Describes(meta, LastRow(states, steps, k, n))
  }

  /**
   Over a run in which no commit's answer is lost, the cache is coherent in every state exactly
   when each put, as it is published, meets that test of commit and publish order.
   */
  lemma CoherentIffInOrder(h: Hash, states: seq<Sys>, steps: seq<Step>)
    requires IsRun(h, states, steps) && NoneLost(steps)
    ensures AllCoherent(h, states) <==> forall n :: 0 <= n < |steps| ==> InOrder(states, steps, n)
  {
    CoherentIffPutsTimely(h, states, steps);
    forall n | 0 <= n < |steps| && steps[n].Publish?
      ensures TimelyAt(h, states, steps, n) <==> InOrder(states, steps, n)
    {
      RunStep(h, states, steps, n);
      var t := steps[n].t;
      TimelyIffLastWritten(h, states, steps, n, t, states[n].publishing[t].key, states[n].publishing[t].meta);
    }
  }
}
