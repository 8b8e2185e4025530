/** Safety of the storage protocol: `Inv` holds in every state of every run. */
module BlobSafety {
  import opened Types
  import opened BlobProtocol

  // ---- framing -------------------------------------------------------------

  ghost predicate KeepsLocks<K(!new)>(before: map<K, Tid>, after: map<K, Tid>, t: Tid) {
    forall x :: x in before && before[x] != t ==> x in after && after[x] == before[x]
  }

  /** A step of `t` that leaves the tables alone, adds bytes at most and takes only free locks. */
  ghost predicate OnlyTouches(s: State, s': State, t: Tid) {
    && s'.db == s.db && s.bytes <= s'.bytes
    && KeepsLocks(s.advisory, s'.advisory, t)
    && KeepsLocks(s.rowLock, s'.rowLock, t)
    && KeepsLocks(s.keyLock, s'.keyLock, t)
    && forall u :: u in s'.txs && u != t ==> u in s.txs && s.txs[u] == s'.txs[u]
  }

  lemma OthersUndisturbed(s: State, s': State, t: Tid)
    requires Inv(s) && OnlyTouches(s, s', t)
    requires t in s'.txs ==> TxOk(s', t, s'.txs[t])
    ensures Inv(s')
  {
    forall u | u in s'.txs && u != t
      ensures TxOk(s', u, s'.txs[u])
    {
      assert TxOk(s, u, s.txs[u]);
      var w := s.txs[u].w;
      assert forall d :: d in w.blobs ==> BlobWriteOk(s, w, d);
      assert forall k :: k in w.objects ==> ObjectWriteOk(s, w, k);
    }
  }

  // ---- reference counting --------------------------------------------------

  /** Adding one name of `d` adds one to its count and leaves every other count alone. */
  lemma NamingInsert(objects: map<Key, Row>, k: Key, row: Row, d: Digest)
    requires k !in objects
    ensures |Naming(objects[k := row], d)| == |Naming(objects, d)| + if row.digest == d then 1 else 0
  {
    var after := Naming(objects[k := row], d);
    if row.digest == d {
      assert after == Naming(objects, d) + {k};
    } else {
      assert after == Naming(objects, d);
    }
  }

  lemma NamingRemove(objects: map<Key, Row>, k: Key, d: Digest)
    requires k in objects
    ensures |Naming(objects - {k}, d)| == |Naming(objects, d)| - if objects[k].digest == d then 1 else 0
  {
    NamingInsert(objects - {k}, k, objects[k], d);
    assert (objects - {k})[k := objects[k]] == objects;
  }

  /** Writes that do not cover `d` do not change who names it. */
  lemma NamingUncovered(s: State, w: Writes, d: Digest)
    requires forall k :: k in w.objects ==> ObjectWriteOk(s, w, k)
    requires d !in w.blobs
    ensures Naming(Overlay(s.db.objects, w.objects), d) == Naming(s.db.objects, d)
  {
    var o := Overlay(s.db.objects, w.objects);
    forall k
      ensures k in Naming(o, d) <==> k in Naming(s.db.objects, d)
    {
      if k in w.objects { assert ObjectWriteOk(s, w, k); }
    }
  }

  /** Committing `w` changes nothing `u` counted on, when the two hold different locks. */
  lemma NamingDisjoint(s: State, w: Writes, u: Writes, d: Digest)
    requires forall k :: k in w.objects ==> ObjectWriteOk(s, w, k)
    requires w.objects.Keys !! u.objects.Keys && d !in w.blobs
    ensures Naming(Overlay(Overlay(s.db.objects, w.objects), u.objects), d)
         == Naming(Overlay(s.db.objects, u.objects), d)
  {
    var l := Overlay(Overlay(s.db.objects, w.objects), u.objects);
    var r := Overlay(s.db.objects, u.objects);
    forall k
      ensures k in Naming(l, d) <==> k in Naming(r, d)
    {
      if k in w.objects { assert ObjectWriteOk(s, w, k); }
    }
  }

  lemma BumpObjects(db: Tables, w: Writes, d: Digest, delta: int)
    ensures Bump(db, w, d, delta).objects == w.objects
  {
  }

  // ---- one lemma per kind of step ------------------------------------------

  lemma LockKeeps(s: State, t: Tid)
    requires Inv(s) && CanLock(s, t)
    ensures Inv(LockDigest(s, t))
  {
    assert TxOk(s, t, s.txs[t]);
    OthersUndisturbed(s, LockDigest(s, t), t);
  }

  lemma CheckKeeps(s: State, t: Tid)
    requires Inv(s) && CanCheck(s, t)
    ensures Inv(CheckBlob(s, t))
  {
    assert TxOk(s, t, s.txs[t]);
    OthersUndisturbed(s, CheckBlob(s, t), t);
  }

  lemma CommitBytesKeeps(s: State, t: Tid)
    requires Inv(s) && CanCommitBytes(s, t)
    ensures Inv(CommitBytes(s, t))
  {
    assert TxOk(s, t, s.txs[t]);
    OthersUndisturbed(s, CommitBytes(s, t), t);
  }

  lemma ReviveKeeps(s: State, t: Tid)
    requires Inv(s) && CanRevive(s, t)
    ensures Inv(Revive(s, t))
  {
    assert TxOk(s, t, s.txs[t]);
    var s' := Revive(s, t);
    var d := s.txs[t].job.args.digest;
    var w' := s'.txs[t].w;
    assert Overlay(s.db.objects, w'.objects) == s.db.objects;
    if d !in s.db.blobs {
      assert Naming(s.db.objects, d) == {};
    }
    assert BlobWriteOk(s', w', d);
    OthersUndisturbed(s, s', t);
  }

  lemma MarkKeeps(s: State, t: Tid, d: Digest)
    requires Inv(s) && CanMark(s, t, d)
    ensures Inv(MarkBlob(s, t, d))
  {
    var s' := MarkBlob(s, t, d);
    var w, w' := s.txs[t].w, s'.txs[t].w;
    assert TxOk(s, t, s.txs[t]);
    assert d !in w.blobs;
    NamingUncovered(s, w, d);
    forall e | e in w'.blobs
      ensures BlobWriteOk(s', w', e)
    {
      if e != d { assert BlobWriteOk(s, w, e); }
    }
    forall k | k in w'.objects
      ensures ObjectWriteOk(s', w', k)
    {
      assert ObjectWriteOk(s, w, k);
    }
    OthersUndisturbed(s, s', t);
  }

  lemma RecheckKeeps(s: State, t: Tid)
    requires Inv(s) && CanRecheck(s, t)
    ensures Inv(Recheck(s, t))
  {
    assert TxOk(s, t, s.txs[t]);
    OthersUndisturbed(s, Recheck(s, t), t);
  }

  /** The only step that removes bytes: the row lock and the advisory lock keep everyone else off `d`. */
  lemma UnlinkKeeps(s: State, t: Tid)
    requires Inv(s) && ReapAt(s, t, Rechecked)
    ensures Inv(Unlink(s, t))
  {
    var s' := Unlink(s, t);
    assert TxOk(s, t, s.txs[t]);
    forall u | u in s'.txs
      ensures TxOk(s', u, s'.txs[u])
    {
      assert TxOk(s, u, s.txs[u]);
      var w := s.txs[u].w;
      assert forall d :: d in w.blobs ==> BlobWriteOk(s, w, d);
      assert forall k :: k in w.objects ==> ObjectWriteOk(s, w, k);
    }
  }

  lemma ReapRowKeeps(s: State, t: Tid)
    requires Inv(s) && ReapAt(s, t, Unlinked)
    ensures Inv(ReapRow(s, t))
  {
    assert TxOk(s, t, s.txs[t]);
    var s' := ReapRow(s, t);
    var d := s.txs[t].job.digest;
    var w' := s'.txs[t].w;
    assert Overlay(s.db.objects, w'.objects) == s.db.objects;
    assert Naming(s.db.objects, d) == {};
    assert BlobWriteOk(s', w', d);
    OthersUndisturbed(s, s', t);
  }

  lemma OverlayPut(objects: map<Key, Row>, k: Key, row: Row)
    ensures Overlay(objects, map[k := Some(row)]) == objects[k := row]
  {
  }

  lemma OverlayDrop(objects: map<Key, Row>, w: map<Key, Option<Row>>, k: Key)
    ensures Overlay(objects, w[k := None]) == Overlay(objects, w) - {k}
  {
  }

  lemma NewWrites(db: Tables, a: PutArgs, up: Blob)
    requires a.key !in db.objects
    ensures RecordWrites(db, Writes(map[a.digest := Some(up)], map[]), a) ==
            Writes(map[a.digest := Some(up.(refcount := up.refcount + 1))], map[a.key := Some(RowOf(a))])
  {
    BumpShape(db, Writes(map[a.digest := Some(up)], map[a.key := Some(RowOf(a))]), a.digest, 1);
  }

  lemma NewBlobOk(s: State, a: PutArgs, up: Blob)
    requires a.key !in s.db.objects && up.state.Live?
    requires BlobWriteOk(s, Writes(map[a.digest := Some(up)], map[]), a.digest)
    ensures BlobWriteOk(s, Writes(map[a.digest := Some(up.(refcount := up.refcount + 1))],
                                  map[a.key := Some(RowOf(a))]), a.digest)
  {
    assert Overlay<Key, Row>(s.db.objects, map[]) == s.db.objects;
    OverlayPut(s.db.objects, a.key, RowOf(a));
    NamingInsert(s.db.objects, a.key, RowOf(a), a.digest);
  }

  /** A fresh key: one more name, one more reference. */
  lemma RecordNewOk(s: State, t: Tid)
    requires Inv(s) && CanRecord(s, t) && s.txs[t].job.args.key !in s.db.objects
    ensures WritesOk(RecordObject(s, t), t, RecordObject(s, t).txs[t].w)
  {
    assert TxOk(s, t, s.txs[t]);
    var a, w := s.txs[t].job.args, s.txs[t].w;
    var up := w.blobs[a.digest].value;
    assert BlobWriteOk(s, w, a.digest);
    assert w == Writes(map[a.digest := Some(up)], map[]);
    NewWrites(s.db, a, up);
    NewBlobOk(s, a, up);
    SameRowsOk(s, RecordObject(s, t), t, RecordWrites(s.db, w, a));
  }

  lemma NamingMove(objects: map<Key, Row>, k: Key, row: Row, d: Digest)
    requires k in objects && objects[k].digest != row.digest
    ensures |Naming(objects[k := row], d)| ==
            |Naming(objects, d)| + (if d == row.digest then 1 else 0) - (if d == objects[k].digest then 1 else 0)
  {
    NamingRemove(objects, k, d);
    NamingInsert(objects - {k}, k, row, d);
    assert (objects - {k})[k := row] == objects[k := row];
  }

  /** What the trigger's UPDATE adds to the writes, for a blob row already written and for one not. */
  lemma BumpShape(db: Tables, w: Writes, d: Digest, delta: int)
    ensures d in w.blobs && w.blobs[d].Some? ==>
              Bump(db, w, d, delta) ==
              w.(blobs := w.blobs[d := Some(w.blobs[d].value.(refcount := w.blobs[d].value.refcount + delta))])
    ensures d !in w.blobs && d in db.blobs ==>
              Bump(db, w, d, delta) ==
              w.(blobs := w.blobs[d := Some(db.blobs[d].(refcount := db.blobs[d].refcount + delta))])
  {
  }

  lemma MovedWrites(db: Tables, w: Writes, a: PutArgs, up: Blob)
    requires w == Writes(map[a.digest := Some(up)], map[])
    requires a.key in db.objects && db.objects[a.key].digest != a.digest && db.objects[a.key].digest in db.blobs
    ensures var was := db.objects[a.key].digest;
            RecordWrites(db, w, a) ==
            Writes(map[a.digest := Some(up.(refcount := up.refcount + 1)),
                       was := Some(db.blobs[was].(refcount := db.blobs[was].refcount - 1))],
                   map[a.key := Some(RowOf(a))])
  {
    var was := db.objects[a.key].digest;
    var named := w.(objects := w.objects[a.key := Some(RowOf(a))]);
    BumpShape(db, named, was, -1);
    BumpShape(db, Bump(db, named, was, -1), a.digest, 1);
  }

  /** The overwrite: the old digest loses the name, the new one gains it, in one transaction. */
  lemma MovedBlobsOk(s: State, a: PutArgs, up: Blob, d: Digest)
    requires Sound(s.db, s.bytes)
    requires a.key in s.db.objects && s.db.objects[a.key].digest != a.digest
    requires BlobWriteOk(s, Writes(map[a.digest := Some(up)], map[]), a.digest)
    requires up.state.Live? && (d == a.digest || d == s.db.objects[a.key].digest)
    ensures var w' := RecordWrites(s.db, Writes(map[a.digest := Some(up)], map[]), a);
            d in w'.blobs && BlobWriteOk(s, w', d)
  {
    MovedWrites(s.db, Writes(map[a.digest := Some(up)], map[]), a, up);
    assert Overlay<Key, Row>(s.db.objects, map[]) == s.db.objects;
    OverlayPut(s.db.objects, a.key, RowOf(a));
    NamingMove(s.db.objects, a.key, RowOf(a), d);
  }

  lemma MovedWritesOk(s: State, s': State, t: Tid, a: PutArgs, up: Blob)
    requires Sound(s.db, s.bytes) && s'.db == s.db && s'.bytes == s.bytes
    requires a.key in s.db.objects && s.db.objects[a.key].digest != a.digest
    requires BlobWriteOk(s, Writes(map[a.digest := Some(up)], map[]), a.digest)
    requires up.state.Live? && up.size == a.size
    requires Holds(s'.rowLock, a.digest, t) && Holds(s'.rowLock, s.db.objects[a.key].digest, t)
    requires Holds(s'.keyLock, a.key, t)
    ensures WritesOk(s', t, RecordWrites(s.db, Writes(map[a.digest := Some(up)], map[]), a))
  {
    var w := Writes(map[a.digest := Some(up)], map[]);
    MovedWrites(s.db, w, a, up);
    MovedBlobsOk(s, a, up, a.digest);
    MovedBlobsOk(s, a, up, s.db.objects[a.key].digest);
    SameRowsOk(s, s', t, RecordWrites(s.db, w, a));
  }

  lemma RecordMoveOk(s: State, t: Tid)
    requires Inv(s) && CanRecord(s, t)
    requires s.txs[t].job.args.overwrite && s.txs[t].job.args.key in s.db.objects
    requires s.db.objects[s.txs[t].job.args.key].digest != s.txs[t].job.args.digest
    ensures WritesOk(RecordObject(s, t), t, RecordObject(s, t).txs[t].w)
  {
    assert TxOk(s, t, s.txs[t]);
    var a, w := s.txs[t].job.args, s.txs[t].w;
    var up := w.blobs[a.digest].value;
    assert BlobWriteOk(s, w, a.digest);
    assert w == Writes(map[a.digest := Some(up)], map[]);
    MovedWritesOk(s, RecordObject(s, t), t, a, up);
  }

  /** An identical re-PUT disturbs no count. */
  lemma RecordSameOk(s: State, t: Tid)
    requires Inv(s) && CanRecord(s, t)
    requires s.txs[t].job.args.overwrite && s.txs[t].job.args.key in s.db.objects
    requires s.db.objects[s.txs[t].job.args.key].digest == s.txs[t].job.args.digest
    ensures WritesOk(RecordObject(s, t), t, RecordObject(s, t).txs[t].w)
  {
    assert TxOk(s, t, s.txs[t]);
    var a, w := s.txs[t].job.args, s.txs[t].w;
    assert BlobWriteOk(s, w, a.digest);
    var w' := Writes(w.blobs, map[a.key := Some(RowOf(a))]);
    assert RecordWrites(s.db, w, a) == w';
    assert Overlay(s.db.objects, w.objects) == s.db.objects;
    OverlayPut(s.db.objects, a.key, RowOf(a));
    assert Naming(s.db.objects[a.key := RowOf(a)], a.digest) == Naming(s.db.objects, a.digest);
    assert BlobWriteOk(s, w', a.digest);
    SameRowsOk(s, RecordObject(s, t), t, w');
  }

  lemma RecordNothingKeeps(s: State, t: Tid)
    requires Inv(s) && CanRecord(s, t)
    requires s.txs[t].job.args.key in s.db.objects && !s.txs[t].job.args.overwrite
    ensures Inv(RecordObject(s, t))
  {
    assert TxOk(s, t, s.txs[t]);
    SameWritesOk(s, RecordObject(s, t), t, s.txs[t].w);
    OthersUndisturbed(s, RecordObject(s, t), t);
  }

  lemma RecordKeeps(s: State, t: Tid)
    requires Inv(s) && CanRecord(s, t)
    ensures Inv(RecordObject(s, t))
  {
    var a := s.txs[t].job.args;
    if a.key in s.db.objects && !a.overwrite {
      RecordNothingKeeps(s, t);
    } else {
      if a.key !in s.db.objects {
        RecordNewOk(s, t);
      } else if s.db.objects[a.key].digest == a.digest {
        RecordSameOk(s, t);
      } else {
        RecordMoveOk(s, t);
      }
      OthersUndisturbed(s, RecordObject(s, t), t);
    }
  }

  /** The row a DELETE removes names a blob the transaction can see, so the trigger writes that blob. */
  lemma DeletedRowShape(s: State, t: Tid, k: Key)
    requires Inv(s) && CanDelete(s, t, k) && k in View(s.db, s.txs[t].w).objects
    ensures var v, w := View(s.db, s.txs[t].w), s.txs[t].w;
            var d := v.objects[k].digest;
            && d in v.blobs
            && v.blobs[d].refcount == |Naming(v.objects, d)|
            && v.blobs[d].state.Live? && d in s.bytes
            && (d in s.db.blobs ==> v.blobs[d].size == s.db.blobs[d].size)
            && DeleteRow(s, t, k).txs[t].w ==
               Writes(w.blobs[d := Some(v.blobs[d].(refcount := v.blobs[d].refcount - 1))], w.objects[k := None])
  {
    var w := s.txs[t].w;
    assert TxOk(s, t, s.txs[t]);
    var v := View(s.db, w);
    var d := v.objects[k].digest;
    assert k in Naming(v.objects, d);
    if k in w.objects { assert ObjectWriteOk(s, w, k); }
    if d in w.blobs { assert BlobWriteOk(s, w, d); } else { NamingUncovered(s, w, d); }
  }

  lemma DroppedBlobOk(s: State, w: Writes, k: Key, b: Blob, e: Digest)
    requires k in View(s.db, w).objects
    requires var d := View(s.db, w).objects[k].digest;
             && (e == d ==> b.refcount == |Naming(View(s.db, w).objects, d)| && b.state.Live? && d in s.bytes
                            && (d in s.db.blobs ==> b.size == s.db.blobs[d].size))
             && (e != d ==> e in w.blobs && BlobWriteOk(s, w, e))
    ensures var d := View(s.db, w).objects[k].digest;
            BlobWriteOk(s, Writes(w.blobs[d := Some(b.(refcount := b.refcount - 1))], w.objects[k := None]), e)
  {
    var objects := View(s.db, w).objects;
    OverlayDrop(s.db.objects, w.objects, k);
    NamingRemove(objects, k, e);
    if e != objects[k].digest {
      assert Naming(objects - {k}, e) == Naming(objects, e);
    }
  }

  lemma DeletedBlobsOk(s: State, t: Tid, k: Key, e: Digest)
    requires Inv(s) && CanDelete(s, t, k) && k in View(s.db, s.txs[t].w).objects
    requires e in DeleteRow(s, t, k).txs[t].w.blobs
    ensures BlobWriteOk(s, DeleteRow(s, t, k).txs[t].w, e)
    ensures Holds(DeleteRow(s, t, k).rowLock, e, t)
  {
    DeletedRowShape(s, t, k);
    assert TxOk(s, t, s.txs[t]);
    var w := s.txs[t].w;
    var d := View(s.db, w).objects[k].digest;
    if e != d { assert BlobWriteOk(s, w, e); }
    DroppedBlobOk(s, w, k, View(s.db, w).blobs[d], e);
  }

  lemma DeletedObjectsOk(s: State, t: Tid, k: Key, j: Key)
    requires Inv(s) && CanDelete(s, t, k) && k in View(s.db, s.txs[t].w).objects
    requires j in DeleteRow(s, t, k).txs[t].w.objects
    ensures ObjectWriteOk(s, DeleteRow(s, t, k).txs[t].w, j)
    ensures Holds(DeleteRow(s, t, k).keyLock, j, t)
  {
    DeletedRowShape(s, t, k);
    assert TxOk(s, t, s.txs[t]);
    if j in s.txs[t].w.objects { assert ObjectWriteOk(s, s.txs[t].w, j); }
  }

  lemma DeletedRowOk(s: State, t: Tid, k: Key)
    requires Inv(s) && CanDelete(s, t, k) && k in View(s.db, s.txs[t].w).objects
    ensures WritesOk(DeleteRow(s, t, k), t, DeleteRow(s, t, k).txs[t].w)
  {
    var s' := DeleteRow(s, t, k);
    forall e | e in s'.txs[t].w.blobs { DeletedBlobsOk(s, t, k, e); }
    forall j | j in s'.txs[t].w.objects { DeletedObjectsOk(s, t, k, j); }
    SameRowsOk(s, s', t, s'.txs[t].w);
  }

  lemma SameRowsOk(s: State, s': State, t: Tid, w: Writes)
    requires s'.db == s.db && s'.bytes == s.bytes
    requires forall d :: d in w.blobs ==> Holds(s'.rowLock, d, t) && BlobWriteOk(s, w, d)
    requires forall k :: k in w.objects ==> Holds(s'.keyLock, k, t) && ObjectWriteOk(s, w, k)
    ensures WritesOk(s', t, w)
  {
  }

  lemma DeleteKeeps(s: State, t: Tid, k: Key)
    requires Inv(s) && CanDelete(s, t, k)
    ensures Inv(DeleteRow(s, t, k))
  {
    var s' := DeleteRow(s, t, k);
    if k in View(s.db, s.txs[t].w).objects {
      DeletedRowOk(s, t, k);
      assert PcOk(s', t, s'.txs[t]);
    } else {
      assert TxOk(s, t, s.txs[t]);
      SameWritesOk(s, s', t, s.txs[t].w);
    }
    assert OnlyTouches(s, s', t);
    OthersUndisturbed(s, s', t);
  }

  /** `WritesOk` reads only the tables, the bytes and the locks the writes are under. */
  lemma SameWritesOk(s: State, s': State, t: Tid, w: Writes)
    requires WritesOk(s, t, w) && s'.db == s.db && s.bytes <= s'.bytes
    requires forall d :: Holds(s.rowLock, d, t) ==> Holds(s'.rowLock, d, t)
    requires forall k :: Holds(s.keyLock, k, t) ==> Holds(s'.keyLock, k, t)
    ensures WritesOk(s', t, w)
  {
    assert forall d :: d in w.blobs ==> BlobWriteOk(s, w, d);
    assert forall k :: k in w.objects ==> ObjectWriteOk(s, w, k);
  }

  lemma CommitSound(s: State, t: Tid)
    requires Inv(s) && t in s.txs
    ensures Sound(View(s.db, s.txs[t].w), s.bytes)
  {
    var w := s.txs[t].w;
    var db := View(s.db, w);
    assert TxOk(s, t, s.txs[t]);
    forall d | d in db.blobs
      ensures db.blobs[d].refcount == |Naming(db.objects, d)|
      ensures db.blobs[d].state.Live? ==> d in s.bytes
      ensures db.blobs[d].state.PendingDelete? ==> db.blobs[d].refcount == 0
    {
      if d in w.blobs { assert BlobWriteOk(s, w, d); } else { NamingUncovered(s, w, d); }
    }
    forall k | k in db.objects
      ensures db.objects[k].digest in db.blobs
      ensures db.blobs[db.objects[k].digest].size == db.objects[k].size
      ensures db.blobs[db.objects[k].digest].state.Live?
    {
      var d := db.objects[k].digest;
      assert k in Naming(db.objects, d);
      if k in w.objects { assert ObjectWriteOk(s, w, k); }
      if d in w.blobs { assert BlobWriteOk(s, w, d); }
    }
  }

  lemma CommitKeepsOther(s: State, t: Tid, u: Tid)
    requires Inv(s) && t in s.txs && u in s.txs && u != t
    ensures TxOk(End(s, t, View(s.db, s.txs[t].w)), u, s.txs[u])
  {
    var w, x := s.txs[t].w, s.txs[u].w;
    var s' := End(s, t, View(s.db, w));
    assert TxOk(s, t, s.txs[t]) && TxOk(s, u, s.txs[u]);
    forall d | d in x.blobs
      ensures BlobWriteOk(s', x, d)
    {
      assert BlobWriteOk(s, x, d);
      NamingDisjoint(s, w, x, d);
    }
    forall k | k in x.objects
      ensures ObjectWriteOk(s', x, k)
    {
      assert ObjectWriteOk(s, x, k);
    }
  }

  lemma CommitKeeps(s: State, t: Tid)
    requires Inv(s) && t in s.txs
    ensures Inv(End(s, t, View(s.db, s.txs[t].w)))
  {
    CommitSound(s, t);
    var s' := End(s, t, View(s.db, s.txs[t].w));
    forall u | u in s'.txs
      ensures TxOk(s', u, s'.txs[u])
    {
      CommitKeepsOther(s, t, u);
    }
  }

  lemma StepKeeps(s: State, step: Step)
    requires Inv(s) && Enabled(s, step)
    ensures Inv(Next(s, step))
  {
    match step
    case Begin(t, job) => OthersUndisturbed(s, Next(s, step), t);
    case SyncBytes(t) =>
      assert TxOk(s, t, s.txs[t]);
      OthersUndisturbed(s, Next(s, step), t);
    case DoLock(t) => LockKeeps(s, t);
    case DoCheck(t) => CheckKeeps(s, t);
    case DoCommitBytes(t) => CommitBytesKeeps(s, t);
    case DoRevive(t) => ReviveKeeps(s, t);
    case DoRecord(t) => RecordKeeps(s, t);
    case DoDelete(t, k) => DeleteKeeps(s, t, k);
    case DoMark(t, d) => MarkKeeps(s, t, d);
    case DoRecheck(t) => RecheckKeeps(s, t);
    case DoUnlink(t) => UnlinkKeeps(s, t);
    case DoReapRow(t) => ReapRowKeeps(s, t);
    case Commit(t) => CommitKeeps(s, t);
    case Rollback(t) => OthersUndisturbed(s, Next(s, step), t);
    case Crash =>
  }

  // ---- the theorems --------------------------------------------------------

  lemma {:induction false} RunKeeps(states: seq<State>, steps: seq<Step>, i: nat)
    requires IsRun(states, steps) && i < |states|
    ensures Inv(states[i])
  {
    if i > 0 {
      RunKeeps(states, steps, i - 1);
      StepKeeps(states[i - 1], steps[i - 1]);
    }
  }

  /**
   In every state of every interleaving, with a rollback or a crash at any step: live
   blobs have their bytes, object rows name a live blob of their own size, a tombstone
   is unreferenced, and each refcount is the number of rows naming the digest.
   */
  lemma StorageSafety(states: seq<State>, steps: seq<Step>, i: nat)
    requires IsRun(states, steps) && i < |states|
    ensures Sound(states[i].db, states[i].bytes)
  {
    RunKeeps(states, steps, i);
  }

  /** No committed object row ever names bytes that storage does not have. */
  lemma NeverDangling(states: seq<State>, steps: seq<Step>, i: nat, k: Key)
    requires IsRun(states, steps) && i < |states| && k in states[i].db.objects
    ensures states[i].db.objects[k].digest in states[i].bytes
  {
    RunKeeps(states, steps, i);
  }

  /**
   The reap's guards are never what saves it: when the blob row is about to be deleted
   no row names it, not even an uncommitted one, so ON DELETE RESTRICT has nothing to refuse.
   */
  lemma ReapUnreferenced(states: seq<State>, steps: seq<Step>, i: nat, t: Tid)
    requires IsRun(states, steps) && i < |states| && ReapAt(states[i], t, Unlinked)
    ensures var s := states[i];
            forall u, k :: u in s.txs && k in View(s.db, s.txs[u].w).objects ==>
              View(s.db, s.txs[u].w).objects[k].digest != s.txs[t].job.digest
  {
    RunKeeps(states, steps, i);
    var s := states[i];
    var d := s.txs[t].job.digest;
    assert TxOk(s, t, s.txs[t]);
    assert Naming(s.db.objects, d) == {};
    forall u, k | u in s.txs && k in View(s.db, s.txs[u].w).objects
      ensures View(s.db, s.txs[u].w).objects[k].digest != d
    {
      assert TxOk(s, u, s.txs[u]);
      var w := s.txs[u].w;
      if k in w.objects {
        assert ObjectWriteOk(s, w, k);
      } else {
        assert k !in Naming(s.db.objects, d);
      }
    }
  }

  /** The refcount trigger never increments a tombstone, so its CHECK never aborts an upload. */
  lemma RecordIncrementsLive(states: seq<State>, steps: seq<Step>, i: nat, t: Tid)
    requires IsRun(states, steps) && i < |states| && PutAt(states[i], t, Revived)
    ensures var s := states[i];
            var d := s.txs[t].job.args.digest;
            && d in View(s.db, s.txs[t].w).blobs
            && View(s.db, s.txs[t].w).blobs[d].state.Live?
            && d in s.bytes
  {
    RunKeeps(states, steps, i);
    var s := states[i];
    assert TxOk(s, t, s.txs[t]);
    assert BlobWriteOk(s, s.txs[t].w, s.txs[t].job.args.digest);
  }
}
