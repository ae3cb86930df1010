/** What is true of the tables between any two transactions, and which moves a transaction may make. */
module Invariants {
  import opened Schema
  import opened Transactions
  import opened Accounting

  // ---------------------------------------------------------------- the invariant

  /** Foreign keys and unique keys. */
  ghost predicate Refs(t: Tables) {
    && RowsPlaced(t)
    && (forall c :: c in t.chunks ==> Linked(t, c))
    && (forall up :: up in t.uploads ==> t.uploads[up].oid in t.objects)
    && (forall o :: o in t.objects ==> UploadsOf(t, o) != {})
    && (forall x, y :: x in t.uploads && y in t.uploads && t.uploads[x].oid == t.uploads[y].oid ==> x == y)
    && (forall c, d | c in t.chunks && d in t.chunks ::
          t.chunks[c].upload == t.chunks[d].upload && t.chunks[c].seqNo == t.chunks[d].seqNo ==> c == d)
  }

  predicate PairOk(state: UploadState, phase: Phase) {
    match state
    case Uploading => phase.Staging?
    case Completed => phase.Published?
    case _ => phase.Deleted?
  }

  /** An upload and its object always agree. */
  ghost predicate Pairs(t: Tables)
    requires Refs(t)
  {
    forall up :: up in t.uploads ==> PairOk(t.uploads[up].state, t.objects[t.uploads[up].oid].phase)
  }

  predicate Open(t: Tables, key: TaskKey) {
    key in t.tasks && !t.tasks[key].state.Done?
  }

  predicate Doomed(s: ReplicaState) {
    s.Deleting? || s.Gone?
  }

  /** What a replica row may look like, given the phase of its object. */
  predicate RowOk(t: Tables, k: Key)
    requires k in t.replicas && k.node in t.nodes
  {
    var r, phase := t.replicas[k], PhaseOf(t, k.chunk);
    && (r.state.Valid? || r.state.Bad? || r.state.Reserved? ==> r.volume == t.nodes[k.node].volume)
    && (r.state.Gone? ==> r.charge.NoCharge?)
    && (phase == Some(Staging) ==> !Doomed(r.state) && (r.state.Reserved? ==> r.charge.ReservedCharge?))
    && (phase == Some(Deleted) ==>
          Doomed(r.state) && !r.charge.ReservedCharge? && (r.charge.UsedCharge? ==> Open(t, DeleteOf(k.chunk, k.node))))
  }

  ghost predicate Rows(t: Tables)
    requires RowsPlaced(t)
  {
    forall k :: k in t.replicas ==> RowOk(t, k)
  }

  /** Which tasks may exist for a chunk, given the phase of its object. */
  predicate TaskOk(t: Tables, key: TaskKey) {
    match key
    case RepairOf(c) => PhaseOf(t, c) == Some(Published) || (PhaseOf(t, c) == Some(Deleted) && !Open(t, key))
    case DeleteOf(c, n) => PhaseOf(t, c) != Some(Staging)
  }

  ghost predicate Tasks(t: Tables) {
    forall key :: key in t.tasks ==> TaskOk(t, key)
  }

  function RowKeys(t: Tables, c: Id): set<Key> {
    set k | k in t.replicas && k.chunk == c
  }

  predicate IsReserved(t: Tables, c: Id, n: Id) {
    Key(c, n) in t.replicas && t.replicas[Key(c, n)].state.Reserved?
  }

  /** A staging chunk has exactly its replicas; a published one has at most one reservation. */
  ghost predicate CountOk(t: Tables, c: Id)
    requires Linked(t, c)
  {
    && (PhaseOf(t, c) == Some(Staging) ==> |RowKeys(t, c)| == ObjectOf(t, c).replicas)
    && (PhaseOf(t, c) == Some(Published) ==> forall m, n :: IsReserved(t, c, m) && IsReserved(t, c, n) ==> m == n)
  }

  ghost predicate Counts(t: Tables)
    requires Refs(t)
  {
    forall c :: c in t.chunks ==> CountOk(t, c)
  }

  predicate PieceOk(t: Tables, c: Id)
    requires Linked(t, c)
  {
    var object_ := ObjectOf(t, c);
    && object_.chunkSize > 0
    && t.chunks[c].seqNo < PieceCount(object_.size, object_.chunkSize)
    && t.chunks[c].length == PieceLength(object_.size, object_.chunkSize, t.chunks[c].seqNo) > 0
  }

  ghost predicate WholeUpload(t: Tables, up: Id)
    requires up in t.uploads && t.uploads[up].oid in t.objects
  {
    var object_ := t.objects[t.uploads[up].oid];
    object_.chunkSize > 0 && forall i: nat :: i < PieceCount(object_.size, object_.chunkSize) ==>
        PiecesAt(t, up, i) != {}
  }

  /** The chunks of an upload cut its object into consecutive pieces. */
  ghost predicate Pieces(t: Tables)
    requires Refs(t)
  {
    && (forall c :: c in t.chunks ==> PieceOk(t, c))
    && (forall up :: up in t.uploads ==> WholeUpload(t, up))
  }

  ghost predicate Sound(t: Tables) {
    Refs(t) && Pairs(t) && Rows(t) && Tasks(t) && Counts(t) && Pieces(t)
  }

  // ---------------------------------------------------------------- legal moves

  predicate PhaseEdge(a: Phase, b: Phase) {
    a == b || b.Deleted? || (a.Staging? && b.Published?)
  }

  /** The life of a replica row. */
  predicate StateEdge(a: ReplicaState, b: ReplicaState) {
    a == b ||
    match a
    case Reserved => b.Valid? || b.Bad? || b.Deleting?
    case Valid => b.Bad? || b.Unverified? || b.Deleting?
    case Bad => b.Unverified? || b.Deleting?
    case Unverified => b.Valid? || b.Bad? || b.Deleting?
    case Deleting => b.Gone?
    case Gone => b.Deleting? || b.Reserved?
  }

  predicate ChunkEdge(a: Chunk, b: Chunk) {
    && b.upload == a.upload && b.seqNo == a.seqNo && b.length == a.length
    && (a.digest.Some? ==> b.digest == a.digest)
    && (a.state.ConfirmedChunk? ==> b.state.ConfirmedChunk?)
  }

  predicate ObjectEdge(a: Object, b: Object) {
    b == a.(phase := b.phase) && PhaseEdge(a.phase, b.phase)
  }

  /** A finished upload stays as it ended; only deleting a published object cancels a completed one. */
  predicate UploadEdge(a: Upload, b: Upload) {
    && b == a.(state := b.state)
    && (a.state == b.state || a.state.Uploading? || (a.state.Completed? && b.state.Cancelled?))
  }

  /** Nothing is ever forgotten, and immutable columns never change. */
  ghost predicate Grows(t: Tables, u: Tables) {
    && (forall o :: o in t.objects ==> o in u.objects && ObjectEdge(t.objects[o], u.objects[o]))
    && (forall up :: up in t.uploads ==> up in u.uploads && UploadEdge(t.uploads[up], u.uploads[up]))
    && (forall c :: c in t.chunks ==> c in u.chunks && ChunkEdge(t.chunks[c], u.chunks[c]))
    && (forall k :: k in t.replicas ==> k in u.replicas)
    && (forall n :: n in t.nodes ==> n in u.nodes)
    && (forall key :: key in t.tasks ==> key in u.tasks)
    && t.retired <= u.retired
  }

  ghost predicate RowMoves(t: Tables, u: Tables) {
    forall k :: k in t.replicas && k in u.replicas ==> StateEdge(t.replicas[k].state, u.replicas[k].state)
  }

  // ---------------------------------------------------------------- frames

  /** Same objects, uploads and chunks, up to the phase of objects and the state of uploads. */
  ghost predicate SameShape(t: Tables, u: Tables) {
    && u.objects.Keys == t.objects.Keys
    && (forall o :: o in t.objects ==> u.objects[o] == t.objects[o].(phase := u.objects[o].phase))
    && u.uploads.Keys == t.uploads.Keys
    && (forall up :: up in t.uploads ==> u.uploads[up].oid == t.uploads[up].oid)
    && u.chunks.Keys == t.chunks.Keys
    && (forall c :: c in t.chunks ==>
          && u.chunks[c].upload == t.chunks[c].upload
          && u.chunks[c].seqNo == t.chunks[c].seqNo && u.chunks[c].length == t.chunks[c].length)
    && t.nodes.Keys <= u.nodes.Keys
  }

  /** As `SameShape`, with phases and upload states unchanged too. */
  ghost predicate SameLinks(t: Tables, u: Tables) {
    SameShape(t, u) && u.objects == t.objects && u.uploads == t.uploads
  }

  lemma PlainLinks(t: Tables, u: Tables)
    requires u.objects == t.objects && u.uploads == t.uploads && u.chunks == t.chunks && t.nodes.Keys <= u.nodes.Keys
    ensures SameLinks(t, u)
  {
  }

  lemma ShapeLinks(t: Tables, u: Tables)
    requires SameShape(t, u)
    ensures forall c :: Linked(u, c) == Linked(t, c)
    ensures forall c :: Linked(t, c) ==> ObjectIdOf(u, c) == ObjectIdOf(t, c)
    ensures forall c :: Linked(t, c) ==> ObjectOf(u, c) == ObjectOf(t, c).(phase := ObjectOf(u, c).phase)
  {
  }

  lemma SamePhases(t: Tables, u: Tables)
    requires SameLinks(t, u)
    ensures forall c :: Linked(u, c) == Linked(t, c)
    ensures forall c :: PhaseOf(u, c) == PhaseOf(t, c)
    ensures forall c :: Linked(t, c) ==> ObjectOf(u, c) == ObjectOf(t, c) && ObjectIdOf(u, c) == ObjectIdOf(t, c)
  {
  }

  lemma ShapeRefs(t: Tables, u: Tables)
    requires Refs(t) && Pieces(t) && SameShape(t, u) && RowsPlaced(u)
    ensures Refs(u) && Pieces(u)
  {
    hide PieceOk, WholeUpload, Linked;
    ShapeLinks(t, u);
    forall o | o in u.objects ensures UploadsOf(u, o) != {} {
      assert UploadsOf(u, o) == UploadsOf(t, o);
    }
    assert Refs(u);
    ShapePieces(t, u);
  }

  lemma ShapePiecesAt(t: Tables, u: Tables, up: Id)
    requires SameShape(t, u)
    ensures forall i: nat :: PiecesAt(u, up, i) == PiecesAt(t, up, i)
  {
    forall i: nat ensures PiecesAt(u, up, i) == PiecesAt(t, up, i) {
    }
  }

  lemma ShapePieces(t: Tables, u: Tables)
    requires Refs(t) && Refs(u) && Pieces(t) && SameShape(t, u)
    ensures Pieces(u)
  {
    hide Linked, PiecesAt, ObjectOf;
    ShapeLinks(t, u);
    forall up | up in u.uploads ensures WholeUpload(u, up) {
      assert WholeUpload(t, up);
      ShapePiecesAt(t, u, up);
    }
    forall c | c in u.chunks ensures PieceOk(u, c) {
      assert PieceOk(t, c);
    }
  }

  lemma SamePairs(t: Tables, u: Tables)
    requires Refs(t) && Refs(u) && Pairs(t) && SameLinks(t, u)
    ensures Pairs(u)
  {
  }

  ghost predicate RowUntouched(t: Tables, u: Tables, k: Key) {
    && k in t.replicas && k in u.replicas && u.replicas[k] == t.replicas[k]
    && k.node in t.nodes && k.node in u.nodes && u.nodes[k.node].volume == t.nodes[k.node].volume
    && (Open(t, DeleteOf(k.chunk, k.node)) ==> Open(u, DeleteOf(k.chunk, k.node)))
  }

  ghost predicate TaskUntouched(t: Tables, u: Tables, key: TaskKey) {
    key in t.tasks && (Open(u, key) ==> Open(t, key))
  }

  /** Rows outside `changed` are untouched, so only the changed ones need a look. */
  lemma RowsKept(t: Tables, u: Tables, changed: set<Key>)
    requires RowsPlaced(t) && Rows(t) && SameLinks(t, u) && RowsPlaced(u)
    requires forall k :: k in u.replicas && k !in changed ==> RowUntouched(t, u, k)
    requires forall k :: k in u.replicas && k in changed ==> RowOk(u, k)
    ensures Rows(u)
  {
    hide Linked, PhaseOf, Open;
    SamePhases(t, u);
    forall k | k in u.replicas ensures RowOk(u, k) {
      if k !in changed {
        assert RowOk(t, k);
      }
    }
  }

  lemma TasksKept(t: Tables, u: Tables, changed: set<TaskKey>)
    requires Tasks(t) && SameLinks(t, u)
    requires forall key :: key in u.tasks && key !in changed ==> TaskUntouched(t, u, key)
    requires forall key :: key in u.tasks && key in changed ==> TaskOk(u, key)
    ensures Tasks(u)
  {
    hide Linked, PhaseOf, Open;
    SamePhases(t, u);
    forall key | key in u.tasks ensures TaskOk(u, key) {
      if key !in changed {
        assert TaskOk(t, key);
      }
    }
  }

  ghost predicate CountUntouched(t: Tables, u: Tables, c: Id) {
    RowKeys(u, c) == RowKeys(t, c) && forall n :: IsReserved(u, c, n) ==> IsReserved(t, c, n)
  }

  lemma CountsKept(t: Tables, u: Tables, changed: set<Id>)
    requires Refs(t) && Refs(u) && Counts(t) && SameLinks(t, u)
    requires forall c :: c in u.chunks && c !in changed ==> CountUntouched(t, u, c)
    requires forall c :: c in u.chunks && c in changed ==> CountOk(u, c)
    ensures Counts(u)
  {
    hide Linked, PhaseOf, IsReserved, RowKeys;
    SamePhases(t, u);
    forall c | c in u.chunks ensures CountOk(u, c) {
      if c !in changed {
        assert CountOk(t, c);
        assert CountUntouched(t, u, c);
      }
    }
  }

  lemma SameRowsCount(t: Tables, u: Tables, c: Id)
    requires u.replicas.Keys == t.replicas.Keys
    requires forall k :: k in t.replicas && u.replicas[k].state.Reserved? ==> t.replicas[k].state.Reserved?
    ensures CountUntouched(t, u, c)
  {
  }

  /** Soundness after an update that leaves every phase alone: only what changed needs a look. */
  lemma SoundKept(t: Tables, u: Tables, rows: set<Key>, tasks: set<TaskKey>, counted: set<Id>)
    requires Sound(t) && SameLinks(t, u) && RowsPlaced(u)
    requires forall k :: k in u.replicas && k !in rows ==> RowUntouched(t, u, k)
    requires forall k :: k in u.replicas && k in rows ==> RowOk(u, k)
    requires forall key :: key in u.tasks && key !in tasks ==> TaskUntouched(t, u, key)
    requires forall key :: key in u.tasks && key in tasks ==> TaskOk(u, key)
    requires forall c :: c in u.chunks && c !in counted ==> CountUntouched(t, u, c)
    requires forall c :: c in u.chunks && Linked(u, c) && c in counted ==> CountOk(u, c)
    ensures Sound(u)
  {
    hide PairOk, TaskOk, PieceOk, WholeUpload, RowOk, CountOk, Linked, RowUntouched, TaskUntouched, CountUntouched;
    ShapeRefs(t, u);
    SamePairs(t, u);
    RowsKept(t, u, rows);
    CountsKept(t, u, counted);
    TasksKept(t, u, tasks);
  }

  lemma SoundSameRows(t: Tables, u: Tables, rows: set<Key>, tasks: set<TaskKey>)
    requires Sound(t) && SameLinks(t, u) && u.replicas.Keys == t.replicas.Keys && RowsPlaced(u)
    requires forall k :: k in u.replicas && k !in rows ==> RowUntouched(t, u, k)
    requires forall k :: k in u.replicas && k in rows ==> RowOk(u, k)
    requires forall key :: key in u.tasks && key !in tasks ==> TaskUntouched(t, u, key)
    requires forall key :: key in u.tasks && key in tasks ==> TaskOk(u, key)
    requires forall k :: k in t.replicas && u.replicas[k].state.Reserved? ==> t.replicas[k].state.Reserved?
    ensures Sound(u)
  {
    hide Sound, SameLinks, TaskOk, RowOk, CountOk, Linked, RowUntouched, TaskUntouched, CountUntouched;
    forall c | c in u.chunks ensures CountUntouched(t, u, c) {
      SameRowsCount(t, u, c);
    }
    SoundKept(t, u, rows, tasks, {});
  }

  lemma SoundRow(t: Tables)
    requires Sound(t)
    ensures RowsPlaced(t) && Rows(t)
  {
  }

  // ---------------------------------------------------------------- single-row updates

  lemma SetRowSound(t: Tables, k: Key, r: Replica)
    requires Sound(t) && k in t.replicas && k.node in t.nodes
    requires RowOk(SetRow(t, k, r), k)
    requires r.state.Reserved? ==> t.replicas[k].state.Reserved?
    ensures Sound(SetRow(t, k, r))
  {
    hide Sound, TaskOk, RowOk, Rows, SameLinks;
    SoundRow(t);
    PlainLinks(t, SetRow(t, k, r));
    SoundSameRows(t, SetRow(t, k, r), {k}, {});
  }

  lemma AddToNodeSound(t: Tables, n: Id, reserved: int, used: int)
    requires Sound(t)
    ensures Sound(AddToNode(t, n, reserved, used))
  {
    hide Sound, TaskOk, RowOk, Rows, SameLinks;
    SoundRow(t);
    PlainLinks(t, AddToNode(t, n, reserved, used));
    SoundSameRows(t, AddToNode(t, n, reserved, used), {}, {});
  }

  lemma UnchargeSound(t: Tables, k: Key, length: int)
    requires Sound(t)
    requires k in t.replicas && t.replicas[k].state.Reserved? ==> PhaseOf(t, k.chunk) != Some(Staging)
    ensures Sound(Uncharge(t, k, length))
  {
    hide Sound, RowOk, Rows, PhaseOf, SameLinks;
    SoundRow(t);
    if k in t.replicas && !t.replicas[k].charge.NoCharge? {
      var reserved := t.replicas[k].charge.ReservedCharge?;
      var t1 := if reserved then AddToNode(t, k.node, -length, 0) else AddToNode(t, k.node, 0, -length);
      AddToNodeSound(t, k.node, -length, 0);
      AddToNodeSound(t, k.node, 0, -length);
      PlainLinks(t, t1);
      UnchargedRowOk(t, t1, k);
      SetRowSound(t1, k, t.replicas[k].(charge := NoCharge));
    }
  }

  lemma UnchargedRowOk(t: Tables, t1: Tables, k: Key)
    requires RowsPlaced(t) && Rows(t) && k in t.replicas && SameLinks(t, t1) && t1.replicas == t.replicas
    requires t1.tasks == t.tasks
    requires k.node in t1.nodes && t1.nodes[k.node].volume == t.nodes[k.node].volume
    requires t.replicas[k].state.Reserved? ==> PhaseOf(t, k.chunk) != Some(Staging)
    ensures RowOk(SetRow(t1, k, t.replicas[k].(charge := NoCharge)), k)
  {
    hide Linked, PhaseOf;
    PlainLinks(t1, SetRow(t1, k, t.replicas[k].(charge := NoCharge)));
    SamePhases(t, t1);
    SamePhases(t1, SetRow(t1, k, t.replicas[k].(charge := NoCharge)));
    assert RowOk(t, k);
  }

  lemma EnqueueSound(t: Tables, key: TaskKey, lease: Time)
    requires Sound(t)
    requires key.RepairOf? ==> PhaseOf(t, key.chunk) == Some(Published)
    requires key.DeleteOf? ==> PhaseOf(t, key.chunk) != Some(Staging)
    ensures Sound(Enqueue(t, key, lease))
  {
    hide Sound, RowOk, Rows, PhaseOf, SameLinks;
    SoundRow(t);
    var u := Enqueue(t, key, lease);
    PlainLinks(t, u);
    SamePhases(t, u);
    SoundSameRows(t, u, {}, {key});
  }

  /** Rewrite one task. A deletion may only be closed once its row is off the books. */
  lemma SetTaskSound(t: Tables, key: TaskKey, task: Task)
    requires Sound(t) && key in t.tasks
    requires !task.state.Done? ==> Open(t, key)
    requires task.state.Done? && key.DeleteOf? && Key(key.chunk, key.node) in t.replicas
             ==> t.replicas[Key(key.chunk, key.node)].charge.NoCharge?
    ensures Sound(t.(tasks := t.tasks[key := task]))
  {
    hide Sound, TaskOk, RowOk, Rows, PhaseOf, SameLinks;
    SoundRow(t);
    PlainLinks(t, t.(tasks := t.tasks[key := task]));
    SetTaskRow(t, key, task);
    SoundSameRows(t, t.(tasks := t.tasks[key := task]), if key.DeleteOf? then {Key(key.chunk, key.node)} else {}, {});
  }

  lemma SetTaskRow(t: Tables, key: TaskKey, task: Task)
    requires RowsPlaced(t) && Rows(t) && key in t.tasks
    requires !task.state.Done? ==> Open(t, key)
    requires task.state.Done? && key.DeleteOf? && Key(key.chunk, key.node) in t.replicas
             ==> t.replicas[Key(key.chunk, key.node)].charge.NoCharge?
    ensures key.DeleteOf? && Key(key.chunk, key.node) in t.replicas
            ==> RowOk(t.(tasks := t.tasks[key := task]), Key(key.chunk, key.node))
  {
    hide Linked, PhaseOf, SameLinks;
    PlainLinks(t, t.(tasks := t.tasks[key := task]));
    SamePhases(t, t.(tasks := t.tasks[key := task]));
    if key.DeleteOf? && Key(key.chunk, key.node) in t.replicas {
      assert RowOk(t, Key(key.chunk, key.node));
    }
  }
}
