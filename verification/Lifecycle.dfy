/** The transactions that move whole objects, uploads or nodes keep the invariant too. */
module Lifecycle {
  import opened Schema
  import opened Transactions
  import opened Accounting
  import opened Invariants
  import opened Preservation

  // ---------------------------------------------------------------- nodes

  lemma GradeGood(t: Tables, cfg: Config, now: Time)
    requires Good(t)
    ensures Good(GradeNodes(t, cfg, now)) && Advances(t, GradeNodes(t, cfg, now))
  {
    hide Sound, Balanced, Advances, TaskOk, RowOk, Rows, Tasks;
    GoodRows(t);
    var u := GradeNodes(t, cfg, now);
    PlainLinks(t, u);
    SoundSameRows(t, u, {}, {});
    UntouchedBooks(t, u);
    PlainAdvance(t, u);
  }

  lemma HeartbeatGood(t: Tables, cfg: Config, b: Beat, u: Tables)
    requires Good(t) && Heartbeat(t, cfg, b) == Ok(u)
    ensures Good(u) && Advances(t, u)
  {
    hide Sound, Balanced, Advances, TaskOk, Tasks, PhaseOf, Linked;
    GoodRows(t);
    PlainLinks(t, u);
    SamePhases(t, u);
    var rows := set k | k in t.replicas && k.node == b.node;
    forall k | k in u.replicas && k in rows ensures RowOk(u, k) {
      assert RowOk(t, k);
    }
    SoundSameRows(t, u, rows, {});
    HeartbeatBooks(t, cfg, b, u);
    PlainAdvance(t, u);
  }

  lemma HeartbeatBooks(t: Tables, cfg: Config, b: Beat, u: Tables)
    requires Balanced(t) && Heartbeat(t, cfg, b) == Ok(u)
    ensures Balanced(u)
  {
    hide NodeBalanced;
    UntouchedBooks(t, u);
  }

  // ---------------------------------------------------------------- preparing and confirming

  lemma ChunkRewriteGood(t: Tables, c: Id, chunk: Chunk)
    requires Good(t) && c in t.chunks && ChunkEdge(t.chunks[c], chunk)
    ensures Good(t.(chunks := t.chunks[c := chunk])) && Advances(t, t.(chunks := t.chunks[c := chunk]))
  {
    hide Sound, Balanced, TaskOk, RowOk, Rows, Tasks, Linked;
    GoodRows(t);
    var u := t.(chunks := t.chunks[c := chunk]);
    SoundSameRows(t, u, {}, {});
    UntouchedBooks(t, u);
  }

  lemma PrepareGood(t: Tables, cfg: Config, now: Time, up: Id, owner: Id, seqNo: nat, digest: Digest,
                    out: (Tables, Id, seq<Ticket>))
    requires Good(t) && Prepare(t, cfg, now, up, owner, seqNo, digest) == Ok(out)
    ensures Good(out.0) && Advances(t, out.0)
  {
    hide Good, Advances, Positions;
    ChunkRewriteGood(t, out.1, t.chunks[out.1].(digest := Some(digest)));
  }

  lemma ConvertGood(t: Tables, c: Id, length: int, nodes: set<Id>)
    requires Good(t) && c in t.chunks && length == t.chunks[c].length && PhaseOf(t, c) == Some(Staging)
    ensures Good(ConvertRows(t, c, length, nodes)) && Advances(t, ConvertRows(t, c, length, nodes))
  {
    hide Sound, Balanced, Advances, TaskOk, Tasks, PhaseOf, Linked;
    GoodRows(t);
    var u := ConvertRows(t, c, length, nodes);
    PlainLinks(t, u);
    SamePhases(t, u);
    var rows := set k | k in t.replicas && k.chunk == c;
    forall k | k in u.replicas && k in rows ensures RowOk(u, k) {
      assert RowOk(t, k);
    }
    forall n | Converts(t, c, nodes, n) ensures t.replicas[Key(c, n)].charge.ReservedCharge? {
      assert RowOk(t, Key(c, n));
    }
    SoundSameRows(t, u, rows, {});
    ConvertBalances(t, c, length, nodes);
    PlainAdvance(t, u);
  }

  predicate ConfirmSnapFits(t: Tables, snap: ConfirmSnap) {
    && Linked(t, snap.chunk) && t.chunks[snap.chunk].length == snap.length
    && t.chunks[snap.chunk].upload == snap.upload && t.chunks[snap.chunk].digest == Some(snap.digest)
  }

  lemma UploadingIsStaging(t: Tables, c: Id)
    requires Sound(t) && Linked(t, c) && t.uploads[t.chunks[c].upload].state.Uploading?
    ensures PhaseOf(t, c) == Some(Staging)
  {
    hide Rows, Tasks, Counts, Pieces;
    assert PairOk(t.uploads[t.chunks[c].upload].state, ObjectOf(t, c).phase);
  }

  lemma ConfirmCommitGood(t: Tables, cfg: Config, now: Time, snap: ConfirmSnap, u: Tables)
    requires Good(t) && ConfirmSnapFits(t, snap) && ConfirmCommit(t, cfg, now, snap) == Ok(u)
    ensures Good(u) && Advances(t, u)
  {
    hide Sound, Balanced, Advances, Positions, PhaseOf;
    UploadingIsStaging(t, snap.chunk);
    var t1 := ConvertRows(t, snap.chunk, snap.length, TicketNodes(snap.positions));
    ConvertGood(t, snap.chunk, snap.length, TicketNodes(snap.positions));
    ChunkRewriteGood(t1, snap.chunk, t1.chunks[snap.chunk].(state := ConfirmedChunk));
    ConfirmAdvances(t, t1, u);
  }

  lemma ConfirmAdvances(t: Tables, t1: Tables, u: Tables)
    requires Advances(t, t1) && Advances(t1, u) && u == t1.(chunks := u.chunks)
    ensures Advances(t, u)
  {
  }

  // ---------------------------------------------------------------- changing the phase of one object

  /** `u` is `t` with one upload and its object moved to another state. */
  ghost predicate PhaseSet(t: Tables, u: Tables, up: Id, state: UploadState, phase: Phase)
    requires up in t.uploads && t.uploads[up].oid in t.objects
  {
    && u.uploads == t.uploads[up := t.uploads[up].(state := state)]
    && u.objects == t.objects[t.uploads[up].oid := t.objects[t.uploads[up].oid].(phase := phase)]
    && u.chunks == t.chunks && u.nodes.Keys == t.nodes.Keys && u.replicas.Keys == t.replicas.Keys
  }

  predicate InUpload(t: Tables, up: Id, c: Id) {
    c in t.chunks && t.chunks[c].upload == up
  }

  lemma PhaseSetPhases(t: Tables, u: Tables, up: Id, state: UploadState, phase: Phase)
    requires Refs(t) && up in t.uploads && PhaseSet(t, u, up, state, phase)
    ensures forall c :: InUpload(t, up, c) ==> PhaseOf(u, c) == Some(phase)
    ensures forall c :: !InUpload(t, up, c) ==> PhaseOf(u, c) == PhaseOf(t, c)
  {
  }

  lemma PhaseSetShape(t: Tables, u: Tables, up: Id, state: UploadState, phase: Phase)
    requires Refs(t) && up in t.uploads && PhaseSet(t, u, up, state, phase)
    ensures SameShape(t, u) && RowsPlaced(u)
  {
  }

  lemma PhaseSetPairs(t: Tables, u: Tables, up: Id, state: UploadState, phase: Phase)
    requires Refs(t) && Pairs(t) && Refs(u) && up in t.uploads && PhaseSet(t, u, up, state, phase)
    requires PairOk(state, phase)
    ensures Pairs(u)
  {
    hide PairOk, Linked;
  }

  lemma PhaseSetRefs(t: Tables, u: Tables, up: Id, state: UploadState, phase: Phase)
    requires Refs(t) && Pieces(t) && Pairs(t) && up in t.uploads && PhaseSet(t, u, up, state, phase)
    requires PairOk(state, phase)
    ensures Refs(u) && Pieces(u) && Pairs(u)
  {
    hide PieceOk, WholeUpload, PairOk, Pieces, SameShape, Linked, RowsPlaced;
    PhaseSetShape(t, u, up, state, phase);
    ShapeRefs(t, u);
    PhaseSetPairs(t, u, up, state, phase);
  }

  // ---------------------------------------------------------------- publishing

  lemma ReadyPieceIsFullyValid(t: Tables, up: Id, c: Id, size: nat, chunkSize: nat, replicas: nat)
    requires Refs(t) && InUpload(t, up, c) && PieceReady(t, up, size, chunkSize, replicas, t.chunks[c].seqNo)
    requires |RowKeys(t, c)| == replicas
    ensures forall n :: !IsReserved(t, c, n)
  {
    var at := ChunkAt(t, up, t.chunks[c].seqNo);
    assert c in PiecesAt(t, up, t.chunks[c].seqNo);
    assert at.value in PiecesAt(t, up, t.chunks[c].seqNo);
    assert at.value == c;
    assert ValidRows(t, c) <= RowKeys(t, c);
    SubsetOfSameSize(ValidRows(t, c), RowKeys(t, c));
    assert forall n :: IsReserved(t, c, n) ==> Key(c, n) in ValidRows(t, c);
  }

  lemma SubsetOfSameSize<T>(a: set<T>, b: set<T>)
    requires a <= b && |b| <= |a|
    ensures a == b
  {
    assert b == a + (b - a);
    assert |b - a| == 0;
  }

  lemma PublishGood(t: Tables, now: Time, up: Id, owner: Id, u: Tables)
    requires Good(t) && Complete(t, now, up, owner) == Ok(u)
    ensures Good(u) && Advances(t, u)
    ensures PhaseOfUpload(u, up) == Some(Published)
  {
    hide Sound, Balanced, PieceReady, Advances, PairOk, ChunksOf;
    UploadPair(t, up);
    if t.uploads[up].state.Completed? && t.objects[t.uploads[up].oid].phase.Published? {
      PlainAdvance(t, u);
    } else {
      StagingPair(t.objects[t.uploads[up].oid].phase);
      BalancedRows(t);
      PublishSound(t, up, u);
      UntouchedBooks(t, u);
      PublishAdvances(t, up);
    }
  }

  lemma StagingPair(phase: Phase)
    ensures PairOk(Uploading, phase) ==> phase.Staging?
  {
  }

  lemma UploadPair(t: Tables, up: Id)
    requires Sound(t) && up in t.uploads
    ensures t.uploads[up].oid in t.objects && PairOk(t.uploads[up].state, t.objects[t.uploads[up].oid].phase)
  {
  }

  lemma PublishAdvances(t: Tables, up: Id)
    requires up in t.uploads && t.uploads[up].oid in t.objects && t.uploads[up].state.Uploading?
    ensures Advances(t, PublishObject(t, up))
  {
  }

  function PhaseOfUpload(t: Tables, up: Id): Option<Phase> {
    if up in t.uploads && t.uploads[up].oid in t.objects then Some(t.objects[t.uploads[up].oid].phase) else None
  }

  lemma PublishSound(t: Tables, up: Id, u: Tables)
    requires Sound(t) && up in t.uploads && t.objects[t.uploads[up].oid].phase.Staging? && u == PublishObject(t, up)
    requires var object_ := t.objects[t.uploads[up].oid];
             forall i: nat :: i < PieceCount(object_.size, object_.chunkSize)
               ==> PieceReady(t, up, object_.size, object_.chunkSize, object_.replicas, i)
    ensures Sound(u)
  {
    hide PieceOk, WholeUpload, PieceReady, PhaseOf, RowOk, TaskOk, CountOk, PairOk, Linked;
    PhaseSetPhases(t, u, up, Completed, Published);
    PublishedPair();
    PhaseSetRefs(t, u, up, Completed, Published);
    UploadPhase(t, up);
    forall k | k in u.replicas ensures RowOk(u, k) {
      PublishRow(t, u, k);
    }
    forall key | key in u.tasks ensures TaskOk(u, key) {
      PublishTask(t, u, key);
    }
    PublishCounts(t, up, u);
  }

  lemma PublishedPair()
    ensures PairOk(Completed, Published)
  {
  }

  lemma PublishCounts(t: Tables, up: Id, u: Tables)
    requires Refs(t) && Counts(t) && Pieces(t) && Refs(u) && up in t.uploads
    requires t.objects[t.uploads[up].oid].phase.Staging?
    requires u == PublishObject(t, up)
    requires var object_ := t.objects[t.uploads[up].oid];
             forall i: nat :: i < PieceCount(object_.size, object_.chunkSize)
               ==> PieceReady(t, up, object_.size, object_.chunkSize, object_.replicas, i)
    ensures Counts(u)
  {
    hide PieceReady, WholeUpload, PhaseOf, CountOk, PieceOk;
    PhaseSetPhases(t, u, up, Completed, Published);
    UploadPhase(t, up);
    forall c | c in u.chunks ensures CountOk(u, c) {
      assert CountOk(t, c) && PieceOk(t, c);
      if InUpload(t, up, c) {
        PublishCount(t, u, up, c);
      } else {
        OtherCount(t, u, c);
      }
    }
  }

  lemma UploadPhase(t: Tables, up: Id)
    requires Refs(t) && up in t.uploads
    ensures forall c :: InUpload(t, up, c) ==> Linked(t, c) && PhaseOf(t, c) == Some(t.objects[t.uploads[up].oid].phase)
  {
  }

  lemma PublishRow(t: Tables, u: Tables, k: Key)
    requires k in t.replicas && k in u.replicas && u.replicas[k] == t.replicas[k] && u.nodes == t.nodes
    requires u.tasks == t.tasks
    requires k.node in t.nodes && RowOk(t, k)
    requires PhaseOf(u, k.chunk) == PhaseOf(t, k.chunk) || PhaseOf(u, k.chunk) == Some(Published)
    ensures RowOk(u, k)
  {
    hide PhaseOf;
  }

  lemma PublishTask(t: Tables, u: Tables, key: TaskKey)
    requires key in t.tasks && u.tasks == t.tasks && TaskOk(t, key)
    requires PhaseOf(u, key.chunk) == PhaseOf(t, key.chunk) || PhaseOf(t, key.chunk) == Some(Staging)
    ensures TaskOk(u, key)
  {
    hide PhaseOf;
  }

  lemma OtherCount(t: Tables, u: Tables, c: Id)
    requires Linked(t, c) && Linked(u, c) && CountOk(t, c) && ObjectOf(u, c).replicas == ObjectOf(t, c).replicas
    requires PhaseOf(u, c) == PhaseOf(t, c)
    requires u.replicas.Keys == t.replicas.Keys
    requires forall k :: k in t.replicas && k.chunk == c ==>
                  (u.replicas[k].state.Reserved? ==> t.replicas[k].state.Reserved?)
    ensures CountOk(u, c)
  {
    hide PhaseOf;
    assert RowKeys(u, c) == RowKeys(t, c);
    assert forall n :: IsReserved(u, c, n) ==> IsReserved(t, c, n);
  }

  lemma PublishCount(t: Tables, u: Tables, up: Id, c: Id)
    requires Refs(t) && InUpload(t, up, c) && Linked(u, c) && CountOk(t, c) && PhaseOf(t, c) == Some(Staging)
    requires PieceOk(t, c) && PhaseOf(u, c) == Some(Published) && u.replicas == t.replicas
    requires var object_ := t.objects[t.uploads[up].oid];
             forall i: nat :: i < PieceCount(object_.size, object_.chunkSize)
               ==> PieceReady(t, up, object_.size, object_.chunkSize, object_.replicas, i)
    ensures CountOk(u, c)
  {
    hide PieceReady;
    var object_ := t.objects[t.uploads[up].oid];
    ReadyPieceIsFullyValid(t, up, c, object_.size, object_.chunkSize, object_.replicas);
    assert forall n :: IsReserved(u, c, n) ==> IsReserved(t, c, n);
  }

  // ---------------------------------------------------------------- retiring

  /** Which uploads may be retired, and as what: an open one either way, a completed one only by deleting its object. */
  predicate MayRetire(t: Tables, up: Id, state: UploadState) {
    && up in t.uploads && PairOk(state, Deleted)
    && (t.uploads[up].state.Uploading? || (t.uploads[up].state.Completed? && state.Cancelled?))
  }

  /** An object that is not deleted can be retired by its owner. */
  lemma UndeletedMayRetire(t: Tables, up: Id)
    requires Good(t) && up in t.uploads && t.uploads[up].oid in t.objects
    requires !t.objects[t.uploads[up].oid].phase.Deleted?
    ensures MayRetire(t, up, Cancelled)
  {
    hide Balanced, Rows, Tasks, Counts, Pieces;
    assert PairOk(t.uploads[up].state, t.objects[t.uploads[up].oid].phase);
  }

  lemma RetireGood(t: Tables, cfg: Config, now: Time, up: Id, state: UploadState)
    requires Good(t) && MayRetire(t, up, state)
    ensures Good(Retire(t, cfg, now, up, state)) && Advances(t, Retire(t, cfg, now, up, state))
    ensures PhaseOfUpload(Retire(t, cfg, now, up, state), up) == Some(Deleted)
  {
    hide Sound, Balanced, Advances, RetireRows, Linked;
    GoodRows(t);
    var rows, lease := RowsOf(t, up), now + cfg.CleanupDelay();
    var t1 := MarkDeleted(t, up, state);
    var t2 := RetireRows(t1, rows, lease);
    UploadKnown(t, up);
    UntouchedBooks(t, t1);
    RetireBalances(t1, rows, lease);
    TaskBooks(t2, KillRepairs(t2, up));
    RetireShape(t1, rows, lease);
    RetireSound(t, cfg, now, up, state);
    RetireAdvances(t, cfg, now, up, state);
  }

  lemma UploadKnown(t: Tables, up: Id)
    requires Sound(t) && up in t.uploads
    ensures t.uploads[up].oid in t.objects
  {
  }

  lemma RetireShape(t: Tables, rows: set<Key>, lease: Time)
    ensures var u := RetireRows(t, rows, lease);
            && u.objects == t.objects && u.uploads == t.uploads && u.chunks == t.chunks && u.retired == t.retired
            && u.replicas.Keys == t.replicas.Keys && u.nodes.Keys == t.nodes.Keys && t.tasks.Keys <= u.tasks.Keys
            && (forall n :: n in t.nodes ==> u.nodes[n].volume == t.nodes[n].volume)
            && (forall k :: k in t.replicas ==> u.replicas[k] == if k in rows then RetiredRow(t.replicas[k])
                else t.replicas[k])
  {
  }

  lemma RetireTasks(t: Tables, rows: set<Key>, lease: Time)
    ensures var u := RetireRows(t, rows, lease);
            && (forall k :: k in rows ==> Open(u, DeleteOf(k.chunk, k.node)))
            && (forall key :: key in t.tasks && !(key.DeleteOf? && Key(key.chunk, key.node) in rows) ==>
                u.tasks[key] == t.tasks[key])
            && (forall key :: key in u.tasks && key !in t.tasks ==> key.DeleteOf? && Key(key.chunk, key.node) in rows)
  {
    var u := RetireRows(t, rows, lease);
    forall k | k in rows ensures Open(u, DeleteOf(k.chunk, k.node)) {
      assert DeleteOf(k.chunk, k.node) in u.tasks;
      assert Key(k.chunk, k.node) == k;
    }
  }

  lemma RetireAdvances(t: Tables, cfg: Config, now: Time, up: Id, state: UploadState)
    requires MayRetire(t, up, state) && t.uploads[up].oid in t.objects
    ensures Advances(t, Retire(t, cfg, now, up, state))
  {
    hide RetireRows;
    var rows, lease := RowsOf(t, up), now + cfg.CleanupDelay();
    RetireShape(MarkDeleted(t, up, state), rows, lease);
  }

  lemma RetireSound(t: Tables, cfg: Config, now: Time, up: Id, state: UploadState)
    requires Sound(t) && up in t.uploads && PairOk(state, Deleted)
    ensures Sound(Retire(t, cfg, now, up, state))
  {
    hide PieceOk, WholeUpload, PhaseOf, RowOk, TaskOk, CountOk, RetireRows, RowsOf, Retire, PairOk;
    var u := Retire(t, cfg, now, up, state);
    RetiredTables(t, cfg, now, up, state);
    PhaseSetPhases(t, u, up, state, Deleted);
    PhaseSetRefs(t, u, up, state, Deleted);
    forall k | k in u.replicas ensures RowOk(u, k) {
      assert RowOk(t, k);
      RetireRowOk(t, cfg, now, up, state, k);
    }
    forall key | key in u.tasks ensures TaskOk(u, key) {
      assert key in t.tasks ==> TaskOk(t, key);
      RetireTaskOk(t, cfg, now, up, state, key);
    }
    forall c | c in u.chunks ensures CountOk(u, c) {
      assert CountOk(t, c);
      RetireCount(t, cfg, now, up, state, c);
    }
  }

  lemma RetiredTables(t: Tables, cfg: Config, now: Time, up: Id, state: UploadState)
    requires Sound(t) && up in t.uploads
    ensures PhaseSet(t, Retire(t, cfg, now, up, state), up, state, Deleted)
    ensures RowsPlaced(Retire(t, cfg, now, up, state))
  {
    hide RetireRows;
    RetireShape(MarkDeleted(t, up, state), RowsOf(t, up), now + cfg.CleanupDelay());
  }

  lemma RetireRowOk(t: Tables, cfg: Config, now: Time, up: Id, state: UploadState, k: Key)
    requires Sound(t) && up in t.uploads && k in t.replicas && RowOk(t, k)
    ensures var u := Retire(t, cfg, now, up, state); k in u.replicas && k.node in u.nodes && RowOk(u, k)
  {
    hide RetireRows, PhaseOf, PairOk, Pairs, Counts, Pieces, Tasks, Rows, RowOk, Open;
    var rows, lease, t1 := RowsOf(t, up), now + cfg.CleanupDelay(), MarkDeleted(t, up, state);
    var u := Retire(t, cfg, now, up, state);
    RetireShape(t1, rows, lease);
    RetireTasks(t1, rows, lease);
    PhaseSetPhases(t, u, up, state, Deleted);
    assert k in rows <==> InUpload(t, up, k.chunk);
    KilledOthers(RetireRows(t1, rows, lease), up, DeleteOf(k.chunk, k.node));
    if k in rows {
      GoneIsFree(t, k);
      RowRetired(t, u, k);
    } else {
      StillOpen(t, t1, rows, lease, k);
      RowStays(t, u, k);
    }
  }

  lemma GoneIsFree(t: Tables, k: Key)
    requires k in t.replicas && k.node in t.nodes && RowOk(t, k)
    ensures t.replicas[k].state.Gone? ==> t.replicas[k].charge.NoCharge?
  {
  }

  lemma KilledOthers(t: Tables, up: Id, key: TaskKey)
    requires key.DeleteOf?
    ensures Open(KillRepairs(t, up), key) == Open(t, key)
  {
  }

  lemma StillOpen(t: Tables, t1: Tables, rows: set<Key>, lease: Time, k: Key)
    requires t1.tasks == t.tasks && k !in rows
    ensures Open(t, DeleteOf(k.chunk, k.node)) ==> Open(RetireRows(t1, rows, lease), DeleteOf(k.chunk, k.node))
  {
    assert Key(k.chunk, k.node) == k;
  }

  lemma RowRetired(t: Tables, u: Tables, k: Key)
    requires k in t.replicas && k in u.replicas && k.node in u.nodes && u.replicas[k] == RetiredRow(t.replicas[k])
    requires PhaseOf(u, k.chunk) == Some(Deleted) && Open(u, DeleteOf(k.chunk, k.node))
    requires t.replicas[k].state.Gone? ==> t.replicas[k].charge.NoCharge?
    ensures RowOk(u, k)
  {
    hide PhaseOf, Open;
  }

  lemma RowStays(t: Tables, u: Tables, k: Key)
    requires k in t.replicas && k in u.replicas && k.node in t.nodes && k.node in u.nodes
    requires u.replicas[k] == t.replicas[k]
    requires PhaseOf(u, k.chunk) == PhaseOf(t, k.chunk) && u.nodes[k.node].volume == t.nodes[k.node].volume
    requires Open(t, DeleteOf(k.chunk, k.node)) ==> Open(u, DeleteOf(k.chunk, k.node))
    requires RowOk(t, k)
    ensures RowOk(u, k)
  {
    hide PhaseOf, Open;
  }

  lemma RetireTaskOk(t: Tables, cfg: Config, now: Time, up: Id, state: UploadState, key: TaskKey)
    requires Sound(t) && up in t.uploads && key in Retire(t, cfg, now, up, state).tasks
    requires key in t.tasks ==> TaskOk(t, key)
    ensures TaskOk(Retire(t, cfg, now, up, state), key)
  {
    hide RetireRows, PhaseOf, PairOk, Pairs, Counts, Pieces, Tasks, Rows, TaskOk, Open, RowsOf;
    var rows, lease, t1 := RowsOf(t, up), now + cfg.CleanupDelay(), MarkDeleted(t, up, state);
    var t2, u := RetireRows(t1, rows, lease), Retire(t, cfg, now, up, state);
    RetireShape(t1, rows, lease);
    RetireTasks(t1, rows, lease);
    PhaseSetPhases(t, u, up, state, Deleted);
    RowsOfUpload(t, up);
    if key.RepairOf? {
      RepairRetired(t, t2, u, up, key);
    } else {
      DeleteRetired(t, u, up, key);
    }
  }

  lemma RowsOfUpload(t: Tables, up: Id)
    ensures forall k :: k in RowsOf(t, up) ==> InUpload(t, up, k.chunk) && k in t.replicas
  {
  }

  lemma RepairRetired(t: Tables, t2: Tables, u: Tables, up: Id, key: TaskKey)
    requires key.RepairOf? && key in t.tasks && key in t2.tasks && t2.tasks[key] == t.tasks[key] && TaskOk(t, key)
    requires t2.chunks == t.chunks && u == KillRepairs(t2, up)
    requires PhaseOf(u, key.chunk) == if InUpload(t, up, key.chunk) then Some(Deleted) else PhaseOf(t, key.chunk)
    ensures TaskOk(u, key)
  {
    hide PhaseOf;
  }

  lemma DeleteRetired(t: Tables, u: Tables, up: Id, key: TaskKey)
    requires key.DeleteOf? && (key in t.tasks ==> TaskOk(t, key)) && (key !in t.tasks ==> InUpload(t, up, key.chunk))
    requires PhaseOf(u, key.chunk) == if InUpload(t, up, key.chunk) then Some(Deleted) else PhaseOf(t, key.chunk)
    ensures TaskOk(u, key)
  {
    hide PhaseOf;
  }

  lemma RetireCount(t: Tables, cfg: Config, now: Time, up: Id, state: UploadState, c: Id)
    requires Sound(t) && up in t.uploads && c in t.chunks && CountOk(t, c)
    ensures Linked(Retire(t, cfg, now, up, state), c) && CountOk(Retire(t, cfg, now, up, state), c)
  {
    hide RetireRows, PhaseOf, PairOk, PieceOk, WholeUpload, Counts, Pieces, Tasks, Rows;
    var rows, lease, t1 := RowsOf(t, up), now + cfg.CleanupDelay(), MarkDeleted(t, up, state);
    var u := Retire(t, cfg, now, up, state);
    RetireShape(t1, rows, lease);
    PhaseSetPhases(t, u, up, state, Deleted);
    if InUpload(t, up, c) {
      assert PhaseOf(u, c) == Some(Deleted);
    } else {
      OtherCount(t, u, c);
    }
  }
}
