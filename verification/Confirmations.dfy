/** What a confirmed chunk is good for: its digest is fixed, its reservations have become use exactly once, and an
    object is only ever published with all its chunks confirmed. */
module Confirmations {
  import opened Schema
  import opened Transactions
  import opened Accounting
  import opened Invariants
  import opened Preservation
  import opened Lifecycle
  import opened Creation
  import opened Moves
  import opened Protocol
  import opened Runs
  import opened Safety
  import opened Publication

  // ---------------------------------------------------------------- which steps write chunk rows

  /** The steps that may change a chunk row or publish an object. */
  predicate Writes(step: Step) {
    step.OnInit? || step.OnPrepare? || step.OnConfirmCommit? || step.OnComplete?
  }

  /** No chunk row changes and nothing is published. */
  ghost predicate SameChunks(t: Tables, u: Tables) {
    && u.chunks == t.chunks
    && (forall o :: o in u.objects
          ==> o in t.objects && (u.objects[o].phase.Published? ==> t.objects[o].phase.Published?))
  }

  lemma RetireChunks(t: Tables, cfg: Config, now: Time, up: Id, state: UploadState)
    requires up in t.uploads
    ensures SameChunks(t, Retire(t, cfg, now, up, state))
  {
  }

  lemma CancelChunks(t: Tables, cfg: Config, now: Time, up: Id, owner: Id, u: Tables)
    requires Cancel(t, cfg, now, up, owner) == Ok(u)
    ensures SameChunks(t, u)
  {
    hide Retire;
    if u != t {
      RetireChunks(t, cfg, now, up, Cancelled);
    }
  }

  lemma DeleteChunks(t: Tables, cfg: Config, now: Time, oid: Id, owner: Id, u: Tables)
    requires Delete(t, cfg, now, oid, owner) == Ok(u)
    ensures SameChunks(t, u)
  {
    hide Retire, UploadOf;
    UploadOfIsOne(t, oid);
    if u != t {
      RetireChunks(t, cfg, now, UploadOf(t, oid).value, Cancelled);
    }
  }

  lemma {:induction false} ReserveChunks(t: Tables, cfg: Config, now: Time, c: Id, length: int, count: nat,
                                         excluded: set<Id>, order: seq<Id>)
    ensures var r := Reserve(t, cfg, now, c, length, count, excluded, order);
            r.Ok? ==> r.value.0.chunks == t.chunks && r.value.0.objects == t.objects && r.value.0.uploads == t.uploads
    decreases |order|
  {
    hide Eligible;
    if count > 0 && order != [] {
      ReserveChunks(t, cfg, now, c, length, count, excluded, order[1..]);
      if order[0] in t.nodes {
        ReserveChunks(Place(t, c, order[0], length), cfg, now, c, length, count - 1, excluded, order[1..]);
      }
    }
  }

  lemma RepairBeginChunks(cfg: Config, s: State, token: Id, pending: Option<Id>, order: seq<Id>, u: State)
    requires RepairBeginStep(cfg, s, token, pending, order) == Some(u)
    ensures SameChunks(s.db, u.db)
  {
    hide HealthyNodes, Reserve, PhaseOf;
    var c := s.jobs[token].chunk;
    if c in s.db.chunks {
      ReserveChunks(s.db, cfg, s.now, c, s.db.chunks[c].length, 1, Occupied(s.db, c), order);
    }
  }

  lemma RepairCommitChunks(t: Tables, cfg: Config, now: Time, token: Id, snap: RepairSnap, u: Tables)
    requires RepairCommit(t, cfg, now, token, snap) == Ok(u)
    ensures SameChunks(t, u)
  {
    hide HealthyNodes;
  }

  lemma DeleteCommitChunks(t: Tables, now: Time, c: Id, n: Id, token: Id, snap: DeleteSnap, u: Tables)
    requires DeleteCommit(t, now, c, n, token, snap) == Ok(u)
    ensures SameChunks(t, u)
  {
  }

  lemma SettleRowChunks(t: Tables, n: Id, volume: Id, instance: Id, c: Id, length: int, valid: bool)
    ensures SameChunks(t, SettleRow(t, n, volume, instance, c, length, valid))
  {
  }

  lemma DeleteBeginChunks(cfg: Config, s: State, token: Id, u: State)
    requires DeleteBeginStep(cfg, s, token) == Some(u)
    ensures SameChunks(s.db, u.db)
  {
    hide Protected;
  }

  lemma BadReplicaChunks(t: Tables, oid: Id, owner: Id, c: Id, n: Id, u: Tables)
    requires BadReplica(t, oid, owner, c, n) == Ok(u)
    ensures SameChunks(t, u)
  {
  }

  lemma SettleListedChunks(t: Tables, cfg: Config, now: Time, n: Id, volume: Id, c: Id)
    ensures SameChunks(t, SettleListed(t, cfg, now, n, volume, c))
  {
    hide HealthyNodes, PhaseOf;
  }

  lemma StepChunks(cfg: Config, s: State, step: Step, u: State)
    requires cfg.Valid() && Next(cfg, s, step) == Some(u) && !Writes(step)
    ensures SameChunks(s.db, u.db)
  {
    hide InitStep, PrepareStep, RepairBeginStep, Retire, Cancel, Delete, SettleRow, DeleteCommit, RepairCommit,
      ConfirmBegin, HealthyNodes, PhaseOf, Complete, ConfirmCommit, AgedHealth, MovedRow, Positions, DeleteBeginStep,
      BadReplica, SettleListed, NeedsRepair;
    match step
    case OnBadReplica(oid, owner, c, n) => BadReplicaChunks(s.db, oid, owner, c, n, u.db);
    case OnSettleListed(scan, c) => SettleListedChunks(s.db, cfg, s.now, scan.node, scan.volume, c);
    case OnDeleteBegin(token) => DeleteBeginChunks(cfg, s, token, u);
    case OnCancel(up, owner) => CancelChunks(s.db, cfg, s.now, up, owner, u.db);
    case OnDelete(oid, owner) => DeleteChunks(s.db, cfg, s.now, oid, owner, u.db);
    case OnExpire(up) => RetireChunks(s.db, cfg, s.now, up, Expired);
    case OnSettleRow(check, valid) =>
      SettleRowChunks(s.db, check.scan.node, check.scan.volume, check.scan.instance, check.chunk, check.length, valid);
    case OnDeleteCommit(r) => DeleteCommitChunks(s.db, s.now, r.chunk, r.node, r.token, r.snap, u.db);
    case OnRepairBegin(token, pending, order) => RepairBeginChunks(cfg, s, token, pending, order, u);
    case OnRepairCommit(copy) => RepairCommitChunks(s.db, cfg, s.now, copy.token, copy.snap, u.db);
    case _ =>
  }

  // ---------------------------------------------------------------- confirmed means fixed

  /** The digest a chunk was first prepared with. */
  predicate FixedTo(t: Tables, c: Id, digest: Digest) {
    c in t.chunks && t.chunks[c].digest == Some(digest)
  }

  /** A confirmed chunk has its digest. */
  ghost predicate ConfirmedFixed(t: Tables) {
    forall c :: c in t.chunks && t.chunks[c].state.ConfirmedChunk? ==> t.chunks[c].digest.Some?
  }

  /** A published object's chunks are all confirmed. */
  ghost predicate PublishedConfirmed(t: Tables) {
    forall c :: c in t.chunks && PhaseOf(t, c) == Some(Published) ==> t.chunks[c].state.ConfirmedChunk?
  }

  lemma SameChunksKeep(t: Tables, u: Tables)
    requires ConfirmedFixed(t) && PublishedConfirmed(t) && SameChunks(t, u) && Grows(t, u) && Good(t) && Good(u)
    ensures ConfirmedFixed(u) && PublishedConfirmed(u)
  {
    hide Good, Grows;
    GoodLinks(t);
    GoodLinks(u);
    forall c | c in u.chunks && PhaseOf(u, c) == Some(Published) ensures u.chunks[c].state.ConfirmedChunk? {
      LinkKept(t, u, c);
      assert PhaseOf(t, c) == Some(Published);
    }
  }

  lemma GoodLinks(t: Tables)
    requires Good(t)
    ensures forall c :: c in t.chunks ==> Linked(t, c)
  {
  }

  /** What creating an object adds are pending chunks of its upload. */
  ghost predicate AddsPending(t: Tables, u: Tables, up: Id) {
    forall c :: c in u.chunks ==>
      (c in t.chunks && u.chunks[c] == t.chunks[c])
      || (u.chunks[c].upload == up && u.chunks[c].digest.None? && u.chunks[c].state.PendingChunk?)
  }

  lemma {:induction false} PlaceChunksPending(t: Tables, cfg: Config, now: Time, up: Id, size: nat, first: nat,
                                              cids: seq<Id>, orders: seq<seq<Id>>)
    requires |orders| == |cids| && (cids == [] || (first + |cids| - 1) * cfg.chunk < size)
    ensures var r := PlaceChunks(t, cfg, now, up, size, first, cids, orders); r.Ok? ==> AddsPending(t, r.value, up)
    decreases |cids|
  {
    hide Reserve;
    if cids != [] {
      assert first * cfg.chunk <= (first + |cids| - 1) * cfg.chunk;
      var length := PieceLength(size, cfg.chunk, first);
      var t1 := t.(chunks := t.chunks[cids[0] := Chunk(up, first, length, None, PendingChunk)]);
      ReserveChunks(t1, cfg, now, cids[0], length, cfg.replicas, {}, orders[0]);
      var placed := Reserve(t1, cfg, now, cids[0], length, cfg.replicas, {}, orders[0]);
      if placed.Ok? {
        PlaceChunksPending(placed.value.0, cfg, now, up, size, first + 1, cids[1..], orders[1..]);
      }
    }
  }

  lemma InitPending(t: Tables, cfg: Config, now: Time, owner: Id, size: nat, oid: Id, up: Id, cids: seq<Id>,
                    orders: seq<seq<Id>>, u: Tables)
    requires cfg.Valid() && (size <= cfg.chunk * cfg.maxChunks ==> |cids| == |orders| == PieceCount(size, cfg.chunk))
    requires Init(t, cfg, now, owner, size, oid, up, cids, orders) == Ok(u)
    ensures AddsPending(t, u, up)
  {
    hide PlaceChunks;
    LastPieceStarts(size, cfg.chunk);
    PlaceChunksPending(NewObject(t, cfg, now, owner, size, oid, up), cfg, now, up, size, 0, cids, orders);
  }

  lemma AddedKeep(t: Tables, u: Tables, oid: Id, up: Id, cids: seq<Id>)
    requires Good(t) && Good(u) && ConfirmedFixed(t) && PublishedConfirmed(t)
    requires OnlyAdds(t, u, oid, up, cids) && AddsPending(t, u, up) && oid !in t.objects && up !in t.uploads
    requires up in u.uploads && u.uploads[up].oid == oid && oid in u.objects && u.objects[oid].phase.Staging?
    ensures ConfirmedFixed(u) && PublishedConfirmed(u)
  {
    hide Good;
    GoodLinks(t);
    GoodLinks(u);
  }

  lemma InitStepFixes(cfg: Config, s: State, step: Step, u: State)
    requires cfg.Valid() && Inv(cfg, s) && step.OnInit? && Next(cfg, s, step) == Some(u)
    requires ConfirmedFixed(s.db) && PublishedConfirmed(s.db)
    ensures ConfirmedFixed(u.db) && PublishedConfirmed(u.db)
  {
    hide Good, Init, Advances, OnlyAdds, AddsPending, ConfirmedFixed, PublishedConfirmed;
    InitFresh(s, step.oid, step.up, step.cids);
    InitGood(s.db, cfg, s.now, step.owner, step.size, step.oid, step.up, step.cids, step.orders, u.db);
    InitPending(s.db, cfg, s.now, step.owner, step.size, step.oid, step.up, step.cids, step.orders, u.db);
    AddedKeep(s.db, u.db, step.oid, step.up, step.cids);
  }

  /** One chunk row changes its digest or its state, and no object its phase. */
  ghost predicate OneChunkWritten(t: Tables, u: Tables, c: Id, row: Chunk) {
    u.chunks == (if c in t.chunks then t.chunks[c := row] else t.chunks) && u.objects == t.objects
        && u.uploads == t.uploads
  }

  lemma WrittenKeep(t: Tables, u: Tables, c: Id, row: Chunk)
    requires Good(t) && Good(u) && ConfirmedFixed(t) && PublishedConfirmed(t) && OneChunkWritten(t, u, c, row)
    requires c in t.chunks ==> ChunkEdge(t.chunks[c], row) && (row.state.ConfirmedChunk? ==> row.digest.Some?)
    ensures ConfirmedFixed(u) && PublishedConfirmed(u)
  {
    hide Good;
    GoodLinks(t);
    GoodLinks(u);
  }

  lemma PrepareWrites(t: Tables, cfg: Config, now: Time, up: Id, owner: Id, seqNo: nat, digest: Digest,
                      out: (Tables, Id, seq<Ticket>))
    requires Prepare(t, cfg, now, up, owner, seqNo, digest) == Ok(out)
    ensures out.1 in t.chunks && OneChunkWritten(t, out.0, out.1, t.chunks[out.1].(digest := Some(digest)))
    ensures t.chunks[out.1].digest.Some? ==> t.chunks[out.1].digest == Some(digest)
  {
    hide Positions;
  }

  lemma ConfirmWrites(t: Tables, cfg: Config, now: Time, snap: ConfirmSnap, u: Tables)
    requires ConfirmCommit(t, cfg, now, snap) == Ok(u) && snap.chunk in t.chunks
    ensures OneChunkWritten(t, u, snap.chunk, t.chunks[snap.chunk].(state := ConfirmedChunk))
  {
    hide Positions;
  }

  lemma PrepareFixes(cfg: Config, s: State, step: Step, u: State)
    requires cfg.Valid() && Inv(cfg, s) && Inv(cfg, u) && step.OnPrepare? && Next(cfg, s, step) == Some(u)
    requires ConfirmedFixed(s.db) && PublishedConfirmed(s.db)
    ensures ConfirmedFixed(u.db) && PublishedConfirmed(u.db)
  {
    hide Inv, Good, Prepare, ConfirmedFixed, PublishedConfirmed, OneChunkWritten;
    InvGood(cfg, s);
    InvGood(cfg, u);
    var out := Prepare(s.db, cfg, s.now, step.up, step.owner, step.seqNo, step.digest).value;
    PrepareWrites(s.db, cfg, s.now, step.up, step.owner, step.seqNo, step.digest, out);
    WrittenKeep(s.db, u.db, out.1, s.db.chunks[out.1].(digest := Some(step.digest)));
  }

  lemma ConfirmFixes(cfg: Config, s: State, step: Step, u: State)
    requires cfg.Valid() && Inv(cfg, s) && Inv(cfg, u) && step.OnConfirmCommit? && Next(cfg, s, step) == Some(u)
    requires ConfirmedFixed(s.db) && PublishedConfirmed(s.db)
    ensures ConfirmedFixed(u.db) && PublishedConfirmed(u.db)
  {
    hide Inv, Good, ConfirmCommit, ConfirmedFixed, PublishedConfirmed, OneChunkWritten, Linked;
    InvGood(cfg, s);
    InvGood(cfg, u);
    InvSnaps(cfg, s);
    var snap := step.confirm;
    assert ConfirmSnapFits(s.db, snap);
    LinkedChunk(s.db, snap.chunk);
    ConfirmWrites(s.db, cfg, s.now, snap, u.db);
    WrittenKeep(s.db, u.db, snap.chunk, s.db.chunks[snap.chunk].(state := ConfirmedChunk));
  }

  /** Completing an upload checks every piece, so what it publishes is confirmed. */
  lemma CompleteFixes(cfg: Config, s: State, step: Step, u: State)
    requires cfg.Valid() && Inv(cfg, s) && Inv(cfg, u) && step.OnComplete? && Next(cfg, s, step) == Some(u)
    requires ConfirmedFixed(s.db) && PublishedConfirmed(s.db)
    ensures ConfirmedFixed(u.db) && PublishedConfirmed(u.db)
  {
    hide Inv, Good, Complete, ConfirmedFixed, PublishedConfirmed;
    InvGood(cfg, s);
    CompletedPieces(s.db, s.now, step.up, step.owner, u.db);
  }

  lemma CompletedPieces(t: Tables, now: Time, up: Id, owner: Id, u: Tables)
    requires Good(t) && ConfirmedFixed(t) && PublishedConfirmed(t) && Complete(t, now, up, owner) == Ok(u)
    ensures ConfirmedFixed(u) && PublishedConfirmed(u)
  {
    PublishedExactlyWhenWhole(t, now, up, owner);
    OneUploadEach(t);
    hide Good, PieceReady, ValidRows;
    if u != t {
      forall c | c in u.chunks && PhaseOf(u, c) == Some(Published) ensures u.chunks[c].state.ConfirmedChunk? {
        if t.chunks[c].upload == up {
          assert c in ChunksOf(t, up);
        } else {
          assert PhaseOf(t, c) == Some(Published);
        }
      }
    }
  }

  lemma OneUploadEach(t: Tables)
    requires Good(t)
    ensures forall x, y :: x in t.uploads && y in t.uploads && t.uploads[x].oid == t.uploads[y].oid ==> x == y
    ensures forall up :: up in t.uploads ==> PairOk(t.uploads[up].state, t.objects[t.uploads[up].oid].phase)
  {
  }

  /** Every step keeps it so that a confirmed chunk has its digest and a published object has only confirmed chunks. */
  lemma StepFixes(cfg: Config, s: State, step: Step, u: State)
    requires cfg.Valid() && Inv(cfg, s) && Next(cfg, s, step) == Some(u)
    requires ConfirmedFixed(s.db) && PublishedConfirmed(s.db)
    ensures ConfirmedFixed(u.db) && PublishedConfirmed(u.db)
  {
    hide Inv, Next, Good, SameChunks, ConfirmedFixed, PublishedConfirmed, Grows, RowMoves, SameFleet;
    StepKeeps(cfg, s, step, u);
    InvGood(cfg, s);
    InvGood(cfg, u);
    if !Writes(step) {
      StepChunks(cfg, s, step, u);
      SameChunksKeep(s.db, u.db);
    } else if step.OnInit? {
      InitStepFixes(cfg, s, step, u);
    } else if step.OnPrepare? {
      PrepareFixes(cfg, s, step, u);
    } else if step.OnConfirmCommit? {
      ConfirmFixes(cfg, s, step, u);
    } else {
      CompleteFixes(cfg, s, step, u);
    }
  }

  lemma {:induction false} RunFixes(cfg: Config, s: State, steps: seq<Step>, u: State)
    requires cfg.Valid() && Inv(cfg, s) && Run(cfg, s, steps) == Some(u)
    requires ConfirmedFixed(s.db) && PublishedConfirmed(s.db)
    ensures ConfirmedFixed(u.db) && PublishedConfirmed(u.db)
    decreases |steps|
  {
    hide Inv, Next, ConfirmedFixed, PublishedConfirmed, Grows, RowMoves, SameFleet;
    if steps != [] {
      var after := Next(cfg, s, steps[0]).value;
      StepKeeps(cfg, s, steps[0], after);
      StepFixes(cfg, s, steps[0], after);
      RunFixes(cfg, after, steps[1..], u);
    }
  }

  /** In every reachable state a confirmed chunk has its digest, and every chunk of a published object is confirmed. */
  lemma PublishedIsConfirmed(cfg: Config, s: State, c: Id)
    requires cfg.Valid() && Reachable(cfg, s) && c in s.db.chunks
    ensures s.db.chunks[c].state.ConfirmedChunk? ==> s.db.chunks[c].digest.Some?
    ensures PhaseOf(s.db, c) == Some(Published) ==> s.db.chunks[c].state.ConfirmedChunk?
  {
    hide Inv, Run, PhaseOf;
    var steps :| Run(cfg, START, steps) == Some(s);
    StartHolds(cfg);
    RunFixes(cfg, START, steps, s);
  }

  // ---------------------------------------------------------------- confirming twice

  /** While an object is staging, a reservation that was converted, or lost its node, never becomes one again. */
  lemma {:induction false} NeverReservedAgain(cfg: Config, s: State, steps: seq<Step>, u: State, k: Key)
    requires cfg.Valid() && Inv(cfg, s) && Run(cfg, s, steps) == Some(u)
    requires k in s.db.replicas && !s.db.replicas[k].state.Reserved? && Linked(s.db, k.chunk)
    requires PhaseOf(u.db, k.chunk) == Some(Staging)
    ensures k in u.db.replicas && !u.db.replicas[k].state.Reserved?
    decreases |steps|
  {
    hide Inv, Next, Grows, SameFleet, PhaseOf, Linked;
    if steps != [] {
      var after := Next(cfg, s, steps[0]).value;
      StepKeeps(cfg, s, steps[0], after);
      RunGrows(cfg, after, steps[1..], u);
      GrowsOn(s.db, after.db, u.db);
      LinkKept(s.db, after.db, k.chunk);
      StagingEarlier(s.db, u.db, k.chunk);
      StagingNotGone(cfg, s, k);
      GrownRow(s.db, after.db, k);
      NeverReservedAgain(cfg, after, steps[1..], u, k);
    }
  }

  lemma GrownRow(t: Tables, u: Tables, k: Key)
    requires Grows(t, u) && k in t.replicas
    ensures k in u.replicas
  {
  }

  lemma StagingEarlier(t: Tables, u: Tables, c: Id)
    requires Grows(t, u) && Linked(t, c) && PhaseOf(u, c) == Some(Staging)
    ensures PhaseOf(t, c) == Some(Staging)
  {
    hide Grows;
    LinkKept(t, u, c);
  }

  /** A staging chunk has exactly its replicas, so it never gains one. */
  lemma StagingRowsStay(t: Tables, u: Tables, c: Id, n: Id)
    requires Good(t) && Good(u) && Grows(t, u) && Linked(t, c) && PhaseOf(u, c) == Some(Staging)
    requires Key(c, n) in u.replicas
    ensures Key(c, n) in t.replicas
  {
    hide Good, Linked, PhaseOf;
    StagingEarlier(t, u, c);
    LinkKept(t, u, c);
    StagingCount(t, c);
    StagingCount(u, c);
    assert RowKeys(t, c) <= RowKeys(u, c);
    SubsetOfSameSize(RowKeys(t, c), RowKeys(u, c));
    assert Key(c, n) in RowKeys(u, c);
  }

  lemma StagingCount(t: Tables, c: Id)
    requires Good(t) && Linked(t, c) && PhaseOf(t, c) == Some(Staging)
    ensures |RowKeys(t, c)| == ObjectOf(t, c).replicas
  {
    hide Balanced, Pairs, Rows, Tasks, Pieces, RowKeys, PhaseOf;
    assert CountOk(t, c);
  }

  /** If as many nodes are assigned as there are rows, every row's node is assigned. */
  lemma AssignedIsAll(t: Tables, c: Id, n: Id)
    requires |Assigned(t, c)| == |RowKeys(t, c)| && Key(c, n) in t.replicas
    ensures n in Assigned(t, c)
  {
    var all := set m | m in Assigned(t, c) :: Key(c, m);
    KeysOf(c, Assigned(t, c));
    assert all <= RowKeys(t, c);
    SubsetOfSameSize(all, RowKeys(t, c));
    assert Key(c, n) in RowKeys(t, c);
  }

  lemma {:induction false} KeysOf(c: Id, nodes: set<Id>)
    ensures |set m | m in nodes :: Key(c, m)| == |nodes|
    decreases |nodes|
  {
    var keys := set m | m in nodes :: Key(c, m);
    if nodes != {} {
      var n :| n in nodes;
      KeysOf(c, nodes - {n});
      assert keys == (set m | m in nodes - {n} :: Key(c, m)) + {Key(c, n)};
    }
  }

  /** Only beginning a confirmation brings a new snapshot. */
  lemma ConfirmsBegun(cfg: Config, s: State, step: Step, u: State)
    requires cfg.Valid() && Next(cfg, s, step) == Some(u)
    ensures forall snap :: snap in u.confirms ==>
              (snap in s.confirms
               || (step.OnConfirmBegin?
                   && ConfirmBegin(s.db, cfg, s.now, step.up, step.asking, step.seqNo) == Ok(snap)))
  {
    hide Init, Prepare, ConfirmBegin, RepairBegin, DeleteBegin, Retire, Linked, PhaseOf, HealthyNodes, Complete,
      Cancel, Delete, BadReplica, ConfirmCommit, Heartbeat, GradeNodes, Enqueue, SettleRow, SettleListed, GiveBack,
      DeleteCommit, RepairCommit, NeedsRepair;
  }

  lemma StagingNotGone(cfg: Config, s: State, k: Key)
    requires Inv(cfg, s) && k in s.db.replicas && PhaseOf(s.db, k.chunk) == Some(Staging)
    ensures !Doomed(s.db.replicas[k].state)
  {
    hide Balanced, Known, Held, SnapsFit, TicketsWait, TargetsHeld, MarksHeld, Registered, PhaseOf;
    GoodRows(s.db);
    assert RowOk(s.db, k);
  }

  predicate Moved(t: Tables, u: Tables, k: Key) {
    k in t.replicas && k in u.replicas && u.replicas[k] != t.replicas[k]
  }

  /** A confirmation moves only reserved rows of its chunk, and with each of them exactly the chunk's length on its
      node. */
  ghost predicate OnlyConverts(t: Tables, u: Tables, c: Id) {
    && u.replicas.Keys == t.replicas.Keys && u.nodes.Keys == t.nodes.Keys && c in t.chunks
    && (forall k :: Moved(t, u, k) ==>
          k.chunk == c && t.replicas[k].state.Reserved?
              && u.replicas[k] == t.replicas[k].(state := Valid, charge := UsedCharge))
    && (forall n :: n in t.nodes ==>
          u.nodes[n] == if Moved(t, u, Key(c, n))
                        then t.nodes[n].(reserved := t.nodes[n].reserved - t.chunks[c].length,
                                         used := t.nodes[n].used + t.chunks[c].length)
                        else t.nodes[n])
  }

  lemma CommitOnlyConverts(t: Tables, cfg: Config, now: Time, snap: ConfirmSnap, u: Tables)
    requires ConfirmCommit(t, cfg, now, snap) == Ok(u) && ConfirmSnapFits(t, snap)
    ensures OnlyConverts(t, u, snap.chunk)
  {
    hide Positions, TicketNodes;
  }

  lemma CommitIsStaging(t: Tables, cfg: Config, now: Time, snap: ConfirmSnap, u: Tables)
    requires Good(t) && ConfirmCommit(t, cfg, now, snap) == Ok(u) && ConfirmSnapFits(t, snap)
    ensures PhaseOf(t, snap.chunk) == Some(Staging)
  {
    OneUploadEach(t);
    hide Good, Positions, TicketNodes, ConvertRows;
  }

  /** A second confirmation of a chunk, from any snapshot of it and after anything that may have happened in between,
      moves rows and figures only for replicas that are still reserved, each by the chunk's length; a replica that
      was no longer reserved after the first one is left alone. */
  lemma ConfirmingAgainConvertsNothing(cfg: Config, s: State, first: ConfirmSnap, u: State, steps: seq<Step>, v: State,
                                       second: ConfirmSnap, w: State)
    requires cfg.Valid() && Reachable(cfg, s) && Next(cfg, s, OnConfirmCommit(first)) == Some(u)
    requires Run(cfg, u, steps) == Some(v)
    requires Next(cfg, v, OnConfirmCommit(second)) == Some(w) && second.chunk == first.chunk
    ensures OnlyConverts(v.db, w.db, first.chunk)
    ensures forall k :: k in u.db.replicas && k.chunk == first.chunk && !u.db.replicas[k].state.Reserved?
              ==> k in v.db.replicas && !Moved(v.db, w.db, k)
  {
    hide Inv, Good, Run, ConfirmCommit, ConfirmSnapFits, OnlyConverts, PhaseOf, Grows, RowMoves, SameFleet;
    ReachableHolds(cfg, s);
    StepKeeps(cfg, s, OnConfirmCommit(first), u);
    RunKeeps(cfg, u, steps, v);
    RunGrows(cfg, u, steps, v);
    InvGood(cfg, v);
    InvSnaps(cfg, v);
    InvGood(cfg, u);
    InvSnaps(cfg, s);
    FitLinked(s.db, first);
    LinkKept(s.db, u.db, first.chunk);
    CommitOnlyConverts(v.db, cfg, v.now, second, w.db);
    CommitIsStaging(v.db, cfg, v.now, second, w.db);
    forall k | k in u.db.replicas && k.chunk == first.chunk && !u.db.replicas[k].state.Reserved?
      ensures k in v.db.replicas && !Moved(v.db, w.db, k)
    {
      NeverReservedAgain(cfg, u, steps, v, k);
      OnlyReservedMoves(v.db, w.db, first.chunk, k);
    }
  }

  lemma OnlyReservedMoves(t: Tables, u: Tables, c: Id, k: Key)
    requires OnlyConverts(t, u, c) && k in t.replicas && !t.replicas[k].state.Reserved?
    ensures !Moved(t, u, k)
  {
  }

  lemma FitLinked(t: Tables, snap: ConfirmSnap)
    requires ConfirmSnapFits(t, snap)
    ensures Linked(t, snap.chunk)
  {
  }
}
