/** A removal that found no row to mark can strand a reservation that a repair made in the meantime: how it happens,
    that it lasts, and when it cannot happen. */
module Stranding {
  import opened Schema
  import opened Transactions
  import opened Accounting
  import opened Invariants
  import opened Preservation
  import opened Lifecycle
  import opened Creation
  import opened Moves
  import opened Protocol
  import opened Runs
  import opened Safety
  import opened Confirmations

  /** A replica row that is reserved without being charged for it. */
  predicate Stranded(t: Tables, c: Id, n: Id) {
    IsReserved(t, c, n) && t.replicas[Key(c, n)].charge.NoCharge?
  }

  // ---------------------------------------------------------------- it lasts

  lemma RetireKeepsStranded(t: Tables, cfg: Config, now: Time, up: Id, state: UploadState, c: Id, n: Id)
    requires Good(t) && MayRetire(t, up, state) && Stranded(t, c, n) && Linked(t, c)
    requires PhaseOf(Retire(t, cfg, now, up, state), c) == Some(Published)
    ensures Stranded(Retire(t, cfg, now, up, state), c, n)
  {
    hide Good, Balanced, RetireRows;
    var t1 := MarkDeleted(t, up, state);
    RetireShape(t1, RowsOf(t, up), now + cfg.CleanupDelay());
    if Key(c, n) in RowsOf(t, up) {
      RetireGood(t, cfg, now, up, state);
    }
  }

  lemma CancelKeepsStranded(t: Tables, cfg: Config, now: Time, up: Id, owner: Id, u: Tables, c: Id, n: Id)
    requires Good(t) && Cancel(t, cfg, now, up, owner) == Ok(u) && Stranded(t, c, n) && Linked(t, c)
    requires PhaseOf(u, c) == Some(Published)
    ensures Stranded(u, c, n)
  {
    hide Good, Retire, PhaseOf;
    if u != t {
      RetireKeepsStranded(t, cfg, now, up, Cancelled, c, n);
    }
  }

  lemma DeleteKeepsStranded(t: Tables, cfg: Config, now: Time, oid: Id, owner: Id, u: Tables, c: Id, n: Id)
    requires Good(t) && Delete(t, cfg, now, oid, owner) == Ok(u) && Stranded(t, c, n) && Linked(t, c)
    requires PhaseOf(u, c) == Some(Published)
    ensures Stranded(u, c, n)
  {
    hide Good, Retire, UploadOf, PhaseOf;
    UploadOfIsOne(t, oid);
    if u != t {
      UndeletedMayRetire(t, UploadOf(t, oid).value);
      RetireKeepsStranded(t, cfg, now, UploadOf(t, oid).value, Cancelled, c, n);
    }
  }

  lemma InitKeepsStranded(cfg: Config, s: State, step: Step, u: State, c: Id, n: Id)
    requires cfg.Valid() && Inv(cfg, s) && step.OnInit? && Next(cfg, s, step) == Some(u) && Stranded(s.db, c, n)
    ensures Stranded(u.db, c, n)
  {
    hide Good, Init, Advances, Held, SnapsFit, TicketsWait, TargetsHeld, MarksHeld, Registered;
    InitFresh(s, step.oid, step.up, step.cids);
    InitGood(s.db, cfg, s.now, step.owner, step.size, step.oid, step.up, step.cids, step.orders, u.db);
  }

  lemma ConfirmKeepsStranded(t: Tables, cfg: Config, now: Time, snap: ConfirmSnap, u: Tables, c: Id, n: Id)
    requires Good(t) && ConfirmCommit(t, cfg, now, snap) == Ok(u) && ConfirmSnapFits(t, snap)
    requires Stranded(t, c, n) && PhaseOf(t, c) == Some(Published)
    ensures Stranded(u, c, n)
  {
    hide Good, ConfirmCommit, ConfirmSnapFits, PhaseOf;
    CommitIsStaging(t, cfg, now, snap, u);
    CommitOnlyConverts(t, cfg, now, snap, u);
    assert !Moved(t, u, Key(c, n));
  }

  lemma SettleKeepsStranded(t: Tables, node: Id, volume: Id, instance: Id, chunk: Id, length: int, valid: bool, c: Id,
                            n: Id)
    requires Stranded(t, c, n)
    ensures Stranded(SettleRow(t, node, volume, instance, chunk, length, valid), c, n)
  {
  }

  lemma DeleteBeginKeepsStranded(cfg: Config, s: State, token: Id, u: State, c: Id, n: Id)
    requires DeleteBeginStep(cfg, s, token) == Some(u) && Stranded(s.db, c, n) && PhaseOf(s.db, c) == Some(Published)
    ensures Stranded(u.db, c, n)
  {
    hide HealthyNodes;
  }

  lemma DeleteCommitKeepsStranded(t: Tables, now: Time, chunk: Id, node: Id, token: Id, snap: DeleteSnap, u: Tables,
                                  c: Id, n: Id)
    requires DeleteCommit(t, now, chunk, node, token, snap) == Ok(u) && Stranded(t, c, n)
    ensures Stranded(u, c, n)
  {
    hide Uncharge;
    if snap.length.Some? {
      UnchargeShape(t, Key(chunk, node), snap.length.value);
    }
  }

  lemma RepairBeginKeepsStranded(cfg: Config, s: State, token: Id, pending: Option<Id>, order: seq<Id>, u: State,
                                 c: Id, n: Id)
    requires RepairBeginStep(cfg, s, token, pending, order) == Some(u) && Stranded(s.db, c, n) && n in s.db.nodes
    ensures Stranded(u.db, c, n)
  {
    hide HealthyNodes, Reserve, PhaseOf, Eligible, Live;
    var chunk := s.jobs[token].chunk;
    if chunk == c {
      assert n in ReservedNodes(s.db, c);
    } else if chunk in s.db.chunks {
      ReserveOne(s.db, cfg, s.now, chunk, s.db.chunks[chunk].length, Occupied(s.db, chunk), order);
    }
  }

  /** A commit needs a charged reservation, and there is at most one reservation of the chunk. */
  lemma StrandedRefusesCommit(t: Tables, cfg: Config, now: Time, token: Id, snap: RepairSnap, c: Id, n: Id)
    requires Good(t) && Stranded(t, c, n) && PhaseOf(t, c) == Some(Published) && snap.chunk == c
    ensures RepairCommit(t, cfg, now, token, snap).Fail?
  {
    hide Good, HealthyNodes, Uncharge, Enqueue, PhaseOf;
    PublishedReservations(t, c);
    if IsReserved(t, c, snap.target) {
      assert snap.target == n;
    }
  }

  lemma RepairCommitKeepsStranded(t: Tables, cfg: Config, now: Time, token: Id, snap: RepairSnap, u: Tables, c: Id,
                                  n: Id)
    requires Good(t) && Stranded(t, c, n) && PhaseOf(t, c) == Some(Published)
    requires RepairCommit(t, cfg, now, token, snap) == Ok(u)
    ensures Stranded(u, c, n)
  {
    hide Good, HealthyNodes, Uncharge, PhaseOf;
    if snap.chunk == c {
      StrandedRefusesCommit(t, cfg, now, token, snap, c, n);
    }
    UnchargeShape(t, Key(snap.chunk, snap.target), snap.length);
  }

  lemma BeatKeepsStranded(t: Tables, cfg: Config, b: Beat, u: Tables, c: Id, n: Id)
    requires Heartbeat(t, cfg, b) == Ok(u) && Stranded(t, c, n)
    ensures Stranded(u, c, n)
  {
  }

  /** The steps that leave every replica row alone. */
  predicate Idle(step: Step) {
    step.Tick? || step.OnPrepare? || step.OnComplete? || step.OnConfirmBegin? || step.OnGrade? || step.OnNeedsRepair?
    || step.OnScan? || step.OnCheck? || step.OnSettleListed? || step.OnClaim? || step.OnGiveBack?
  }

  lemma PrepareRows(cfg: Config, s: State, up: Id, owner: Id, seqNo: nat, digest: Digest, u: State)
    requires PrepareStep(cfg, s, up, owner, seqNo, digest) == Some(u)
    ensures u.db.replicas == s.db.replicas
  {
    hide Positions;
  }

  lemma CompleteRows(t: Tables, now: Time, up: Id, owner: Id, u: Tables)
    requires Complete(t, now, up, owner) == Ok(u)
    ensures u.replicas == t.replicas
  {
    hide PieceReady;
  }

  lemma ListedRows(t: Tables, cfg: Config, now: Time, n: Id, volume: Id, c: Id)
    ensures SettleListed(t, cfg, now, n, volume, c).replicas == t.replicas
  {
    hide PhaseOf, HealthyNodes;
  }

  lemma IdleRows(cfg: Config, s: State, step: Step, u: State)
    requires cfg.Valid() && Next(cfg, s, step) == Some(u) && Idle(step)
    ensures u.db.replicas == s.db.replicas
  {
    hide InitStep, PrepareStep, RepairBeginStep, DeleteBeginStep, Retire, Cancel, Delete, BadReplica, SettleRow,
      SettleListed, DeleteCommit, RepairCommit, ConfirmBegin, Complete, ConfirmCommit, NeedsRepair, Heartbeat,
      AgedHealth;
    match step
    case OnPrepare(up, owner, seqNo, digest) => PrepareRows(cfg, s, up, owner, seqNo, digest, u);
    case OnComplete(up, owner) => CompleteRows(s.db, s.now, up, owner, u.db);
    case OnSettleListed(scan, c) => ListedRows(s.db, cfg, s.now, scan.node, scan.volume, c);
    case _ =>
  }

  lemma BadKeepsStranded(t: Tables, oid: Id, owner: Id, chunk: Id, node: Id, u: Tables, c: Id, n: Id)
    requires BadReplica(t, oid, owner, chunk, node) == Ok(u) && Stranded(t, c, n)
    ensures Stranded(u, c, n)
  {
  }

  lemma UploadStepKeepsStranded(cfg: Config, s: State, step: Step, u: State, c: Id, n: Id)
    requires cfg.Valid() && Inv(cfg, s) && Next(cfg, s, step) == Some(u) && Stranded(s.db, c, n)
    requires PhaseOf(s.db, c) == Some(Published) && PhaseOf(u.db, c) == Some(Published)
    requires step.OnCancel? || step.OnDelete? || step.OnExpire? || step.OnConfirmCommit? || step.OnBadReplica?
    ensures Stranded(u.db, c, n)
  {
    hide Inv, Good, ConfirmSnapFits, RepairSnapFits, DeleteSnapFits, InitStep, PrepareStep, ConfirmBeginStep,
      ClaimStep, ScanStep, CheckStep, DeleteBeginStep, RepairBeginStep, Retire, Linked, Complete, Cancel, Delete,
      BadReplica, ConfirmCommit, Heartbeat, GradeNodes, Enqueue, SettleRow, SettleListed, GiveBack, DeleteCommit,
      RepairCommit, NeedsRepair, PhaseOf, Stranded;
    InvGood(cfg, s);
    InvSnaps(cfg, s);
    StrandedPlaced(cfg, s, c, n);
    match step
    case OnCancel(up, owner) => CancelKeepsStranded(s.db, cfg, s.now, up, owner, u.db, c, n);
    case OnDelete(oid, owner) => DeleteKeepsStranded(s.db, cfg, s.now, oid, owner, u.db, c, n);
    case OnExpire(up) => RetireKeepsStranded(s.db, cfg, s.now, up, Expired, c, n);
    case OnConfirmCommit(snap) => ConfirmKeepsStranded(s.db, cfg, s.now, snap, u.db, c, n);
    case OnBadReplica(oid, owner, chunk, node) => BadKeepsStranded(s.db, oid, owner, chunk, node, u.db, c, n);
    case _ =>
  }

  lemma NodeStepKeepsStranded(cfg: Config, s: State, step: Step, u: State, c: Id, n: Id)
    requires cfg.Valid() && Inv(cfg, s) && Next(cfg, s, step) == Some(u) && Stranded(s.db, c, n)
    requires PhaseOf(s.db, c) == Some(Published)
    requires step.OnHeartbeat? || step.OnSettleRow? || step.OnDeleteBegin? || step.OnDeleteCommit?
        || step.OnRepairBegin? || step.OnRepairCommit?
    ensures Stranded(u.db, c, n)
  {
    hide Inv, Good, InitStep, PrepareStep, ConfirmBeginStep, ClaimStep, ScanStep, CheckStep, DeleteBeginStep,
      RepairBeginStep, Retire, Linked, Complete, Cancel, Delete, BadReplica, ConfirmCommit, Heartbeat, GradeNodes,
      Enqueue, SettleRow, SettleListed, GiveBack, DeleteCommit, RepairCommit, NeedsRepair, PhaseOf, Stranded;
    InvGood(cfg, s);
    StrandedPlaced(cfg, s, c, n);
    match step
    case OnHeartbeat(b) => BeatKeepsStranded(s.db, cfg, b, u.db, c, n);
    case OnSettleRow(check, valid) =>
      SettleKeepsStranded(s.db, check.scan.node, check.scan.volume, check.scan.instance, check.chunk, check.length,
                          valid, c, n);
    case OnDeleteBegin(token) => DeleteBeginKeepsStranded(cfg, s, token, u, c, n);
    case OnDeleteCommit(r) => DeleteCommitKeepsStranded(s.db, s.now, r.chunk, r.node, r.token, r.snap, u.db, c, n);
    case OnRepairBegin(token, pending, order) => RepairBeginKeepsStranded(cfg, s, token, pending, order, u, c, n);
    case OnRepairCommit(copy) => RepairCommitKeepsStranded(s.db, cfg, s.now, copy.token, copy.snap, u.db, c, n);
    case _ =>
  }

  lemma StepKeepsStranded(cfg: Config, s: State, step: Step, u: State, c: Id, n: Id)
    requires cfg.Valid() && Inv(cfg, s) && Next(cfg, s, step) == Some(u) && Stranded(s.db, c, n)
    requires PhaseOf(s.db, c) == Some(Published) && PhaseOf(u.db, c) == Some(Published)
    ensures Stranded(u.db, c, n)
  {
    hide Inv, Next, PhaseOf;
    if Idle(step) {
      IdleRows(cfg, s, step, u);
    } else if step.OnInit? {
      InitKeepsStranded(cfg, s, step, u, c, n);
    } else if step.OnCancel? || step.OnDelete? || step.OnExpire? || step.OnConfirmCommit? || step.OnBadReplica? {
      UploadStepKeepsStranded(cfg, s, step, u, c, n);
    } else {
      NodeStepKeepsStranded(cfg, s, step, u, c, n);
    }
  }

  lemma StrandedPlaced(cfg: Config, s: State, c: Id, n: Id)
    requires Inv(cfg, s) && Stranded(s.db, c, n)
    ensures n in s.db.nodes && Linked(s.db, c)
  {
  }

  /** While the object stays published a stranded reservation stays: nothing the service ever does charges it, frees
      it or fills it, and no repair of the chunk can be committed. */
  lemma {:induction false} StrandedForGood(cfg: Config, s: State, steps: seq<Step>, u: State, c: Id, n: Id)
    requires cfg.Valid() && Inv(cfg, s) && Run(cfg, s, steps) == Some(u) && Stranded(s.db, c, n)
    requires PhaseOf(s.db, c) == Some(Published) && PhaseOf(u.db, c) == Some(Published)
    ensures Stranded(u.db, c, n)
    ensures forall copy :: copy in u.copies && copy.snap.chunk == c ==> Next(cfg, u, OnRepairCommit(copy)) == None
    decreases |steps|
  {
    hide Inv, Good, Next, Stranded, PhaseOf, Grows, RowMoves, SameFleet, RepairCommit, Linked;
    InvGood(cfg, s);
    if steps == [] {
      forall copy | copy in u.copies && copy.snap.chunk == c ensures Next(cfg, u, OnRepairCommit(copy)) == None {
        StrandedRefusesCommit(u.db, cfg, u.now, copy.token, copy.snap, c, n);
        NoCommit(cfg, u, copy);
      }
    } else {
      var after := Next(cfg, s, steps[0]).value;
      StepKeeps(cfg, s, steps[0], after);
      RunGrows(cfg, after, steps[1..], u);
      StrandedPlaced(cfg, s, c, n);
      PublishedBetween(s.db, after.db, u.db, c);
      StepKeepsStranded(cfg, s, steps[0], after, c, n);
      StrandedForGood(cfg, after, steps[1..], u, c, n);
    }
  }

  lemma NoCommit(cfg: Config, s: State, copy: Copy)
    requires cfg.Valid() && RepairCommit(s.db, cfg, s.now, copy.token, copy.snap).Fail?
    ensures Next(cfg, s, OnRepairCommit(copy)) == None
  {
    hide RepairCommit;
  }

  lemma PublishedBetween(t: Tables, m: Tables, u: Tables, c: Id)
    requires Grows(t, m) && Grows(m, u) && Linked(t, c) && PhaseOf(t, c) == PhaseOf(u, c) == Some(Published)
    ensures PhaseOf(m, c) == Some(Published)
  {
    hide Grows;
    LinkKept(t, m, c);
    LinkKept(m, u, c);
  }
  // ---------------------------------------------------------------- a removal that found no row to mark

  /** Finishing a removal takes the row off the books even if, in the meantime, the row has become a repair's
      reservation: it strands the row exactly if it finds it reserved, and then it had found no row to mark. */
  lemma RemovalStrandsExactlyIfReserved(cfg: Config, s: State, r: Removal, u: State)
    requires cfg.Valid() && Reachable(cfg, s) && r.snap.length.Some? && Next(cfg, s, OnDeleteCommit(r)) == Some(u)
    ensures Stranded(u.db, r.chunk, r.node) <==> IsReserved(s.db, r.chunk, r.node)
    ensures r.marked ==> !IsReserved(s.db, r.chunk, r.node) && Has(u.db, Key(r.chunk, r.node), Gone)
  {
    hide Reachable, Uncharge;
    UnchargeShape(s.db, Key(r.chunk, r.node), r.snap.length.value);
    if r.marked {
      MarkOutlivesFence(cfg, s, r);
      MarkedRemovalStrandsNothing(cfg, s, r, u.db);
    }
  }

  /** From then on every repair of the chunk takes over that reservation, and none can be committed. */
  lemma StrandedRepairNeverCommits(t: Tables, cfg: Config, now: Time, c: Id, n: Id, token: Id, pending: Option<Id>,
                                   order: seq<Id>,
                                   out: (Tables, Option<RepairSnap>), later: Time)
    requires Good(t) && n in t.nodes && Stranded(t, c, n) && PendingChoice(t, c, pending)
    requires RepairBegin(t, cfg, now, c, token, pending, order) == Ok(out) && out.1.Some?
    ensures out.0 == t && out.1.value.target == n && RepairCommit(t, cfg, later, token, out.1.value).Fail?
  {
    hide Good, RepairBegin, RepairCommit, PendingChoice, RepairSnapFits;
    CrashedRepairIsResumed(t, cfg, now, c, token, pending, order, n, out);
    RepairBeginSnap(t, cfg, now, c, token, pending, order, out);
    UnchargedNeverCommits(t, cfg, later, token, out.1.value);
  }

  lemma UnchargedNeverCommits(t: Tables, cfg: Config, now: Time, token: Id, snap: RepairSnap)
    requires Key(snap.chunk, snap.target) in t.replicas && t.replicas[Key(snap.chunk, snap.target)].charge.NoCharge?
    ensures RepairCommit(t, cfg, now, token, snap).Fail?
  {
    hide HealthyNodes, Uncharge, Enqueue;
  }

  /** It cannot happen to a removal that marked its row: while its fence holds, the row is not reserved. */
  lemma MarkedRemovalStrandsNothing(cfg: Config, s: State, r: Removal, u: Tables)
    requires cfg.Valid() && Reachable(cfg, s) && r in s.removals && r.marked
    requires DeleteCommit(s.db, s.now, r.chunk, r.node, r.token, r.snap) == Ok(u)
    ensures Has(u, Key(r.chunk, r.node), Gone) && !IsReserved(u, r.chunk, r.node)
  {
    MarkOutlivesFence(cfg, s, r);
    hide Reachable, Uncharge;
    if r.snap.length.Some? {
      UnchargeShape(s.db, Key(r.chunk, r.node), r.snap.length.value);
    }
  }

  // ---------------------------------------------------------------- nothing else strands a reservation

  lemma StrandedIsPublished(t: Tables, c: Id, n: Id)
    requires Good(t) && Stranded(t, c, n)
    ensures PhaseOf(t, c) == Some(Published)
  {
    hide Balanced, Pairs, Tasks, Counts, Pieces, PhaseOf;
    assert RowOk(t, Key(c, n));
    StrandedLinked(t, c, n);
    var phase := PhaseOf(t, c).value;
    assert !phase.Staging? && !phase.Deleted?;
  }

  lemma StrandedLinked(t: Tables, c: Id, n: Id)
    requires Good(t) && Stranded(t, c, n)
    ensures PhaseOf(t, c).Some?
  {
    hide Balanced, Pairs, Rows, Tasks, Counts, Pieces;
  }

  lemma InitStrandsNothing(cfg: Config, s: State, step: Step, u: State, c: Id, n: Id)
    requires cfg.Valid() && Inv(cfg, s) && step.OnInit? && Next(cfg, s, step) == Some(u) && Stranded(u.db, c, n)
    ensures Stranded(s.db, c, n)
  {
    InitFresh(s, step.oid, step.up, step.cids);
    hide Good, Init, Advances, Held, SnapsFit, TicketsWait, TargetsHeld, MarksHeld, Registered, PhaseOf;
    InitGood(s.db, cfg, s.now, step.owner, step.size, step.oid, step.up, step.cids, step.orders, u.db);
    StrandedIsPublished(u.db, c, n);
    if c in s.db.chunks {
    } else {
      InitPending(s.db, cfg, s.now, step.owner, step.size, step.oid, step.up, step.cids, step.orders, u.db);
      NewIsStaging(s.db, u.db, step.oid, step.up, c);
    }
  }

  lemma NewIsStaging(t: Tables, u: Tables, oid: Id, up: Id, c: Id)
    requires AddsPending(t, u, up) && c !in t.chunks && up in u.uploads && u.uploads[up].oid == oid
    requires oid in u.objects && u.objects[oid].phase.Staging?
    ensures PhaseOf(u, c) != Some(Published)
  {
  }

  lemma RetireStrandsNothing(t: Tables, cfg: Config, now: Time, up: Id, state: UploadState, c: Id, n: Id)
    requires up in t.uploads && Stranded(Retire(t, cfg, now, up, state), c, n)
    ensures Stranded(t, c, n)
  {
    hide RetireRows;
    RetireShape(MarkDeleted(t, up, state), RowsOf(t, up), now + cfg.CleanupDelay());
  }

  lemma ConfirmStrandsNothing(t: Tables, cfg: Config, now: Time, snap: ConfirmSnap, u: Tables, c: Id, n: Id)
    requires ConfirmCommit(t, cfg, now, snap) == Ok(u) && ConfirmSnapFits(t, snap) && Stranded(u, c, n)
    ensures Stranded(t, c, n)
  {
    hide ConfirmCommit, ConfirmSnapFits;
    CommitOnlyConverts(t, cfg, now, snap, u);
    assert !Moved(t, u, Key(c, n));
  }

  lemma BeatStrandsNothing(t: Tables, cfg: Config, b: Beat, u: Tables, c: Id, n: Id)
    requires Heartbeat(t, cfg, b) == Ok(u) && Stranded(u, c, n)
    ensures Stranded(t, c, n)
  {
  }

  lemma BadStrandsNothing(t: Tables, oid: Id, owner: Id, chunk: Id, node: Id, u: Tables, c: Id, n: Id)
    requires BadReplica(t, oid, owner, chunk, node) == Ok(u) && Stranded(u, c, n)
    ensures Stranded(t, c, n)
  {
  }

  /** A reserved row is on its node's present volume, so reconciliation never takes it off the books. */
  lemma SettleStrandsNothing(t: Tables, node: Id, volume: Id, instance: Id, chunk: Id, length: int, valid: bool, c: Id,
                             n: Id)
    requires Good(t) && Stranded(SettleRow(t, node, volume, instance, chunk, length, valid), c, n)
    ensures Stranded(t, c, n)
  {
    hide Balanced, Refs, Pairs, Tasks, Counts, Pieces, PhaseOf;
    if Key(chunk, node) in t.replicas && node in t.nodes {
      GoodRows(t);
      assert RowOk(t, Key(chunk, node));
    }
  }

  lemma DeleteBeginStrandsNothing(cfg: Config, s: State, token: Id, u: State, c: Id, n: Id)
    requires DeleteBeginStep(cfg, s, token) == Some(u) && Stranded(u.db, c, n)
    ensures Stranded(s.db, c, n)
  {
    hide Protected;
  }

  lemma DeleteCommitStrands(t: Tables, now: Time, chunk: Id, node: Id, token: Id, snap: DeleteSnap, u: Tables, c: Id,
                            n: Id)
    requires DeleteCommit(t, now, chunk, node, token, snap) == Ok(u) && Stranded(u, c, n) && !Stranded(t, c, n)
    ensures chunk == c && node == n && IsReserved(t, c, n)
  {
    hide Uncharge;
    if snap.length.Some? {
      UnchargeShape(t, Key(chunk, node), snap.length.value);
    }
  }

  lemma RepairBeginStrandsNothing(cfg: Config, s: State, token: Id, pending: Option<Id>, order: seq<Id>, u: State,
                                  c: Id, n: Id)
    requires RepairBeginStep(cfg, s, token, pending, order) == Some(u) && Stranded(u.db, c, n)
    ensures Stranded(s.db, c, n)
  {
    hide HealthyNodes, Reserve, PhaseOf, Eligible, Live;
    var chunk := s.jobs[token].chunk;
    if chunk in s.db.chunks {
      ReserveOne(s.db, cfg, s.now, chunk, s.db.chunks[chunk].length, Occupied(s.db, chunk), order);
    }
  }

  lemma RepairCommitStrandsNothing(t: Tables, cfg: Config, now: Time, token: Id, snap: RepairSnap, u: Tables, c: Id,
                                   n: Id)
    requires RepairCommit(t, cfg, now, token, snap) == Ok(u) && Stranded(u, c, n)
    ensures Stranded(t, c, n)
  {
    hide HealthyNodes, Uncharge, PhaseOf;
    UnchargeShape(t, Key(snap.chunk, snap.target), snap.length);
  }

  lemma UploadStepStrandsNothing(cfg: Config, s: State, step: Step, u: State, c: Id, n: Id)
    requires cfg.Valid() && Inv(cfg, s) && Next(cfg, s, step) == Some(u) && Stranded(u.db, c, n)
    requires step.OnCancel? || step.OnDelete? || step.OnExpire? || step.OnConfirmCommit? || step.OnBadReplica?
    ensures Stranded(s.db, c, n)
  {
    hide Inv, Good, ConfirmSnapFits, RepairSnapFits, DeleteSnapFits, InitStep, PrepareStep, ConfirmBeginStep,
      ClaimStep, ScanStep, CheckStep, DeleteBeginStep, RepairBeginStep, Retire, UploadOf, Complete, BadReplica,
      ConfirmCommit, Heartbeat, GradeNodes, Enqueue, SettleRow, SettleListed, GiveBack, DeleteCommit, RepairCommit,
      NeedsRepair, PhaseOf, Stranded;
    InvSnaps(cfg, s);
    match step
    case OnCancel(up, owner) => if u.db != s.db { RetireStrandsNothing(s.db, cfg, s.now, up, Cancelled, c, n); }
    case OnDelete(oid, owner) =>
      UploadOfIsOne(s.db, oid);
      if u.db != s.db { RetireStrandsNothing(s.db, cfg, s.now, UploadOf(s.db, oid).value, Cancelled, c, n); }
    case OnExpire(up) => RetireStrandsNothing(s.db, cfg, s.now, up, Expired, c, n);
    case OnConfirmCommit(snap) => ConfirmStrandsNothing(s.db, cfg, s.now, snap, u.db, c, n);
    case OnBadReplica(oid, owner, chunk, node) => BadStrandsNothing(s.db, oid, owner, chunk, node, u.db, c, n);
    case _ =>
  }

  lemma NodeStepStrandsNothing(cfg: Config, s: State, step: Step, u: State, c: Id, n: Id)
    requires cfg.Valid() && Inv(cfg, s) && Next(cfg, s, step) == Some(u) && Stranded(u.db, c, n)
    requires step.OnHeartbeat? || step.OnSettleRow? || step.OnDeleteBegin? || step.OnRepairBegin?
        || step.OnRepairCommit?
    ensures Stranded(s.db, c, n)
  {
    hide Inv, Good, InitStep, PrepareStep, ConfirmBeginStep, ClaimStep, ScanStep, CheckStep, DeleteBeginStep,
      RepairBeginStep, Retire, Linked, Complete, Cancel, Delete, BadReplica, ConfirmCommit, Heartbeat, GradeNodes,
      Enqueue, SettleRow, SettleListed, GiveBack, DeleteCommit, RepairCommit, NeedsRepair, PhaseOf, Stranded;
    InvGood(cfg, s);
    match step
    case OnHeartbeat(b) => BeatStrandsNothing(s.db, cfg, b, u.db, c, n);
    case OnSettleRow(check, valid) =>
      SettleStrandsNothing(s.db, check.scan.node, check.scan.volume, check.scan.instance, check.chunk, check.length,
                           valid, c, n);
    case OnDeleteBegin(token) => DeleteBeginStrandsNothing(cfg, s, token, u, c, n);
    case OnRepairBegin(token, pending, order) => RepairBeginStrandsNothing(cfg, s, token, pending, order, u, c, n);
    case OnRepairCommit(copy) => RepairCommitStrandsNothing(s.db, cfg, s.now, copy.token, copy.snap, u.db, c, n);
    case _ =>
  }

  /** In reachable states a reservation is stranded only by finishing a removal of this very replica that had found
      no row to mark and now finds it reserved. */
  lemma OnlyLateRemovalsStrand(cfg: Config, s: State, step: Step, u: State, c: Id, n: Id)
    requires cfg.Valid() && Reachable(cfg, s) && Next(cfg, s, step) == Some(u) && Stranded(u.db, c, n)
    requires !Stranded(s.db, c, n)
    ensures step.OnDeleteCommit? && step.removal.chunk == c && step.removal.node == n && !step.removal.marked
    ensures IsReserved(s.db, c, n)
  {
    hide Inv, Next, Run, Reachable;
    ReachableHolds(cfg, s);
    if Idle(step) {
      IdleRows(cfg, s, step, u);
    } else if step.OnInit? {
      InitStrandsNothing(cfg, s, step, u, c, n);
    } else if step.OnCancel? || step.OnDelete? || step.OnExpire? || step.OnConfirmCommit? || step.OnBadReplica? {
      UploadStepStrandsNothing(cfg, s, step, u, c, n);
    } else if step.OnDeleteCommit? {
      CommittedRemoval(cfg, s, step.removal, u);
      DeleteCommitStrands(s.db, s.now, step.removal.chunk, step.removal.node, step.removal.token, step.removal.snap,
                          u.db, c, n);
      if step.removal.marked {
        MarkedRemovalStrandsNothing(cfg, s, step.removal, u.db);
      }
    } else {
      NodeStepStrandsNothing(cfg, s, step, u, c, n);
    }
  }

  lemma CommittedRemoval(cfg: Config, s: State, r: Removal, u: State)
    requires cfg.Valid() && Next(cfg, s, OnDeleteCommit(r)) == Some(u)
    ensures r in s.removals && DeleteCommit(s.db, s.now, r.chunk, r.node, r.token, r.snap) == Ok(u.db)
  {
    hide DeleteCommit;
  }
}
