/** Where valid copies come from: every one was stated, confirmed or repaired since its node last came back. */
module Restating {
  import opened Schema
  import opened Transactions
  import opened Preservation
  import opened Lifecycle
  import opened Moves
  import opened Protocol
  import opened Runs
  import opened Safety
  import opened Stranding
  import opened Effects

  /** The steps that vouch for a copy: a confirmation that verified it, the repair that wrote it, or a successful `stat`
      by its node as it is registered now. */
  predicate Vouches(t: Tables, step: Step, k: Key) {
    match step
    case OnConfirmCommit(snap) => k.chunk == snap.chunk && k.node in TicketNodes(snap.positions)
    case OnRepairCommit(copy) => k == Key(copy.snap.chunk, copy.snap.target)
    case OnSettleRow(check, valid) =>
      && valid && k == Key(check.chunk, check.scan.node)
      && StillRegistered(t, check.scan.node, check.scan.volume, check.scan.instance)
    case _ => false
  }

  /** No row is valid that was not. */
  ghost predicate NoneValidated(t: Tables, u: Tables) {
    forall k :: Has(u, k, Valid) ==> Has(t, k, Valid)
  }

  lemma RetireValidates(t: Tables, cfg: Config, now: Time, up: Id, state: UploadState)
    requires up in t.uploads
    ensures NoneValidated(t, Retire(t, cfg, now, up, state))
  {
    hide RetireRows, RowsOf;
    RetireShape(MarkDeleted(t, up, state), RowsOf(t, up), now + cfg.CleanupDelay());
  }

  lemma CancelValidates(t: Tables, cfg: Config, now: Time, up: Id, owner: Id, u: Tables)
    requires Cancel(t, cfg, now, up, owner) == Ok(u)
    ensures NoneValidated(t, u)
  {
    hide Retire;
    if u != t {
      RetireValidates(t, cfg, now, up, Cancelled);
    }
  }

  lemma DeleteValidates(t: Tables, cfg: Config, now: Time, oid: Id, owner: Id, u: Tables)
    requires Delete(t, cfg, now, oid, owner) == Ok(u)
    ensures NoneValidated(t, u)
  {
    hide Retire, UploadOf;
    UploadOfIsOne(t, oid);
    if u != t {
      RetireValidates(t, cfg, now, UploadOf(t, oid).value, Cancelled);
    }
  }

  lemma ReportValidates(t: Tables, oid: Id, owner: Id, c: Id, n: Id, u: Tables)
    requires BadReplica(t, oid, owner, c, n) == Ok(u)
    ensures NoneValidated(t, u)
  {
    hide BadReplica, Queued, OtherTasksKept;
    ReportedExactlyIf(t, oid, owner, c, n);
  }

  lemma BeatValidates(t: Tables, cfg: Config, b: Beat, u: Tables)
    requires Heartbeat(t, cfg, b) == Ok(u)
    ensures NoneValidated(t, u)
  {
    hide Heartbeat;
    BeatRegisters(t, cfg, b);
  }

  lemma MarkValidates(cfg: Config, s: State, token: Id, u: State)
    requires DeleteBeginStep(cfg, s, token) == Some(u)
    ensures NoneValidated(s.db, u.db)
  {
    hide DeleteBegin;
    DeletionBegunExactlyIf(s.db, cfg, s.now, s.jobs[token].chunk, s.jobs[token].node, token);
  }

  lemma RemovalValidates(t: Tables, now: Time, c: Id, n: Id, token: Id, snap: DeleteSnap, u: Tables)
    requires DeleteCommit(t, now, c, n, token, snap) == Ok(u)
    ensures NoneValidated(t, u)
  {
    hide DeleteCommit, OnlyBooks, OtherTasksKept;
    DeletionFinishedExactlyIf(t, now, c, n, token, snap);
  }

  lemma ReservationValidates(cfg: Config, s: State, token: Id, pending: Option<Id>, order: seq<Id>, u: State)
    requires RepairBeginStep(cfg, s, token, pending, order) == Some(u)
    ensures NoneValidated(s.db, u.db)
  {
    hide HealthyNodes, Reserve, PhaseOf, Eligible, Live;
    var chunk := s.jobs[token].chunk;
    if chunk in s.db.chunks {
      ReserveOne(s.db, cfg, s.now, chunk, s.db.chunks[chunk].length, Occupied(s.db, chunk), order);
    }
  }

  lemma CreationValidates(cfg: Config, s: State, step: Step, u: State)
    requires cfg.Valid() && Inv(cfg, s) && step.OnInit? && Next(cfg, s, step) == Some(u)
    ensures NoneValidated(s.db, u.db)
  {
    hide Inv, Next, Loaded;
    CreatedIs(cfg, s, step, u);
  }

  lemma AnswerValidates(t: Tables, check: Check, valid: bool, k: Key)
    ensures var u := SettleRow(t, check.scan.node, check.scan.volume, check.scan.instance, check.chunk, check.length,
                               valid);
            Has(u, k, Valid) && !Has(t, k, Valid) ==> Vouches(t, OnSettleRow(check, valid), k)
  {
    hide SettleRow, OnlyBooks;
    AnswerSettles(t, check.scan.node, check.scan.volume, check.scan.instance, check.chunk, check.length, valid);
  }

  lemma ConfirmVouches(t: Tables, cfg: Config, now: Time, snap: ConfirmSnap, u: Tables, k: Key)
    requires Good(t) && ConfirmSnapFits(t, snap) && ConfirmCommit(t, cfg, now, snap) == Ok(u)
    ensures Has(u, k, Valid) && !Has(t, k, Valid) ==> Vouches(t, OnConfirmCommit(snap), k)
  {
    hide Good, ConfirmSnapFits, ConfirmCommit, TicketNodes;
    CommitIs(t, cfg, now, snap);
  }

  lemma RepairVouches(t: Tables, cfg: Config, now: Time, copy: Copy, u: Tables, k: Key)
    requires RepairCommit(t, cfg, now, copy.token, copy.snap) == Ok(u)
    ensures Has(u, k, Valid) && !Has(t, k, Valid) ==> Vouches(t, OnRepairCommit(copy), k)
  {
    hide RepairCommit, Short, Queued;
    RepairRecords(t, cfg, now, copy.token, copy.snap);
  }

  lemma UploadStepVouches(cfg: Config, s: State, step: Step, u: State, k: Key)
    requires cfg.Valid() && Inv(cfg, s) && Next(cfg, s, step) == Some(u) && Has(u.db, k, Valid) && !Has(s.db, k, Valid)
    requires step.OnCancel? || step.OnDelete? || step.OnExpire? || step.OnConfirmCommit? || step.OnBadReplica?
    ensures Vouches(s.db, step, k)
  {
    hide Inv, Good, ConfirmSnapFits, RepairSnapFits, DeleteSnapFits, InitStep, PrepareStep, ConfirmBeginStep,
      ClaimStep, ScanStep, CheckStep, DeleteBeginStep, RepairBeginStep, Retire, Complete, Cancel, Delete, BadReplica,
      ConfirmCommit, Heartbeat, GradeNodes, Enqueue, SettleRow, SettleListed, GiveBack, DeleteCommit, RepairCommit,
      NeedsRepair, Vouches, Has;
    InvGood(cfg, s);
    InvSnaps(cfg, s);
    match step
    case OnCancel(up, owner) => CancelValidates(s.db, cfg, s.now, up, owner, u.db);
    case OnDelete(oid, owner) => DeleteValidates(s.db, cfg, s.now, oid, owner, u.db);
    case OnExpire(up) => RetireValidates(s.db, cfg, s.now, up, Expired);
    case OnConfirmCommit(snap) => ConfirmVouches(s.db, cfg, s.now, snap, u.db, k);
    case OnBadReplica(oid, owner, chunk, node) => ReportValidates(s.db, oid, owner, chunk, node, u.db);
    case _ =>
  }

  lemma NodeStepVouches(cfg: Config, s: State, step: Step, u: State, k: Key)
    requires cfg.Valid() && Inv(cfg, s) && Next(cfg, s, step) == Some(u) && Has(u.db, k, Valid) && !Has(s.db, k, Valid)
    requires step.OnHeartbeat? || step.OnSettleRow? || step.OnDeleteBegin? || step.OnDeleteCommit?
        || step.OnRepairBegin? || step.OnRepairCommit?
    ensures Vouches(s.db, step, k)
  {
    hide Inv, Good, InitStep, PrepareStep, ConfirmBeginStep, ClaimStep, ScanStep, CheckStep, DeleteBeginStep,
      RepairBeginStep, Retire, Linked, Complete, Cancel, Delete, BadReplica, ConfirmCommit, Heartbeat, GradeNodes,
      Enqueue, SettleRow, SettleListed, GiveBack, DeleteCommit, RepairCommit, NeedsRepair, Vouches, Has;
    match step
    case OnHeartbeat(b) => BeatValidates(s.db, cfg, b, u.db);
    case OnSettleRow(check, valid) => AnswerValidates(s.db, check, valid, k);
    case OnDeleteBegin(token) => MarkValidates(cfg, s, token, u);
    case OnDeleteCommit(r) => RemovalValidates(s.db, s.now, r.chunk, r.node, r.token, r.snap, u.db);
    case OnRepairBegin(token, pending, order) => ReservationValidates(cfg, s, token, pending, order, u);
    case OnRepairCommit(copy) => RepairVouches(s.db, cfg, s.now, copy, u.db, k);
    case _ =>
  }

  /** Nothing makes a copy valid but a step that vouches for it. */
  lemma OnlyVouchedAreValidated(cfg: Config, s: State, step: Step, u: State, k: Key)
    requires cfg.Valid() && Inv(cfg, s) && Next(cfg, s, step) == Some(u) && Has(u.db, k, Valid) && !Has(s.db, k, Valid)
    ensures Vouches(s.db, step, k)
  {
    hide Inv, Next, Has, Vouches;
    if Idle(step) {
      IdleRows(cfg, s, step, u);
      SameRowsValidate(s.db, u.db);
    } else if step.OnInit? {
      CreationValidates(cfg, s, step, u);
    } else if step.OnCancel? || step.OnDelete? || step.OnExpire? || step.OnConfirmCommit? || step.OnBadReplica? {
      UploadStepVouches(cfg, s, step, u, k);
    } else {
      NodeStepVouches(cfg, s, step, u, k);
    }
  }

  lemma SameRowsValidate(t: Tables, u: Tables)
    requires u.replicas == t.replicas
    ensures NoneValidated(t, u)
  {
  }

  /** A copy that is valid now was vouched for since its node last came back: if the copy was not valid at an earlier
      moment, or its node has since registered another process or volume, then between then and now a confirmation
      verified it, a repair wrote it or a `stat` of it succeeded, and at that moment its node was registered as it is
      now. */
  lemma {:induction false} ValidCopiesAreVouchedFor(cfg: Config, s: State, steps: seq<Step>, u: State, k: Key)
    returns (i: nat, mid: State)
    requires cfg.Valid() && Reachable(cfg, s) && Run(cfg, s, steps) == Some(u) && Has(u.db, k, Valid)
    requires !Has(s.db, k, Valid) || !SameRegistration(s.db, u.db, k.node)
    ensures i < |steps| && Run(cfg, s, steps[..i]) == Some(mid)
    ensures Vouches(mid.db, steps[i], k) && SameRegistration(mid.db, u.db, k.node)
    decreases |steps|
  {
    hide Inv, Next, Has, Vouches, SameRegistration, Reachable;
    if steps == [] {
      ValidIsPlaced(cfg, s, k);
      SameIsSame(s.db, k.node);
      assert false;
    } else {
      var step, after := steps[0], Next(cfg, s, steps[0]).value;
      ReachableOn(cfg, s, step, after);
      if Has(after.db, k, Valid) && SameRegistration(after.db, u.db, k.node) {
        RestatedFirst(cfg, s, step, after, u, k);
        i, mid := 0, s;
        assert steps[..0] == [];
      } else {
        var j;
        j, mid := ValidCopiesAreVouchedFor(cfg, after, steps[1..], u, k);
        i := j + 1;
        assert steps[..i][1..] == steps[1..][..j];
      }
    }
  }

  lemma ValidIsPlaced(cfg: Config, s: State, k: Key)
    requires cfg.Valid() && Reachable(cfg, s) && Has(s.db, k, Valid)
    ensures k.node in s.db.nodes
  {
    hide Reachable;
    RowsCarryTheVolume(cfg, s, k);
  }

  lemma SameIsSame(t: Tables, n: Id)
    ensures n in t.nodes ==> SameRegistration(t, t, n)
  {
  }

  lemma SameThrough(t: Tables, m: Tables, u: Tables, n: Id)
    requires SameRegistration(m, u, n)
    ensures SameRegistration(t, m, n) <==> SameRegistration(t, u, n)
  {
  }

  /** The step after which the copy is valid, and its node registered as it will stay, vouches for it. */
  lemma RestatedFirst(cfg: Config, s: State, step: Step, after: State, u: State, k: Key)
    requires cfg.Valid() && Reachable(cfg, s) && Next(cfg, s, step) == Some(after)
    requires Has(after.db, k, Valid) && SameRegistration(after.db, u.db, k.node)
    requires !Has(s.db, k, Valid) || !SameRegistration(s.db, u.db, k.node)
    ensures Vouches(s.db, step, k) && SameRegistration(s.db, u.db, k.node)
  {
    hide Inv, Next, SameRegistration, Reachable, Run, RowsRestated, Vouches, Advances;
    ReachableHolds(cfg, s);
    SameThrough(s.db, after.db, u.db, k.node);
    if Has(s.db, k, Valid) {
      ValidIsPlaced(cfg, s, k);
      ReturningNodesAreRestated(cfg, s, step, after, k.node);
      assert false;
    } else {
      OnlyVouchedAreValidated(cfg, s, step, after, k);
      VouchingRegistersNothing(s.db, step, k);
      StepKeeps(cfg, s, step, after);
      RegistrationStays(cfg, s, step, after, k);
    }
  }

  lemma VouchingRegistersNothing(t: Tables, step: Step, k: Key)
    requires Vouches(t, step, k)
    ensures !step.OnHeartbeat?
  {
  }

  lemma RegistrationStays(cfg: Config, s: State, step: Step, after: State, k: Key)
    requires cfg.Valid() && Reachable(cfg, s) && Next(cfg, s, step) == Some(after) && Has(after.db, k, Valid)
    requires SameFleet(s.db, after.db)
    ensures SameRegistration(s.db, after.db, k.node)
  {
    hide Next, Reachable;
    ReachableOn(cfg, s, step, after);
    ValidIsPlaced(cfg, after, k);
  }
}
