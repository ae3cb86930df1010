/** When a node's promised and used bytes stay within the capacity it reports. */
module Capacity {
  import opened Schema
  import opened Sums
  import opened Transactions
  import opened Creation
  import opened Protocol
  import opened Runs

  predicate Fits(node: Node) {
    node.reserved + node.used <= node.capacity
  }

  predicate Bounded(t: Tables) {
    forall n :: n in t.nodes ==> Fits(t.nodes[n])
  }

  /** Same nodes, same capacities, and none fuller than before. */
  predicate NoFuller(t: Tables, u: Tables) {
    && u.nodes.Keys == t.nodes.Keys
    && forall n :: n in t.nodes ==>
         && u.nodes[n].capacity == t.nodes[n].capacity
         && u.nodes[n].reserved + u.nodes[n].used <= t.nodes[n].reserved + t.nodes[n].used
  }

  lemma NoFullerIsBounded(t: Tables, u: Tables)
    requires Bounded(t) && NoFuller(t, u)
    ensures Bounded(u)
  {
  }

  // ---------------------------------------------------------------- transactions

  lemma UnchargeNoFuller(t: Tables, k: Key, length: nat)
    ensures NoFuller(t, Uncharge(t, k, length))
  {
  }

  lemma SettleRowNoFuller(t: Tables, n: Id, volume: Id, instance: Id, c: Id, length: nat, valid: bool)
    ensures NoFuller(t, SettleRow(t, n, volume, instance, c, length, valid))
  {
    hide Uncharge;
    var k := Key(c, n);
    if k in t.replicas {
      UnchargeNoFuller(t, k, length);
      UnchargeNoFuller(SetRow(t, k, t.replicas[k].(state := if valid then Valid else Bad, volume := volume)), k,
                       length);
    }
  }

  lemma DeleteCommitNoFuller(t: Tables, now: Time, c: Id, n: Id, token: Id, snap: DeleteSnap, u: Tables)
    requires DeleteCommit(t, now, c, n, token, snap) == Ok(u)
    ensures NoFuller(t, u)
  {
    hide Uncharge;
    if snap.length.Some? {
      UnchargeNoFuller(t, Key(c, n), snap.length.value);
    }
  }

  lemma RepairCommitNoFuller(t: Tables, cfg: Config, now: Time, token: Id, snap: RepairSnap, u: Tables)
    requires RepairCommit(t, cfg, now, token, snap) == Ok(u)
    ensures NoFuller(t, u)
  {
    hide Uncharge, HealthyNodes;
    UnchargeNoFuller(t, Key(snap.chunk, snap.target), snap.length);
  }

  lemma ConfirmNoFuller(t: Tables, cfg: Config, now: Time, snap: ConfirmSnap, u: Tables)
    requires ConfirmCommit(t, cfg, now, snap) == Ok(u)
    ensures NoFuller(t, u)
  {
    hide Positions;
  }

  lemma RetireNoFuller(t: Tables, cfg: Config, now: Time, up: Id, state: UploadState)
    requires up in t.uploads
    ensures NoFuller(t, Retire(t, cfg, now, up, state))
  {
    hide Weigher, RowsOf;
    var t1 := MarkDeleted(t, up, state);
    forall n ensures 0 <= ReservedFor(t1, RowsOf(t, up), n) {
      ReservedForIsNotNegative(t1, RowsOf(t, up), n);
    }
  }

  lemma ReservedForIsNotNegative(t: Tables, rows: set<Key>, n: Id)
    ensures 0 <= ReservedFor(t, rows, n)
  {
    TotalNonNegative(rows, Weigher(t, n, ReservedCharge));
  }

  lemma {:induction false} ReserveBounded(t: Tables, cfg: Config, now: Time, c: Id, length: int, count: nat,
                                          excluded: set<Id>, order: seq<Id>)
    requires Bounded(t)
    ensures var r := Reserve(t, cfg, now, c, length, count, excluded, order); r.Ok? ==> Bounded(r.value.0)
    decreases |order|
  {
    hide Live;
    if count > 0 && order != [] {
      var n := order[0];
      if n !in t.nodes || n in excluded || !Eligible(t.nodes[n], cfg, now, length) {
        ReserveBounded(t, cfg, now, c, length, count, excluded, order[1..]);
      } else {
        ReserveBounded(Place(t, c, n, length), cfg, now, c, length, count - 1, excluded, order[1..]);
      }
    }
  }

  lemma {:induction false} PlaceChunksBounded(t: Tables, cfg: Config, now: Time, up: Id, size: nat, first: nat,
                                              cids: seq<Id>, orders: seq<seq<Id>>)
    requires |orders| == |cids| && (cids == [] || (first + |cids| - 1) * cfg.chunk < size) && Bounded(t)
    ensures var r := PlaceChunks(t, cfg, now, up, size, first, cids, orders); r.Ok? ==> Bounded(r.value)
    decreases |cids|
  {
    hide Reserve;
    if cids != [] {
      assert first * cfg.chunk <= (first + |cids| - 1) * cfg.chunk;
      var length := PieceLength(size, cfg.chunk, first);
      var t1 := t.(chunks := t.chunks[cids[0] := Chunk(up, first, length, None, PendingChunk)]);
      ReserveBounded(t1, cfg, now, cids[0], length, cfg.replicas, {}, orders[0]);
      var placed := Reserve(t1, cfg, now, cids[0], length, cfg.replicas, {}, orders[0]);
      if placed.Ok? {
        PlaceChunksBounded(placed.value.0, cfg, now, up, size, first + 1, cids[1..], orders[1..]);
      }
    }
  }

  lemma InitBounded(t: Tables, cfg: Config, now: Time, owner: Id, size: nat, oid: Id, up: Id, cids: seq<Id>,
                    orders: seq<seq<Id>>, u: Tables)
    requires cfg.Valid() && size <= cfg.chunk * cfg.maxChunks && |cids| == |orders| == PieceCount(size, cfg.chunk)
    requires Init(t, cfg, now, owner, size, oid, up, cids, orders) == Ok(u) && Bounded(t)
    ensures Bounded(u)
  {
    InitIs(t, cfg, now, owner, size, oid, up, cids, orders);
    PlaceChunksBounded(NewObject(t, cfg, now, owner, size, oid, up), cfg, now, up, size, 0, cids, orders);
  }

  lemma RepairBeginBounded(t: Tables, cfg: Config, now: Time, c: Id, token: Id, pending: Option<Id>, order: seq<Id>,
                           out: (Tables, Option<RepairSnap>))
    requires pending.Some? ==> pending.value in ReservedNodes(t, c)
    requires RepairBegin(t, cfg, now, c, token, pending, order) == Ok(out) && Bounded(t)
    ensures Bounded(out.0)
  {
    hide HealthyNodes, Reserve, Occupied;
    if Linked(t, c) {
      ReserveBounded(t, cfg, now, c, t.chunks[c].length, 1, Occupied(t, c), order);
    }
  }

  /** A heartbeat keeps the books within bounds exactly if it reports no less than what is already promised. */
  lemma HeartbeatBound(t: Tables, cfg: Config, b: Beat, u: Tables)
    requires Bounded(t) && Heartbeat(t, cfg, b) == Ok(u)
    ensures Bounded(u) <==> (b.node in t.nodes ==> t.nodes[b.node].reserved + t.nodes[b.node].used <= b.capacity)
  {
    assert Bounded(u) ==> Fits(u.nodes[b.node]);
  }

  // ---------------------------------------------------------------- runs

  predicate Covers(s: State, step: Step) {
    step.OnHeartbeat? && step.beat.node in s.db.nodes ==>
      s.db.nodes[step.beat.node].reserved + s.db.nodes[step.beat.node].used <= step.beat.capacity
  }

  lemma PrepareNoFuller(cfg: Config, s: State, up: Id, owner: Id, seqNo: nat, digest: Digest, u: State)
    requires PrepareStep(cfg, s, up, owner, seqNo, digest) == Some(u)
    ensures NoFuller(s.db, u.db)
  {
    hide Positions;
  }

  lemma CompleteNoFuller(t: Tables, now: Time, up: Id, owner: Id, u: Tables)
    requires Complete(t, now, up, owner) == Ok(u)
    ensures NoFuller(t, u)
  {
    hide PieceReady;
  }

  lemma CancelNoFuller(t: Tables, cfg: Config, now: Time, up: Id, owner: Id, u: Tables)
    requires Cancel(t, cfg, now, up, owner) == Ok(u)
    ensures NoFuller(t, u)
  {
    hide Retire;
    if up in t.uploads {
      RetireNoFuller(t, cfg, now, up, Cancelled);
    }
  }

  lemma DeleteNoFuller(t: Tables, cfg: Config, now: Time, oid: Id, owner: Id, u: Tables)
    requires Delete(t, cfg, now, oid, owner) == Ok(u)
    ensures NoFuller(t, u)
  {
    hide Retire, UploadOf;
    UploadOfIsOne(t, oid);
    if UploadOf(t, oid).Some? {
      RetireNoFuller(t, cfg, now, UploadOf(t, oid).value, Cancelled);
    }
  }

  lemma BadReplicaNoFuller(t: Tables, oid: Id, owner: Id, c: Id, n: Id, u: Tables)
    requires BadReplica(t, oid, owner, c, n) == Ok(u)
    ensures NoFuller(t, u)
  {
  }

  lemma QueueNoFuller(t: Tables, u: Tables)
    requires u.nodes == t.nodes
    ensures NoFuller(t, u)
  {
  }

  lemma GradeNoFuller(t: Tables, cfg: Config, now: Time)
    ensures NoFuller(t, GradeNodes(t, cfg, now))
  {
  }

  lemma InitStepBounded(cfg: Config, s: State, owner: Id, size: nat, oid: Id, up: Id, cids: seq<Id>,
                        orders: seq<seq<Id>>, u: State)
    requires cfg.Valid() && Bounded(s.db) && InitStep(cfg, s, owner, size, oid, up, cids, orders) == Some(u)
    ensures Bounded(u.db)
  {
    hide Init;
    InitBounded(s.db, cfg, s.now, owner, size, oid, up, cids, orders, u.db);
  }

  lemma RepairStepBounded(cfg: Config, s: State, token: Id, pending: Option<Id>, order: seq<Id>, u: State)
    requires Bounded(s.db) && RepairBeginStep(cfg, s, token, pending, order) == Some(u)
    ensures Bounded(u.db)
  {
    hide RepairBegin;
    var c := s.jobs[token].chunk;
    RepairBeginBounded(s.db, cfg, s.now, c, token, pending, order,
                       RepairBegin(s.db, cfg, s.now, c, token, pending, order).value);
  }

  lemma DeleteStepNoFuller(cfg: Config, s: State, token: Id, u: State)
    requires DeleteBeginStep(cfg, s, token) == Some(u)
    ensures NoFuller(s.db, u.db)
  {
    hide Protected;
  }

  lemma SettleListedNoFuller(t: Tables, cfg: Config, now: Time, n: Id, volume: Id, c: Id)
    ensures NoFuller(t, SettleListed(t, cfg, now, n, volume, c))
  {
    hide HealthyNodes;
  }

  /** Any step but an under-reporting heartbeat keeps every node within its capacity; that one never does. */
  lemma StepBound(cfg: Config, s: State, step: Step, u: State)
    requires cfg.Valid() && Bounded(s.db) && Next(cfg, s, step) == Some(u)
    ensures Bounded(u.db) <==> Covers(s, step)
  {
    hide Bounded, NoFuller, InitStep, PrepareStep, DeleteBeginStep, RepairBeginStep, Retire, Complete, Cancel, Delete,
      BadReplica, ConfirmCommit, Heartbeat, GradeNodes, SettleRow, SettleListed, DeleteCommit, RepairCommit, Claim,
      ConfirmBegin, NeedsRepair;
    match step
    case OnInit(owner, size, oid, up, cids, orders) => InitStepBounded(cfg, s, owner, size, oid, up, cids, orders, u);
    case OnRepairBegin(token, pending, order) => RepairStepBounded(cfg, s, token, pending, order, u);
    case OnHeartbeat(b) => HeartbeatBound(s.db, cfg, b, u.db);
    case _ =>
      StepNoFuller(cfg, s, step, u);
      NoFullerIsBounded(s.db, u.db);
  }

  lemma ClaimNoFuller(cfg: Config, s: State, key: TaskKey, token: Id, u: State)
    requires ClaimStep(cfg, s, key, token) == Some(u)
    ensures NoFuller(s.db, u.db)
  {
  }

  lemma StepNoFuller(cfg: Config, s: State, step: Step, u: State)
    requires cfg.Valid() && Next(cfg, s, step) == Some(u)
    requires !step.OnInit? && !step.OnRepairBegin? && !step.OnHeartbeat?
    ensures NoFuller(s.db, u.db)
  {
    hide NoFuller, InitStep, PrepareStep, DeleteBeginStep, RepairBeginStep, Retire, Complete, Cancel, Delete,
      BadReplica, ConfirmCommit, Heartbeat, GradeNodes, SettleRow, SettleListed, DeleteCommit, RepairCommit, ClaimStep,
      ConfirmBegin, NeedsRepair;
    QueueNoFuller(s.db, s.db);
    match step
    case OnPrepare(up, owner, seqNo, digest) => PrepareNoFuller(cfg, s, up, owner, seqNo, digest, u);
    case OnComplete(up, owner) => CompleteNoFuller(s.db, s.now, up, owner, u.db);
    case OnCancel(up, owner) => CancelNoFuller(s.db, cfg, s.now, up, owner, u.db);
    case OnDelete(oid, owner) => DeleteNoFuller(s.db, cfg, s.now, oid, owner, u.db);
    case OnBadReplica(oid, owner, c, n) => BadReplicaNoFuller(s.db, oid, owner, c, n, u.db);
    case OnConfirmCommit(snap) => ConfirmNoFuller(s.db, cfg, s.now, snap, u.db);
    case OnGrade => GradeNoFuller(s.db, cfg, s.now);
    case OnExpire(up) => RetireNoFuller(s.db, cfg, s.now, up, Expired);
    case OnSettleRow(check, valid) =>
      SettleRowNoFuller(s.db, check.scan.node, check.scan.volume, check.scan.instance, check.chunk, check.length,
                        valid);
    case OnSettleListed(scan, c) => SettleListedNoFuller(s.db, cfg, s.now, scan.node, scan.volume, c);
    case OnClaim(key, token) => ClaimNoFuller(cfg, s, key, token, u);
    case OnDeleteBegin(token) => DeleteStepNoFuller(cfg, s, token, u);
    case OnDeleteCommit(r) => DeleteCommitNoFuller(s.db, s.now, r.chunk, r.node, r.token, r.snap, u.db);
    case OnRepairCommit(copy) => RepairCommitNoFuller(s.db, cfg, s.now, copy.token, copy.snap, u.db);
    case _ => QueueNoFuller(s.db, u.db);
  }

  ghost predicate BoundedThroughout(cfg: Config, s: State, steps: seq<Step>)
    requires cfg.Valid() && Run(cfg, s, steps).Some?
    decreases |steps|
  {
    Bounded(s.db) && (steps != [] ==> BoundedThroughout(cfg, Next(cfg, s, steps[0]).value, steps[1..]))
  }

  /** Every accepted heartbeat reports at least what its node has already promised or used. */
  ghost predicate AllCover(cfg: Config, s: State, steps: seq<Step>)
    requires cfg.Valid() && Run(cfg, s, steps).Some?
    decreases |steps|
  {
    steps != [] ==> Covers(s, steps[0]) && AllCover(cfg, Next(cfg, s, steps[0]).value, steps[1..])
  }

  /** No heartbeat reports less capacity than the one before it. */
  ghost predicate NeverShrinks(cfg: Config, s: State, steps: seq<Step>)
    requires cfg.Valid() && Run(cfg, s, steps).Some?
    decreases |steps|
  {
    steps != [] ==>
      && (steps[0].OnHeartbeat? && steps[0].beat.node in s.db.nodes ==>
            s.db.nodes[steps[0].beat.node].capacity <= steps[0].beat.capacity)
      && NeverShrinks(cfg, Next(cfg, s, steps[0]).value, steps[1..])
  }

  /** Nodes stay within their reported capacity throughout a run exactly if every heartbeat covers its node's books. */
  lemma {:induction false} BoundedExactlyIfCovered(cfg: Config, s: State, steps: seq<Step>)
    requires cfg.Valid() && Bounded(s.db) && Run(cfg, s, steps).Some?
    ensures BoundedThroughout(cfg, s, steps) <==> AllCover(cfg, s, steps)
    decreases |steps|
  {
    hide Next, Bounded, Covers;
    if steps != [] {
      var after := Next(cfg, s, steps[0]).value;
      StepBound(cfg, s, steps[0], after);
      if Covers(s, steps[0]) {
        BoundedExactlyIfCovered(cfg, after, steps[1..]);
      } else {
        assert !BoundedThroughout(cfg, after, steps[1..]);
      }
    }
  }

  /** In particular they do as long as capacities never shrink. */
  lemma {:induction false} SteadyCapacityIsRespected(cfg: Config, s: State, steps: seq<Step>)
    requires cfg.Valid() && Bounded(s.db) && Run(cfg, s, steps).Some? && NeverShrinks(cfg, s, steps)
    ensures BoundedThroughout(cfg, s, steps)
    decreases |steps|
  {
    hide Next;
    if steps != [] {
      var after := Next(cfg, s, steps[0]).value;
      StepBound(cfg, s, steps[0], after);
      SteadyCapacityIsRespected(cfg, after, steps[1..]);
    }
  }
}
