/** Which rows and tasks each transaction can touch, as seen by the operations that are in flight. */
module Moves {
  import opened Schema
  import opened Transactions
  import opened Accounting
  import opened Invariants
  import opened Preservation
  import opened Lifecycle

  predicate Settled(s: ReplicaState) {
    s.Valid? || s.Bad? || s.Unverified?
  }

  predicate Has(t: Tables, k: Key, s: ReplicaState) {
    k in t.replicas && t.replicas[k].state == s
  }

  predicate HasSettled(t: Tables, k: Key) {
    k in t.replicas && Settled(t.replicas[k].state)
  }

  /** The only transactions that settle a reserved row are the two commits. */
  ghost predicate NoneSettled(t: Tables, u: Tables) {
    forall k :: HasSettled(u, k) ==> HasSettled(t, k)
  }

  /** While its task is open, a row under deletion stays so and a repair's reservation stays reserved. */
  ghost predicate KeepsRows(t: Tables, u: Tables) {
    && (forall k :: Has(t, k, Deleting) && Open(u, DeleteOf(k.chunk, k.node)) ==> Has(u, k, Deleting))
    && (forall k :: Has(t, k, Reserved) && Open(u, RepairOf(k.chunk)) ==> Has(u, k, Reserved))
  }

  /** How an open task came to be what it is. */
  predicate QueueMove(t: Tables, u: Tables, cfg: Config, now: Time, key: TaskKey)
    requires key in u.tasks
  {
    var y := u.tasks[key];
    || (key in t.tasks && t.tasks[key] == y)
    || (y.state.Pending? && (key.DeleteOf? ==> now + cfg.CleanupDelay() <= y.lease) && !Open(t, key))
    || (key in t.tasks && t.tasks[key].state.Running? && y == t.tasks[key].(state := Pending, lease := now + 2.0))
  }

  /** The token a task carries: the last worker that claimed it. */
  function Holder(t: Tables, key: TaskKey): Option<Id> {
    if key in t.tasks then t.tasks[key].token else None
  }

  /** Open tasks are as before, newly queued, or given back; none changes hands. */
  ghost predicate QueueMoves(t: Tables, u: Tables, cfg: Config, now: Time) {
    && (forall key :: Open(u, key) ==> QueueMove(t, u, cfg, now, key))
    && (forall key :: Holder(u, key).Some? ==> Holder(t, key) == Holder(u, key))
  }

  /** No id is new, and tasks are only ever queued for chunks and rows that are known. */
  ghost predicate NoNewIds(t: Tables, u: Tables) {
    && u.objects.Keys == t.objects.Keys && u.uploads.Keys == t.uploads.Keys && u.chunks.Keys == t.chunks.Keys
    && (forall key :: key in u.tasks && key !in t.tasks ==>
          key.chunk in t.chunks && (key.DeleteOf? ==> Key(key.chunk, key.node) in t.replicas))
  }

  /** No node registers: instances, volumes, capacities and heartbeats stay. */
  ghost predicate SameFleet(t: Tables, u: Tables) {
    && u.retired == t.retired && u.nodes.Keys == t.nodes.Keys
    && (forall n :: n in t.nodes ==>
        u.nodes[n] == t.nodes[n].(reserved := u.nodes[n].reserved, used := u.nodes[n].used,
                                  health := u.nodes[n].health))
  }

  // ---------------------------------------------------------------- frames

  lemma SameTasksMove(t: Tables, u: Tables, cfg: Config, now: Time)
    requires u.tasks == t.tasks
    ensures QueueMoves(t, u, cfg, now)
  {
  }

  lemma SameQueue(t: Tables, u: Tables, t1: Tables, u1: Tables, cfg: Config, now: Time)
    requires QueueMoves(t, u, cfg, now) && t1.tasks == t.tasks && u1.tasks == u.tasks
    ensures QueueMoves(t1, u1, cfg, now)
  {
    forall key | Open(u1, key) ensures QueueMove(t1, u1, cfg, now, key) {
      assert Open(u, key);
    }
    forall key | Holder(u1, key).Some? ensures Holder(t1, key) == Holder(u1, key) {
      assert Holder(u, key).Some?;
    }
  }

  lemma SameRowsMove(t: Tables, u: Tables)
    requires u.replicas == t.replicas
    ensures KeepsRows(t, u) && NoneSettled(t, u)
  {
  }

  lemma EnqueueMoves(t: Tables, cfg: Config, now: Time, key: TaskKey, lease: Time)
    requires key.DeleteOf? ==> now + cfg.CleanupDelay() <= lease
    ensures QueueMoves(t, Enqueue(t, key, lease), cfg, now)
  {
  }

  lemma FinishMoves(t: Tables, cfg: Config, now: Time, key: TaskKey)
    requires key in t.tasks
    ensures QueueMoves(t, FinishTask(t, key), cfg, now) && !Open(FinishTask(t, key), key)
  {
  }

  lemma GiveBackMoves(t: Tables, cfg: Config, now: Time, key: TaskKey, token: Id)
    ensures var u := GiveBack(t, now, key, token);
            QueueMoves(t, u, cfg, now) && KeepsRows(t, u) && NoneSettled(t, u) && NoNewIds(t, u) && SameFleet(t, u)
  {
    SameRowsMove(t, GiveBack(t, now, key, token));
  }

  // ---------------------------------------------------------------- single rows

  /** Taking a row off the books changes no state and no task. */
  lemma UnchargeKeepsStates(t: Tables, k: Key, length: int)
    ensures var u := Uncharge(t, k, length);
            && u.tasks == t.tasks && u.replicas.Keys == t.replicas.Keys && u.chunks == t.chunks
            && u.objects == t.objects && u.uploads == t.uploads
            && forall j :: j in t.replicas ==> u.replicas[j].state == t.replicas[j].state
  {
    hide Uncharge;
    UnchargeShape(t, k, length);
  }

  lemma UnchargeKeepsFleet(t: Tables, k: Key, length: int)
    ensures SameFleet(t, Uncharge(t, k, length))
  {
  }

  lemma QueueIds(t: Tables, key: TaskKey, lease: Time)
    requires key in t.tasks || (key.chunk in t.chunks && (key.DeleteOf? ==> Key(key.chunk, key.node) in t.replicas))
    ensures NoNewIds(t, Enqueue(t, key, lease)) && SameFleet(t, Enqueue(t, key, lease))
  {
  }

  lemma BadReplicaMoves(t: Tables, cfg: Config, now: Time, oid: Id, owner: Id, c: Id, n: Id, u: Tables)
    requires BadReplica(t, oid, owner, c, n) == Ok(u)
    ensures QueueMoves(t, u, cfg, now) && KeepsRows(t, u) && NoneSettled(t, u) && NoNewIds(t, u) && SameFleet(t, u)
  {
    hide Enqueue, QueueMoves;
    var k := Key(c, n);
    var t1 := if k in t.replicas && t.replicas[k].state.Valid? then SetRow(t, k, t.replicas[k].(state := Bad)) else t;
    EnqueueMoves(t1, cfg, now, RepairOf(c), 0.0);
    EnqueueShape(t1, RepairOf(c), 0.0);
    QueueIds(t1, RepairOf(c), 0.0);
    SameQueue(t1, u, t, u, cfg, now);
  }

  /** Only an unverified row can change, and it becomes valid or bad. */
  lemma SettleRowStates(t: Tables, n: Id, volume: Id, instance: Id, c: Id, length: int, valid: bool)
    ensures var u := SettleRow(t, n, volume, instance, c, length, valid);
            && u.tasks == t.tasks && u.replicas.Keys == t.replicas.Keys && u.chunks == t.chunks
            && u.objects == t.objects && u.uploads == t.uploads
            && (forall j :: j in t.replicas && j != Key(c, n) ==> u.replicas[j].state == t.replicas[j].state)
            && (Key(c, n) in t.replicas ==>
                  u.replicas[Key(c, n)].state == t.replicas[Key(c, n)].state
                  || (t.replicas[Key(c, n)].state.Unverified? && n in t.nodes && t.nodes[n].volume == volume
                      && t.nodes[n].instance == instance && u.replicas[Key(c, n)].state == if valid then Valid
                         else Bad))
  {
    hide Uncharge;
    var k := Key(c, n);
    if k in t.replicas {
      UnchargeKeepsStates(t, k, length);
      UnchargeKeepsStates(SetRow(t, k, t.replicas[k].(state := if valid then Valid else Bad, volume := volume)), k,
                          length);
    }
  }

  lemma SettleRowFleet(t: Tables, n: Id, volume: Id, instance: Id, c: Id, length: int, valid: bool)
    ensures SameFleet(t, SettleRow(t, n, volume, instance, c, length, valid))
  {
    hide Uncharge;
    var k := Key(c, n);
    if k in t.replicas {
      UnchargeKeepsFleet(t, k, length);
      UnchargeKeepsFleet(SetRow(t, k, t.replicas[k].(state := if valid then Valid else Bad, volume := volume)), k,
                         length);
    }
  }

  lemma SettleRowMoves(t: Tables, cfg: Config, now: Time, n: Id, volume: Id, instance: Id, c: Id, length: int,
                       valid: bool)
    ensures var u := SettleRow(t, n, volume, instance, c, length, valid);
            QueueMoves(t, u, cfg, now) && KeepsRows(t, u) && NoneSettled(t, u) && NoNewIds(t, u) && SameFleet(t, u)
  {
    hide SettleRow, QueueMoves, SameFleet;
    SettleRowStates(t, n, volume, instance, c, length, valid);
    SettleRowFleet(t, n, volume, instance, c, length, valid);
    SameTasksMove(t, SettleRow(t, n, volume, instance, c, length, valid), cfg, now);
  }

  lemma SettleListedMoves(t: Tables, cfg: Config, now: Time, n: Id, volume: Id, c: Id)
    ensures var u := SettleListed(t, cfg, now, n, volume, c);
            && QueueMoves(t, u, cfg, now) && KeepsRows(t, u) && NoneSettled(t, u) && SameFleet(t, u)
            && u == t.(tasks := u.tasks)
            && (forall key :: key in u.tasks ==> key in t.tasks || key == DeleteOf(c, n))
  {
    hide HealthyNodes, PhaseOf, QueueMoves;
    EnqueueMoves(t, cfg, now, DeleteOf(c, n), now + cfg.CleanupDelay());
    SameTasksMove(t, t, cfg, now);
    SameRowsMove(t, SettleListed(t, cfg, now, n, volume, c));
  }

  // ---------------------------------------------------------------- nodes and uploads

  lemma HeartbeatMoves(t: Tables, cfg: Config, now: Time, b: Beat, u: Tables)
    requires Heartbeat(t, cfg, b) == Ok(u)
    ensures QueueMoves(t, u, cfg, now) && KeepsRows(t, u) && NoneSettled(t, u) && NoNewIds(t, u)
  {
    SameTasksMove(t, u, cfg, now);
  }

  lemma GradeMoves(t: Tables, cfg: Config, now: Time)
    ensures var u := GradeNodes(t, cfg, now);
            QueueMoves(t, u, cfg, now) && KeepsRows(t, u) && NoneSettled(t, u) && NoNewIds(t, u) && SameFleet(t, u)
  {
    SameTasksMove(t, GradeNodes(t, cfg, now), cfg, now);
  }

  lemma PrepareMoves(t: Tables, cfg: Config, now: Time, up: Id, owner: Id, seqNo: nat, digest: Digest,
                     out: (Tables, Id, seq<Ticket>))
    requires Prepare(t, cfg, now, up, owner, seqNo, digest) == Ok(out)
    ensures var u := out.0;
            QueueMoves(t, u, cfg, now) && KeepsRows(t, u) && NoneSettled(t, u) && NoNewIds(t, u) && SameFleet(t, u)
  {
    hide Positions;
    SameTasksMove(t, out.0, cfg, now);
  }

  lemma PublishMoves(t: Tables, cfg: Config, now: Time, up: Id, owner: Id, u: Tables)
    requires Complete(t, now, up, owner) == Ok(u)
    ensures QueueMoves(t, u, cfg, now) && KeepsRows(t, u) && NoneSettled(t, u) && NoNewIds(t, u) && SameFleet(t, u)
  {
    hide PieceReady;
    SameTasksMove(t, u, cfg, now);
  }

  lemma RetireMoves(t: Tables, cfg: Config, now: Time, up: Id, state: UploadState)
    requires up in t.uploads && t.uploads[up].oid in t.objects
    ensures var u := Retire(t, cfg, now, up, state); QueueMoves(t, u, cfg, now) && KeepsRows(t, u) && NoneSettled(t, u)
  {
    hide RetireRows, RowsOf;
    var rows, lease, t1 := RowsOf(t, up), now + cfg.CleanupDelay(), MarkDeleted(t, up, state);
    var t2, u := RetireRows(t1, rows, lease), Retire(t, cfg, now, up, state);
    RetireShape(t1, rows, lease);
    RowsOfUpload(t, up);
    forall key | Open(u, key) ensures QueueMove(t, u, cfg, now, key) {
      RetireQueueMove(t1, cfg, now, rows, key);
      assert u.tasks[key] == t2.tasks[key];
    }
    forall key | Holder(u, key).Some? ensures Holder(t, key) == Holder(u, key) {
      RetireHolder(t1, rows, lease, key);
    }
  }

  lemma RetireHolder(t: Tables, rows: set<Key>, lease: Time, key: TaskKey)
    ensures Holder(RetireRows(t, rows, lease), key).Some? ==> Holder(t, key) == Holder(RetireRows(t, rows, lease), key)
  {
  }

  lemma RetireQueueMove(t: Tables, cfg: Config, now: Time, rows: set<Key>, key: TaskKey)
    requires key in RetireRows(t, rows, now + cfg.CleanupDelay()).tasks
    ensures QueueMove(t, RetireRows(t, rows, now + cfg.CleanupDelay()), cfg, now, key)
            || !Open(RetireRows(t, rows, now + cfg.CleanupDelay()), key)
  {
  }

  lemma RetireIds(t: Tables, cfg: Config, now: Time, up: Id, state: UploadState)
    requires up in t.uploads && t.uploads[up].oid in t.objects
    ensures NoNewIds(t, Retire(t, cfg, now, up, state)) && SameFleet(t, Retire(t, cfg, now, up, state))
  {
    hide RetireRows, RowsOf;
    var rows, lease, t1 := RowsOf(t, up), now + cfg.CleanupDelay(), MarkDeleted(t, up, state);
    RetireShape(t1, rows, lease);
    RetireTasks(t1, rows, lease);
    RowsOfUpload(t, up);
    RetireFleet(t1, rows, lease);
  }

  lemma RetireFleet(t: Tables, rows: set<Key>, lease: Time)
    ensures SameFleet(t, RetireRows(t, rows, lease))
  {
  }

  // ---------------------------------------------------------------- commits, deletion and repair

  lemma ConfirmMoves(t: Tables, cfg: Config, now: Time, snap: ConfirmSnap, u: Tables)
    requires Good(t) && ConfirmSnapFits(t, snap) && ConfirmCommit(t, cfg, now, snap) == Ok(u)
    ensures QueueMoves(t, u, cfg, now) && KeepsRows(t, u) && NoNewIds(t, u) && SameFleet(t, u)
    ensures forall k :: HasSettled(u, k) ==>
                  HasSettled(t, k) || (Has(t, k, Reserved) && k.chunk == snap.chunk
                                       && k.node in TicketNodes(snap.positions))
    ensures PhaseOf(t, snap.chunk) == Some(Staging)
  {
    hide Positions, PhaseOf, Sound, Balanced, TicketNodes;
    UploadingIsStaging(t, snap.chunk);
    GoodRows(t);
    assert Open(t, RepairOf(snap.chunk)) ==> TaskOk(t, RepairOf(snap.chunk));
    SameTasksMove(t, u, cfg, now);
  }

  lemma DeleteBeginMoves(t: Tables, cfg: Config, now: Time, c: Id, n: Id, token: Id, out: (Tables, DeleteSnap))
    requires Good(t) && DeleteBegin(t, cfg, now, c, n, token) == Ok(out)
    ensures var u := out.0;
            QueueMoves(t, u, cfg, now) && KeepsRows(t, u) && NoneSettled(t, u) && NoNewIds(t, u) && SameFleet(t, u)
    ensures Key(c, n) in t.replicas ==> Has(out.0, Key(c, n), Deleting)
  {
    hide HealthyNodes, Linked, Sound, Balanced;
    GoodRows(t);
    assert Open(t, RepairOf(c)) ==> TaskOk(t, RepairOf(c));
    SameTasksMove(t, out.0, cfg, now);
  }

  lemma DeleteCommitMoves(t: Tables, cfg: Config, now: Time, c: Id, n: Id, token: Id, snap: DeleteSnap, u: Tables)
    requires DeleteCommit(t, now, c, n, token, snap) == Ok(u)
    ensures QueueMoves(t, u, cfg, now) && KeepsRows(t, u) && NoneSettled(t, u) && NoNewIds(t, u)
  {
    hide Uncharge, QueueMoves;
    if snap.length.Some? {
      UnchargeKeepsStates(t, Key(c, n), snap.length.value);
    }
    FinishMoves(t, cfg, now, DeleteOf(c, n));
    SameQueue(t, FinishTask(t, DeleteOf(c, n)), t, u, cfg, now);
  }

  lemma DeleteCommitFleet(t: Tables, now: Time, c: Id, n: Id, token: Id, snap: DeleteSnap, u: Tables)
    requires DeleteCommit(t, now, c, n, token, snap) == Ok(u)
    ensures SameFleet(t, u) && !Open(u, DeleteOf(c, n))
  {
    hide Uncharge;
    if snap.length.Some? {
      UnchargeKeepsStates(t, Key(c, n), snap.length.value);
      UnchargeKeepsFleet(t, Key(c, n), snap.length.value);
    }
  }

  lemma RepairBeginMoves(t: Tables, cfg: Config, now: Time, c: Id, token: Id, pending: Option<Id>, order: seq<Id>,
                         out: (Tables, Option<RepairSnap>))
    requires pending.Some? ==> pending.value in ReservedNodes(t, c)
    requires RepairBegin(t, cfg, now, c, token, pending, order) == Ok(out)
    ensures var u := out.0;
            QueueMoves(t, u, cfg, now) && KeepsRows(t, u) && NoneSettled(t, u) && NoNewIds(t, u) && SameFleet(t, u)
    ensures out.1.None? ==> !Open(out.0, RepairOf(c))
  {
    hide HealthyNodes, Eligible, QueueMoves;
    if out.1.None? {
      FinishMoves(t, cfg, now, RepairOf(c));
      SameRowsMove(t, out.0);
    } else if pending.Some? {
      SameTasksMove(t, t, cfg, now);
    } else {
      ReserveOne(t, cfg, now, c, t.chunks[c].length, Occupied(t, c), order);
      SameTasksMove(t, out.0, cfg, now);
      var n := out.1.value.target;
      assert Key(c, n) in t.replicas ==> t.replicas[Key(c, n)].state.Gone?;
    }
  }

  lemma RepairCommitMoves(t: Tables, cfg: Config, now: Time, token: Id, snap: RepairSnap, u: Tables)
    requires RepairCommit(t, cfg, now, token, snap) == Ok(u) && snap.chunk in t.chunks
    ensures QueueMoves(t, u, cfg, now) && KeepsRows(t, u) && NoNewIds(t, u)
    ensures !Open(u, RepairOf(snap.chunk)) && Has(t, Key(snap.chunk, snap.target), Reserved)
    ensures forall k :: HasSettled(u, k) ==> HasSettled(t, k) || k == Key(snap.chunk, snap.target)
  {
    hide HealthyNodes, Uncharge, QueueMoves, Enqueue;
    var k, key, cleanup := Key(snap.chunk, snap.target), RepairOf(snap.chunk), DeleteOf(snap.chunk, snap.target);
    UnchargeKeepsStates(t, k, snap.length);
    if snap.required <= |HealthyNodes(t, cfg, now, snap.chunk)| {
      var t1 := Uncharge(t, k, snap.length);
      var t2 := SetRow(t1, k, t1.replicas[k].(state := Bad));
      SurplusQueue(t, t2, cfg, now, key, cleanup);
      QueueIds(t2, cleanup, now + cfg.CleanupDelay());
    } else {
      FinishMoves(t, cfg, now, key);
      SameQueue(t, FinishTask(t, key), t, u, cfg, now);
    }
  }

  lemma SurplusQueue(t: Tables, t1: Tables, cfg: Config, now: Time, key: TaskKey, cleanup: TaskKey)
    requires t1.tasks == t.tasks && key in t.tasks && key != cleanup
    ensures var u := FinishTask(Enqueue(t1, cleanup, now + cfg.CleanupDelay()), key);
            QueueMoves(t, u, cfg, now) && !Open(u, key) && u.replicas == t1.replicas
  {
  }

  lemma RepairCommitFleet(t: Tables, cfg: Config, now: Time, token: Id, snap: RepairSnap, u: Tables)
    requires RepairCommit(t, cfg, now, token, snap) == Ok(u)
    ensures SameFleet(t, u)
  {
    hide HealthyNodes, Uncharge;
    UnchargeKeepsStates(t, Key(snap.chunk, snap.target), snap.length);
    UnchargeKeepsFleet(t, Key(snap.chunk, snap.target), snap.length);
  }
}
