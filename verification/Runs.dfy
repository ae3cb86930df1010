/** Every step of the protocol keeps its invariant, so the invariant holds throughout every run. */
module Runs {
  import opened Schema
  import opened Transactions
  import opened Accounting
  import opened Invariants
  import opened Preservation
  import opened Lifecycle
  import opened Creation
  import opened Moves
  import opened Protocol

  // ---------------------------------------------------------------- write authorizations

  /** One ticket for each assigned node, in increasing node order, all alike otherwise. */
  lemma PositionsCoverAssigned(t: Tables, cfg: Config, now: Time, up: Id, c: Id, length: nat, digest: Digest,
                               ps: seq<Ticket>)
    requires Positions(t, cfg, now, up, c, length, digest) == Ok(ps)
    ensures forall p :: p in ps ==>
              && p.node in Assigned(t, c) && p == TicketFor(t, cfg, now, up, c, length, digest, p.node)
              && Live(t.nodes[p.node], cfg, now)
    ensures TicketNodes(ps) == Assigned(t, c) && |ps| == |Assigned(t, c)|
    ensures forall i, j :: 0 <= i < j < |ps| ==> ps[i].node < ps[j].node
  {
    hide Live;
    var nodes := Sorted(Assigned(t, c));
    forall p | p in ps
      ensures p.node in Assigned(t, c) && p == TicketFor(t, cfg, now, up, c, length, digest, p.node)
      ensures Live(t.nodes[p.node], cfg, now)
    {
      var i :| 0 <= i < |ps| && ps[i] == p;
      assert nodes[i] in nodes;
    }
    forall n | n in Assigned(t, c) ensures n in TicketNodes(ps) {
      var i :| 0 <= i < |nodes| && nodes[i] == n;
      assert ps[i] in ps && ps[i].node == n;
    }
  }

  /** Nothing is being deleted while an object is staging. */
  lemma NoCleanupWhileStaging(t: Tables, c: Id)
    requires Good(t) && PhaseOf(t, c) == Some(Staging)
    ensures forall n :: DeleteOf(c, n) !in t.tasks
  {
    hide Sound, Balanced, PhaseOf;
    GoodRows(t);
    forall n ensures DeleteOf(c, n) !in t.tasks {
      assert DeleteOf(c, n) in t.tasks ==> TaskOk(t, DeleteOf(c, n));
    }
  }

  lemma IssueKeeps(cfg: Config, s: State, c: Id, ps: set<Ticket>)
    requires Inv(cfg, s) && PhaseOf(s.db, c) == Some(Staging)
    requires forall p :: p in ps ==> p.chunk == c && TicketFits(s.db, p) && p.expires == s.now + cfg.authTtl
    ensures Inv(cfg, s.(tickets := s.tickets + ps))
  {
    hide Good, PhaseOf, TicketFits;
    NoCleanupWhileStaging(s.db, c);
    var u := s.(tickets := s.tickets + ps);
    assert Known(u) && Held(u) && SnapsFit(u) && TargetsHeld(u) && MarksHeld(u) && Registered(u);
    forall p, n | p in u.tickets ensures Waits(u.db, u.now, p, n) {
      assert p !in s.tickets ==> !Open(s.db, DeleteOf(p.chunk, n));
    }
  }

  lemma TicketsOfPositionsFit(t: Tables, cfg: Config, now: Time, up: Id, c: Id, length: nat, digest: Digest,
                              ps: seq<Ticket>)
    requires Positions(t, cfg, now, up, c, length, digest) == Ok(ps)
    requires Linked(t, c) && t.chunks[c].upload == up && t.chunks[c].length == length
    requires t.chunks[c].digest == Some(digest)
    ensures forall p :: p in ps ==> p.chunk == c && TicketFits(t, p) && p.expires == now + cfg.authTtl
  {
    hide Positions, Linked;
    PositionsCoverAssigned(t, cfg, now, up, c, length, digest, ps);
  }

  // ---------------------------------------------------------------- one lemma per kind of step

  lemma TickKeeps(cfg: Config, s: State, to: Time)
    requires Inv(cfg, s) && s.now <= to
    ensures Inv(cfg, s.(now := to))
  {
    hide Good;
    var u := s.(now := to);
    assert Known(u) && Held(u) && SnapsFit(u) && TargetsHeld(u) && MarksHeld(u) && Registered(u);
    forall p, n | p in s.tickets ensures Waits(s.db, to, p, n) {
      assert Waits(s.db, s.now, p, n);
    }
  }

  lemma InitKeeps(cfg: Config, s: State, owner: Id, size: nat, oid: Id, up: Id, cids: seq<Id>, orders: seq<seq<Id>>,
                  u: State)
    requires cfg.Valid() && Inv(cfg, s) && InitStep(cfg, s, owner, size, oid, up, cids, orders) == Some(u)
    ensures Inv(cfg, u) && Advances(s.db, u.db) && SameFleet(s.db, u.db)
  {
    hide Good, Init, Advances, Held, SnapsFit, TicketsWait, TargetsHeld, MarksHeld, Registered;
    InitFresh(s, oid, up, cids);
    InitGood(s.db, cfg, s.now, owner, size, oid, up, cids, orders, u.db);
    SameTasksMove(s.db, u.db, cfg, s.now);
    HeldKept(cfg, s, u.db);
    SnapsKept(s, u.db);
    TicketsKept(cfg, s, u.db);
    HoldsKept(cfg, s, u.db);
    InitFleet(cfg, s, owner, size, oid, up, cids, orders, u.db);
    FleetKept(s, u.db);
    MoreIds(cfg, s.(db := u.db), u);
  }

  lemma MoreIds(cfg: Config, s: State, u: State)
    requires u == s.(ids := u.ids)
    requires Held(s) && SnapsFit(s) && TicketsWait(cfg, s) && TargetsHeld(s) && MarksHeld(s) && Registered(s)
    ensures Held(u) && SnapsFit(u) && TicketsWait(cfg, u) && TargetsHeld(u) && MarksHeld(u) && Registered(u)
  {
  }

  lemma InitFresh(s: State, oid: Id, up: Id, cids: seq<Id>)
    requires Known(s) && oid !in s.ids && up !in s.ids && Unused(s, cids)
    ensures FreshIds(s.db, oid, up, cids)
  {
  }

  lemma {:induction false} PlaceChunksFleet(t: Tables, cfg: Config, now: Time, up: Id, size: nat, first: nat,
                                            cids: seq<Id>, orders: seq<seq<Id>>)
    requires |orders| == |cids| && (cids == [] || (first + |cids| - 1) * cfg.chunk < size)
    ensures var r := PlaceChunks(t, cfg, now, up, size, first, cids, orders); r.Ok? ==> SameFleet(t, r.value)
    decreases |cids|
  {
    hide Reserve;
    if cids != [] {
      assert first * cfg.chunk <= (first + |cids| - 1) * cfg.chunk;
      var length := PieceLength(size, cfg.chunk, first);
      var t1 := t.(chunks := t.chunks[cids[0] := Chunk(up, first, length, None, PendingChunk)]);
      ReserveFleet(t1, cfg, now, cids[0], length, cfg.replicas, {}, orders[0]);
      var placed := Reserve(t1, cfg, now, cids[0], length, cfg.replicas, {}, orders[0]);
      if placed.Ok? {
        PlaceChunksFleet(placed.value.0, cfg, now, up, size, first + 1, cids[1..], orders[1..]);
      }
    }
  }

  lemma {:induction false} ReserveFleet(t: Tables, cfg: Config, now: Time, c: Id, length: int, count: nat,
                                        excluded: set<Id>, order: seq<Id>)
    ensures var r := Reserve(t, cfg, now, c, length, count, excluded, order); r.Ok? ==> SameFleet(t, r.value.0)
    decreases |order|
  {
    hide Eligible;
    if count > 0 && order != [] {
      var n := order[0];
      if n !in t.nodes || n in excluded || !Eligible(t.nodes[n], cfg, now, length) {
        ReserveFleet(t, cfg, now, c, length, count, excluded, order[1..]);
      } else {
        ReserveFleet(Place(t, c, n, length), cfg, now, c, length, count - 1, excluded, order[1..]);
      }
    }
  }

  lemma InitFleet(cfg: Config, s: State, owner: Id, size: nat, oid: Id, up: Id, cids: seq<Id>, orders: seq<seq<Id>>,
                  u: Tables)
    requires cfg.Valid() && size <= cfg.chunk * cfg.maxChunks && |cids| == |orders| == PieceCount(size, cfg.chunk)
    requires Init(s.db, cfg, s.now, owner, size, oid, up, cids, orders) == Ok(u)
    ensures SameFleet(s.db, u)
  {
    InitIs(s.db, cfg, s.now, owner, size, oid, up, cids, orders);
    PlaceChunksFleet(NewObject(s.db, cfg, s.now, owner, size, oid, up), cfg, s.now, up, size, 0, cids, orders);
  }

  lemma PrepareStaging(t: Tables, cfg: Config, now: Time, up: Id, owner: Id, seqNo: nat, digest: Digest,
                       out: (Tables, Id, seq<Ticket>))
    requires Good(t) && Prepare(t, cfg, now, up, owner, seqNo, digest) == Ok(out)
    ensures Linked(out.0, out.1) && out.0.chunks[out.1].upload == up && out.0.chunks[out.1].digest == Some(digest)
    ensures PhaseOf(out.0, out.1) == Some(Staging)
    ensures Positions(out.0, cfg, now, up, out.1, out.0.chunks[out.1].length, digest) == Ok(out.2)
  {
    hide Positions, Balanced;
    GoodRows(t);
    assert out.1 in PiecesAt(t, up, seqNo);
    UploadingIsStaging(t, out.1);
  }

  lemma PrepareKeeps(cfg: Config, s: State, up: Id, owner: Id, seqNo: nat, digest: Digest, u: State)
    requires Inv(cfg, s) && PrepareStep(cfg, s, up, owner, seqNo, digest) == Some(u)
    ensures Inv(cfg, u) && Advances(s.db, u.db) && SameFleet(s.db, u.db)
  {
    hide Inv, Good, Prepare, Advances, QueueMoves, KeepsRows, NoNewIds, SameFleet;
    InvGood(cfg, s);
    var out := Prepare(s.db, cfg, s.now, up, owner, seqNo, digest).value;
    PrepareGood(s.db, cfg, s.now, up, owner, seqNo, digest, out);
    PrepareMoves(s.db, cfg, s.now, up, owner, seqNo, digest, out);
    PlainKeeps(cfg, s, out.0);
    PrepareStaging(s.db, cfg, s.now, up, owner, seqNo, digest, out);
    TicketsOfPositionsFit(out.0, cfg, s.now, up, out.1, out.0.chunks[out.1].length, digest, out.2);
    IssueKeeps(cfg, s.(db := out.0), out.1, set p | p in out.2);
  }

  lemma InvGood(cfg: Config, s: State)
    requires Inv(cfg, s)
    ensures Good(s.db)
  {
  }

  lemma ConfirmBeginFacts(t: Tables, cfg: Config, now: Time, up: Id, asking: Option<Id>, seqNo: nat, snap: ConfirmSnap)
    requires Good(t) && ConfirmBegin(t, cfg, now, up, asking, seqNo) == Ok(snap)
    ensures ConfirmSnapFits(t, snap) && PhaseOf(t, snap.chunk) == Some(Staging)
    ensures Positions(t, cfg, now, up, snap.chunk, snap.length, snap.digest) == Ok(snap.positions) && snap.upload == up
  {
    hide Positions, Balanced;
    GoodRows(t);
    assert snap.chunk in PiecesAt(t, up, seqNo);
    UploadingIsStaging(t, snap.chunk);
  }

  lemma ConfirmBeginKeeps(cfg: Config, s: State, up: Id, asking: Option<Id>, seqNo: nat, u: State)
    requires Inv(cfg, s) && ConfirmBeginStep(cfg, s, up, asking, seqNo) == Some(u)
    ensures Inv(cfg, u) && u.db == s.db
  {
    hide Inv, Good, ConfirmBegin, Positions, ConfirmSnapFits, TicketFits, PhaseOf;
    InvGood(cfg, s);
    var snap := ConfirmBegin(s.db, cfg, s.now, up, asking, seqNo).value;
    ConfirmBeginFacts(s.db, cfg, s.now, up, asking, seqNo, snap);
    ConfirmFits(s.db, snap);
    TicketsOfPositionsFit(s.db, cfg, s.now, up, snap.chunk, snap.length, snap.digest, snap.positions);
    IssueKeeps(cfg, s, snap.chunk, set p | p in snap.positions);
    ConfirmAdded(cfg, s.(tickets := u.tickets), snap);
  }

  lemma ConfirmFits(t: Tables, snap: ConfirmSnap)
    requires ConfirmSnapFits(t, snap)
    ensures Linked(t, snap.chunk) && t.chunks[snap.chunk].length == snap.length
    ensures t.chunks[snap.chunk].upload == snap.upload && t.chunks[snap.chunk].digest == Some(snap.digest)
  {
  }

  lemma ConfirmAdded(cfg: Config, s: State, snap: ConfirmSnap)
    requires Inv(cfg, s) && ConfirmSnapFits(s.db, snap)
    ensures Inv(cfg, s.(confirms := s.confirms + {snap}))
  {
    hide Good, ConfirmSnapFits, RepairSnapFits, DeleteSnapFits, CheckFits, TicketFits, Waits;
    var u := s.(confirms := s.confirms + {snap});
    assert Known(u) && Held(u) && TicketsWait(cfg, u) && TargetsHeld(u) && MarksHeld(u) && Registered(u);
  }

  lemma RetireKeeps(cfg: Config, s: State, up: Id, state: UploadState)
    requires Inv(cfg, s) && MayRetire(s.db, up, state)
    ensures Inv(cfg, s.(db := Retire(s.db, cfg, s.now, up, state)))
            && Advances(s.db, Retire(s.db, cfg, s.now, up, state))
            && SameFleet(s.db, Retire(s.db, cfg, s.now, up, state))
  {
    hide Inv, Good, Retire, Advances, QueueMoves, KeepsRows, NoNewIds, SameFleet;
    InvGood(cfg, s);
    UploadOwned(s.db, up);
    RetireGood(s.db, cfg, s.now, up, state);
    RetireMoves(s.db, cfg, s.now, up, state);
    RetireIds(s.db, cfg, s.now, up, state);
    PlainKeeps(cfg, s, Retire(s.db, cfg, s.now, up, state));
  }

  lemma UploadOwned(t: Tables, up: Id)
    requires Good(t) && up in t.uploads
    ensures t.uploads[up].oid in t.objects
  {
  }

  lemma CancelKeeps(cfg: Config, s: State, up: Id, owner: Id, u: Tables)
    requires Inv(cfg, s) && Cancel(s.db, cfg, s.now, up, owner) == Ok(u)
    ensures Inv(cfg, s.(db := u)) && Advances(s.db, u) && SameFleet(s.db, u)
  {
    hide Inv, Retire;
    if u != s.db {
      RetireKeeps(cfg, s, up, Cancelled);
    }
  }

  lemma UploadOfIsOne(t: Tables, oid: Id)
    ensures UploadOf(t, oid).Some? ==>
              UploadOf(t, oid).value in t.uploads && t.uploads[UploadOf(t, oid).value].oid == oid
  {
  }

  lemma DeleteKeeps(cfg: Config, s: State, oid: Id, owner: Id, u: Tables)
    requires Inv(cfg, s) && Delete(s.db, cfg, s.now, oid, owner) == Ok(u)
    ensures Inv(cfg, s.(db := u)) && Advances(s.db, u) && SameFleet(s.db, u)
  {
    hide Inv, Good, Retire, UploadOf;
    UploadOfIsOne(s.db, oid);
    if u != s.db {
      InvGood(cfg, s);
      UndeletedMayRetire(s.db, UploadOf(s.db, oid).value);
      RetireKeeps(cfg, s, UploadOf(s.db, oid).value, Cancelled);
    }
  }

  lemma CompleteKeeps(cfg: Config, s: State, up: Id, owner: Id, u: Tables)
    requires Inv(cfg, s) && Complete(s.db, s.now, up, owner) == Ok(u)
    ensures Inv(cfg, s.(db := u)) && Advances(s.db, u) && SameFleet(s.db, u)
  {
    hide Inv, Good, Complete, Advances, QueueMoves, KeepsRows, NoNewIds, SameFleet;
    InvGood(cfg, s);
    PublishGood(s.db, s.now, up, owner, u);
    PublishMoves(s.db, cfg, s.now, up, owner, u);
    PlainKeeps(cfg, s, u);
  }

  lemma BadReplicaKeeps(cfg: Config, s: State, oid: Id, owner: Id, c: Id, n: Id, u: Tables)
    requires Inv(cfg, s) && BadReplica(s.db, oid, owner, c, n) == Ok(u)
    ensures Inv(cfg, s.(db := u)) && Advances(s.db, u) && SameFleet(s.db, u)
  {
    hide Inv, Good, BadReplica, Advances, QueueMoves, KeepsRows, NoNewIds, SameFleet;
    InvGood(cfg, s);
    BadReplicaGood(s.db, oid, owner, c, n, u);
    BadReplicaMoves(s.db, cfg, s.now, oid, owner, c, n, u);
    PlainKeeps(cfg, s, u);
  }

  lemma ConfirmCommitKeeps(cfg: Config, s: State, snap: ConfirmSnap, u: Tables)
    requires Inv(cfg, s) && snap in s.confirms && ConfirmCommit(s.db, cfg, s.now, snap) == Ok(u)
    ensures Inv(cfg, s.(db := u)) && Advances(s.db, u) && SameFleet(s.db, u)
  {
    hide Inv, Good, ConfirmCommit, Advances, QueueMoves, KeepsRows, NoNewIds, SameFleet, ConfirmSnapFits, PhaseOf,
      TicketNodes;
    InvGood(cfg, s);
    InvSnaps(cfg, s);
    ConfirmCommitGood(s.db, cfg, s.now, snap, u);
    ConfirmMoves(s.db, cfg, s.now, snap, u);
    PlainKeeps(cfg, s, u);
  }

  lemma InvSnaps(cfg: Config, s: State)
    requires Inv(cfg, s)
    ensures forall snap :: snap in s.confirms ==> ConfirmSnapFits(s.db, snap)
    ensures forall copy :: copy in s.copies ==> RepairSnapFits(s.db, copy.snap)
    ensures forall r :: r in s.removals ==> DeleteSnapFits(s.db, r.chunk, r.snap)
    ensures forall check :: check in s.checks ==> CheckFits(s.db, check)
  {
  }

  lemma HeartbeatKeeps(cfg: Config, s: State, b: Beat, u: Tables)
    requires cfg.Valid() && Inv(cfg, s) && b.readAt <= s.now && Heartbeat(s.db, cfg, b) == Ok(u)
    ensures Inv(cfg, s.(db := u)) && Advances(s.db, u)
  {
    hide Inv, Good, Heartbeat, Advances, QueueMoves, KeepsRows, NoNewIds, Registered;
    InvGood(cfg, s);
    HeartbeatGood(s.db, cfg, b, u);
    HeartbeatMoves(s.db, cfg, s.now, b, u);
    HeartbeatRegisters(cfg, s, b, u);
    OrderlyKeeps(cfg, s, u);
  }

  lemma HeartbeatRegisters(cfg: Config, s: State, b: Beat, u: Tables)
    requires Inv(cfg, s) && b.readAt <= s.now && Heartbeat(s.db, cfg, b) == Ok(u)
    ensures Registered(s.(db := u))
  {
    hide Good, Known, Held, SnapsFit, TicketsWait, TargetsHeld, MarksHeld;
  }

  lemma GradeKeeps(cfg: Config, s: State)
    requires Inv(cfg, s)
    ensures Inv(cfg, s.(db := GradeNodes(s.db, cfg, s.now)))
            && Advances(s.db, GradeNodes(s.db, cfg, s.now)) && SameFleet(s.db, GradeNodes(s.db, cfg, s.now))
  {
    hide Inv, Good, GradeNodes, Advances, QueueMoves, KeepsRows, NoNewIds, SameFleet;
    InvGood(cfg, s);
    GradeGood(s.db, cfg, s.now);
    GradeMoves(s.db, cfg, s.now);
    PlainKeeps(cfg, s, GradeNodes(s.db, cfg, s.now));
  }

  lemma QueueRepairKeeps(cfg: Config, s: State, c: Id)
    requires Inv(cfg, s) && PhaseOf(s.db, c) == Some(Published)
    ensures Inv(cfg, s.(db := Enqueue(s.db, RepairOf(c), 0.0)))
            && Advances(s.db, Enqueue(s.db, RepairOf(c), 0.0))
            && SameFleet(s.db, Enqueue(s.db, RepairOf(c), 0.0))
  {
    hide Inv, Good, Enqueue, Advances, QueueMoves, KeepsRows, NoNewIds, SameFleet;
    var u := Enqueue(s.db, RepairOf(c), 0.0);
    InvGood(cfg, s);
    EnqueueGood(s.db, RepairOf(c), 0.0);
    EnqueueMoves(s.db, cfg, s.now, RepairOf(c), 0.0);
    QueueIds(s.db, RepairOf(c), 0.0);
    EnqueueShape(s.db, RepairOf(c), 0.0);
    SameRowsMove(s.db, u);
    PlainKeeps(cfg, s, u);
  }

  lemma ScanKeeps(cfg: Config, s: State, scans: set<Scan>)
    requires Inv(cfg, s)
    ensures Inv(cfg, s.(scans := scans))
  {
    hide Good;
    var u := s.(scans := scans);
    assert Known(u) && Held(u) && SnapsFit(u) && TicketsWait(cfg, u) && TargetsHeld(u) && MarksHeld(u) && Registered(u);
  }

  lemma CheckKeeps(cfg: Config, s: State, check: Check)
    requires Inv(cfg, s) && CheckFits(s.db, check)
    ensures Inv(cfg, s.(checks := s.checks + {check}))
  {
    hide Good, ConfirmSnapFits, RepairSnapFits, DeleteSnapFits, CheckFits, TicketFits, Waits;
    var u := s.(checks := s.checks + {check});
    assert Known(u) && Held(u) && SnapsFit(u) && TicketsWait(cfg, u) && TargetsHeld(u) && MarksHeld(u) && Registered(u);
  }

  lemma SettleRowKeeps(cfg: Config, s: State, check: Check, valid: bool)
    requires Inv(cfg, s) && check in s.checks
    ensures var sc := check.scan;
            Inv(cfg, s.(db := SettleRow(s.db, sc.node, sc.volume, sc.instance, check.chunk, check.length, valid)))
            && Advances(s.db, SettleRow(s.db, sc.node, sc.volume, sc.instance, check.chunk, check.length, valid))
            && SameFleet(s.db, SettleRow(s.db, sc.node, sc.volume, sc.instance, check.chunk, check.length, valid))
  {
    hide Inv, Good, SettleRow, Advances, QueueMoves, KeepsRows, NoNewIds, SameFleet;
    InvGood(cfg, s);
    InvSnaps(cfg, s);
    var sc := check.scan;
    assert CheckFits(s.db, check);
    SettleRowGood(s.db, sc.node, sc.volume, sc.instance, check.chunk, check.length, valid);
    SettleRowMoves(s.db, cfg, s.now, sc.node, sc.volume, sc.instance, check.chunk, check.length, valid);
    PlainKeeps(cfg, s, SettleRow(s.db, sc.node, sc.volume, sc.instance, check.chunk, check.length, valid));
  }

  lemma SettleListedKeeps(cfg: Config, s: State, scan: Scan, c: Id)
    requires Inv(cfg, s)
    ensures Inv(cfg, s.(db := SettleListed(s.db, cfg, s.now, scan.node, scan.volume, c), ids := s.ids + {c}))
            && Advances(s.db, SettleListed(s.db, cfg, s.now, scan.node, scan.volume, c))
            && SameFleet(s.db, SettleListed(s.db, cfg, s.now, scan.node, scan.volume, c))
  {
    hide Good, SettleListed, Advances, QueueMoves, KeepsRows, Held, SnapsFit, TicketsWait, TargetsHeld, MarksHeld,
      Registered;
    var u := SettleListed(s.db, cfg, s.now, scan.node, scan.volume, c);
    SettleListedGood(s.db, cfg, s.now, scan.node, scan.volume, c);
    SettleListedMoves(s.db, cfg, s.now, scan.node, scan.volume, c);
    HeldKept(cfg, s, u);
    SnapsKept(s, u);
    TicketsKept(cfg, s, u);
    HoldsKept(cfg, s, u);
    FleetKept(s, u);
    MoreIds(cfg, s.(db := u), s.(db := u, ids := s.ids + {c}));
  }

  // ---------------------------------------------------------------- workers

  lemma ClaimKeeps(cfg: Config, s: State, key: TaskKey, token: Id, u: State)
    requires cfg.Valid() && Inv(cfg, s) && ClaimStep(cfg, s, key, token) == Some(u)
    ensures Inv(cfg, u) && Advances(s.db, u.db) && SameFleet(s.db, u.db)
  {
    hide Good, Advances;
    ClaimGood(s.db, cfg, s.now, key, token);
    assert Known(u) && Registered(u);
    ClaimHeld(cfg, s, key, token, u);
    ClaimSnaps(cfg, s, key, token, u);
    ClaimTickets(cfg, s, key, token, u);
    ClaimHolds(cfg, s, key, token, u);
  }

  lemma ClaimHeld(cfg: Config, s: State, key: TaskKey, token: Id, u: State)
    requires Known(s) && Held(s) && ClaimStep(cfg, s, key, token) == Some(u)
    ensures Held(u)
  {
    forall k | Holder(u.db, k).Some? ensures Holder(u.db, k).value in u.jobs && u.jobs[Holder(u.db, k).value] == k {
      assert k != key ==> Holder(u.db, k) == Holder(s.db, k);
    }
  }

  lemma ClaimSnaps(cfg: Config, s: State, key: TaskKey, token: Id, u: State)
    requires SnapsFit(s) && ClaimStep(cfg, s, key, token) == Some(u)
    ensures SnapsFit(u)
  {
    var t := u.db;
    PlainLinks(s.db, t);
    SamePhases(s.db, t);
  }

  lemma ClaimTickets(cfg: Config, s: State, key: TaskKey, token: Id, u: State)
    requires TicketsWait(cfg, s) && ClaimStep(cfg, s, key, token) == Some(u)
    ensures TicketsWait(cfg, u)
  {
    forall p, n | p in u.tickets ensures Waits(u.db, u.now, p, n) {
      assert Waits(s.db, s.now, p, n);
    }
  }

  /** A new token is not the token of any work in flight. */
  lemma ClaimHolds(cfg: Config, s: State, key: TaskKey, token: Id, u: State)
    requires TargetsHeld(s) && MarksHeld(s) && Known(s) && ClaimStep(cfg, s, key, token) == Some(u)
    ensures TargetsHeld(u) && MarksHeld(u)
  {
  }

  lemma GiveBackKeeps(cfg: Config, s: State, token: Id)
    requires Inv(cfg, s) && token in s.jobs
    ensures Inv(cfg, s.(db := GiveBack(s.db, s.now, s.jobs[token], token)))
            && Advances(s.db, GiveBack(s.db, s.now, s.jobs[token], token))
            && SameFleet(s.db, GiveBack(s.db, s.now, s.jobs[token], token))
  {
    hide Inv, Good, GiveBack, Advances, QueueMoves, KeepsRows, NoNewIds, SameFleet;
    InvGood(cfg, s);
    GiveBackGood(s.db, s.now, s.jobs[token], token);
    GiveBackMoves(s.db, cfg, s.now, s.jobs[token], token);
    PlainKeeps(cfg, s, GiveBack(s.db, s.now, s.jobs[token], token));
  }

  lemma DeleteBeginKeeps(cfg: Config, s: State, token: Id, u: State)
    requires Inv(cfg, s) && DeleteBeginStep(cfg, s, token) == Some(u)
    ensures Inv(cfg, u) && Advances(s.db, u.db) && SameFleet(s.db, u.db)
  {
    hide Inv, Good, DeleteBegin, Advances, QueueMoves, KeepsRows, NoNewIds, SameFleet, DeleteSnapFits;
    InvGood(cfg, s);
    var c, n := s.jobs[token].chunk, s.jobs[token].node;
    var out := DeleteBegin(s.db, cfg, s.now, c, n, token).value;
    DeleteBeginGood(s.db, cfg, s.now, c, n, token, out);
    DeleteBeginMoves(s.db, cfg, s.now, c, n, token, out);
    PlainKeeps(cfg, s, out.0);
    DeleteBeginSnap(cfg, s, c, n, token, out);
    RemovalAdded(cfg, s.(db := out.0), Removal(token, c, n, out.1, Key(c, n) in s.db.replicas));
  }

  lemma DeleteBeginSnap(cfg: Config, s: State, c: Id, n: Id, token: Id, out: (Tables, DeleteSnap))
    requires Inv(cfg, s) && DeleteBegin(s.db, cfg, s.now, c, n, token) == Ok(out)
    ensures DeleteSnapFits(out.0, c, out.1) && c in s.ids
  {
    hide Balanced, HealthyNodes, Protected, SnapsFit, TicketsWait, TargetsHeld, MarksHeld, Registered;
    GoodRows(s.db);
  }

  lemma RemovalAdded(cfg: Config, s: State, r: Removal)
    requires Inv(cfg, s) && DeleteSnapFits(s.db, r.chunk, r.snap) && r.chunk in s.ids && r.token in s.jobs
    requires r.marked ==> Has(s.db, Key(r.chunk, r.node), Deleting)
    ensures Inv(cfg, s.(removals := s.removals + {r}))
  {
    hide Good, ConfirmSnapFits, RepairSnapFits, DeleteSnapFits, CheckFits, TicketFits, Waits;
    var u := s.(removals := s.removals + {r});
    assert Known(u) && Held(u) && SnapsFit(u) && TicketsWait(cfg, u) && TargetsHeld(u) && MarksHeld(u) && Registered(u);
  }

  lemma DeleteCommitKeeps(cfg: Config, s: State, r: Removal, u: Tables)
    requires Inv(cfg, s) && r in s.removals && DeleteCommit(s.db, s.now, r.chunk, r.node, r.token, r.snap) == Ok(u)
    ensures Inv(cfg, s.(db := u)) && Advances(s.db, u) && SameFleet(s.db, u)
  {
    hide Inv, Good, DeleteCommit, Advances, QueueMoves, KeepsRows, NoNewIds, SameFleet, DeleteSnapFits;
    InvGood(cfg, s);
    InvSnaps(cfg, s);
    DeleteCommitGood(s.db, s.now, r.chunk, r.node, r.token, r.snap, u);
    DeleteCommitMoves(s.db, cfg, s.now, r.chunk, r.node, r.token, r.snap, u);
    DeleteCommitFleet(s.db, s.now, r.chunk, r.node, r.token, r.snap, u);
    PlainKeeps(cfg, s, u);
  }

  lemma RepairBeginKeeps(cfg: Config, s: State, token: Id, pending: Option<Id>, order: seq<Id>, u: State)
    requires Inv(cfg, s) && RepairBeginStep(cfg, s, token, pending, order) == Some(u)
    ensures Inv(cfg, u) && Advances(s.db, u.db) && SameFleet(s.db, u.db)
  {
    hide Inv, Good, RepairBegin, Advances, QueueMoves, KeepsRows, NoNewIds, SameFleet, RepairSnapFits, PhaseOf;
    InvGood(cfg, s);
    var c := s.jobs[token].chunk;
    var out := RepairBegin(s.db, cfg, s.now, c, token, pending, order).value;
    RepairBeginGood(s.db, cfg, s.now, c, token, pending, order, out);
    RepairBeginMoves(s.db, cfg, s.now, c, token, pending, order, out);
    PlainKeeps(cfg, s, out.0);
    if out.1.Some? {
      RepairBeginSnap(s.db, cfg, s.now, c, token, pending, order, out);
      CopyAdded(cfg, s.(db := out.0), Copy(token, out.1.value));
    }
  }

  lemma RepairBeginSnap(t: Tables, cfg: Config, now: Time, c: Id, token: Id, pending: Option<Id>, order: seq<Id>,
                        out: (Tables, Option<RepairSnap>))
    requires Good(t) && PendingChoice(t, c, pending) && RepairBegin(t, cfg, now, c, token, pending, order) == Ok(out)
    requires out.1.Some?
    ensures RepairSnapFits(out.0, out.1.value) && Has(out.0, Key(c, out.1.value.target), Reserved)
    ensures out.1.value.chunk == c
  {
    hide HealthyNodes, Eligible, Good;
    if pending.None? {
      ReserveOne(t, cfg, now, c, t.chunks[c].length, Occupied(t, c), order);
    }
    PlainLinks(t, out.0);
    SamePhases(t, out.0);
  }

  lemma CopyAdded(cfg: Config, s: State, copy: Copy)
    requires Inv(cfg, s) && RepairSnapFits(s.db, copy.snap) && copy.token in s.jobs
    requires Has(s.db, Key(copy.snap.chunk, copy.snap.target), Reserved)
    ensures Inv(cfg, s.(copies := s.copies + {copy}))
  {
    hide Good, ConfirmSnapFits, RepairSnapFits, DeleteSnapFits, CheckFits, TicketFits, Waits;
    var u := s.(copies := s.copies + {copy});
    assert Known(u) && Held(u) && SnapsFit(u) && TicketsWait(cfg, u) && TargetsHeld(u) && MarksHeld(u) && Registered(u);
  }

  lemma RepairCommitKeeps(cfg: Config, s: State, copy: Copy, u: Tables)
    requires Inv(cfg, s) && copy in s.copies && RepairCommit(s.db, cfg, s.now, copy.token, copy.snap) == Ok(u)
    ensures Inv(cfg, s.(db := u)) && Advances(s.db, u) && SameFleet(s.db, u)
  {
    hide Inv, Good, RepairCommit, Advances, QueueMoves, KeepsRows, NoNewIds, SameFleet, RepairSnapFits;
    InvGood(cfg, s);
    InvSnaps(cfg, s);
    RepairFits(s.db, copy.snap);
    RepairCommitGood(s.db, cfg, s.now, copy.token, copy.snap, u);
    RepairCommitMoves(s.db, cfg, s.now, copy.token, copy.snap, u);
    RepairCommitFleet(s.db, cfg, s.now, copy.token, copy.snap, u);
    PlainKeeps(cfg, s, u);
  }

  lemma RepairFits(t: Tables, snap: RepairSnap)
    requires RepairSnapFits(t, snap)
    ensures snap.chunk in t.chunks
  {
  }

  // ---------------------------------------------------------------- every step, every run

  lemma StillAdvances(t: Tables)
    ensures Advances(t, t) && SameFleet(t, t)
  {
  }

  /** Each step keeps the invariant, makes only legal moves, and only a heartbeat registers anything. */
  lemma StepKeeps(cfg: Config, s: State, step: Step, u: State)
    requires cfg.Valid() && Inv(cfg, s) && Next(cfg, s, step) == Some(u)
    ensures Inv(cfg, u) && Advances(s.db, u.db)
    ensures step.OnHeartbeat? || SameFleet(s.db, u.db)
  {
    StillAdvances(s.db);
    hide Inv, Advances, SameFleet, InitStep, PrepareStep, ConfirmBeginStep, ClaimStep, DeleteBeginStep,
      RepairBeginStep, Retire, Linked, Complete, Cancel, Delete, BadReplica, ConfirmCommit, Heartbeat, GradeNodes,
      Enqueue, SettleRow, SettleListed, GiveBack, DeleteCommit, RepairCommit, HealthyNodes;
    match step
    case Tick(to) => TickKeeps(cfg, s, to);
    case OnInit(owner, size, oid, up, cids, orders) => InitKeeps(cfg, s, owner, size, oid, up, cids, orders, u);
    case OnPrepare(up, owner, seqNo, digest) => PrepareKeeps(cfg, s, up, owner, seqNo, digest, u);
    case OnComplete(up, owner) => CompleteKeeps(cfg, s, up, owner, u.db);
    case OnCancel(up, owner) => CancelKeeps(cfg, s, up, owner, u.db);
    case OnDelete(oid, owner) => DeleteKeeps(cfg, s, oid, owner, u.db);
    case OnBadReplica(oid, owner, c, n) => BadReplicaKeeps(cfg, s, oid, owner, c, n, u.db);
    case OnConfirmBegin(up, asking, seqNo) => ConfirmBeginKeeps(cfg, s, up, asking, seqNo, u);
    case OnConfirmCommit(snap) => ConfirmCommitKeeps(cfg, s, snap, u.db);
    case OnHeartbeat(b) => HeartbeatKeeps(cfg, s, b, u.db);
    case OnGrade => GradeKeeps(cfg, s);
    case OnExpire(up) => RetireKeeps(cfg, s, up, Expired);
    case OnNeedsRepair(c) => QueueRepairKeeps(cfg, s, c);
    case OnScan(n) => ScanKeeps(cfg, s, u.scans);
    case OnCheck(scan, c) => CheckKeeps(cfg, s, Check(scan, c, s.db.chunks[c].length, s.db.chunks[c].digest));
    case OnSettleRow(check, valid) => SettleRowKeeps(cfg, s, check, valid);
    case OnSettleListed(scan, c) => SettleListedKeeps(cfg, s, scan, c);
    case OnClaim(key, token) => ClaimKeeps(cfg, s, key, token, u);
    case OnGiveBack(token) => GiveBackKeeps(cfg, s, token);
    case OnDeleteBegin(token) => DeleteBeginKeeps(cfg, s, token, u);
    case OnDeleteCommit(r) => DeleteCommitKeeps(cfg, s, r, u.db);
    case OnRepairBegin(token, pending, order) => RepairBeginKeeps(cfg, s, token, pending, order, u);
    case OnRepairCommit(copy) => RepairCommitKeeps(cfg, s, copy, u.db);
  }

  /** The steps a user's request takes. */
  predicate Foreground(step: Step) {
    step.OnInit? || step.OnPrepare? || step.OnComplete? || step.OnCancel? || step.OnDelete? || step.OnBadReplica?
    || step.OnConfirmBegin? || step.OnConfirmCommit?
  }

  /** Between claims no task changes hands; only listings and new objects bring new ids. */
  lemma StepQueues(cfg: Config, s: State, step: Step, u: State)
    requires cfg.Valid() && Inv(cfg, s) && Next(cfg, s, step) == Some(u)
    ensures !step.OnClaim? ==> QueueMoves(s.db, u.db, cfg, s.now)
    ensures !step.OnInit? && !step.OnSettleListed? ==> NoNewIds(s.db, u.db)
  {
    hide Inv, Next, QueueMoves, NoNewIds, NoneSettled;
    if Foreground(step) {
      ForegroundQueues(cfg, s, step, u);
    } else {
      BackgroundQueues(cfg, s, step, u);
    }
  }

  lemma ForegroundQueues(cfg: Config, s: State, step: Step, u: State)
    requires cfg.Valid() && Inv(cfg, s) && Next(cfg, s, step) == Some(u)
    requires Foreground(step)
    ensures !step.OnClaim? ==> QueueMoves(s.db, u.db, cfg, s.now)
    ensures !step.OnInit? && !step.OnSettleListed? ==> NoNewIds(s.db, u.db)
  {
    InvGood(cfg, s);
    InvSnaps(cfg, s);
    NothingQueued(cfg, s.now, s.db);
    hide Inv, Good, Advances, QueueMoves, NoNewIds, KeepsRows, NoneSettled, SameFleet, ClaimStep, Linked, InitStep,
      PrepareStep, ConfirmBeginStep, DeleteBeginStep, RepairBeginStep, Retire, Complete, Cancel, Delete, BadReplica,
      ConfirmCommit, Heartbeat, GradeNodes, Enqueue, SettleRow, SettleListed, GiveBack, DeleteCommit, RepairCommit,
      HealthyNodes, ConfirmSnapFits, DeleteSnapFits;
    match step
    case OnInit(owner, size, oid, up, cids, orders) => InitQueues(cfg, s, owner, size, oid, up, cids, orders, u);
    case OnPrepare(up, owner, seqNo, digest) => PrepareQueues(cfg, s, up, owner, seqNo, digest, u);
    case OnComplete(up, owner) => PublishMoves(s.db, cfg, s.now, up, owner, u.db);
    case OnCancel(up, owner) => CancelQueues(cfg, s, up, owner, u.db);
    case OnDelete(oid, owner) => DeleteQueues(cfg, s, oid, owner, u.db);
    case OnBadReplica(oid, owner, c, n) => BadReplicaMoves(s.db, cfg, s.now, oid, owner, c, n, u.db);
    case OnConfirmBegin(up, asking, seqNo) => ConfirmBeginKeeps(cfg, s, up, asking, seqNo, u);
    case OnConfirmCommit(snap) => ConfirmMoves(s.db, cfg, s.now, snap, u.db);
    case _ =>
  }

  lemma BackgroundQueues(cfg: Config, s: State, step: Step, u: State)
    requires cfg.Valid() && Inv(cfg, s) && Next(cfg, s, step) == Some(u)
    requires !Foreground(step)
    ensures !step.OnClaim? ==> QueueMoves(s.db, u.db, cfg, s.now)
    ensures !step.OnInit? && !step.OnSettleListed? ==> NoNewIds(s.db, u.db)
  {
    InvGood(cfg, s);
    InvSnaps(cfg, s);
    NothingQueued(cfg, s.now, s.db);
    hide Inv, Good, Advances, QueueMoves, NoNewIds, KeepsRows, NoneSettled, SameFleet, ClaimStep, Linked, InitStep,
      PrepareStep, ConfirmBeginStep, DeleteBeginStep, RepairBeginStep, Retire, Complete, Cancel, Delete, BadReplica,
      ConfirmCommit, Heartbeat, GradeNodes, Enqueue, SettleRow, SettleListed, GiveBack, DeleteCommit, RepairCommit,
      HealthyNodes, ConfirmSnapFits, DeleteSnapFits, RepairSnapFits, CheckFits, Claimable;
    match step
    case OnHeartbeat(b) => HeartbeatMoves(s.db, cfg, s.now, b, u.db);
    case OnGrade => GradeMoves(s.db, cfg, s.now);
    case OnExpire(up) => RetireQueues(cfg, s, up, Expired);
    case OnNeedsRepair(c) =>
      EnqueueMoves(s.db, cfg, s.now, RepairOf(c), 0.0);
      QueueIds(s.db, RepairOf(c), 0.0);
    case OnSettleRow(check, valid) =>
      SettleRowMoves(s.db, cfg, s.now, check.scan.node, check.scan.volume, check.scan.instance, check.chunk,
                     check.length, valid);
    case OnSettleListed(scan, c) => SettleListedMoves(s.db, cfg, s.now, scan.node, scan.volume, c);
    case OnClaim(key, token) => ClaimIds(cfg, s, key, token, u);
    case OnGiveBack(token) => GiveBackMoves(s.db, cfg, s.now, s.jobs[token], token);
    case OnDeleteBegin(token) => DeleteBeginQueues(cfg, s, token, u);
    case OnDeleteCommit(r) => DeleteCommitMoves(s.db, cfg, s.now, r.chunk, r.node, r.token, r.snap, u.db);
    case OnRepairBegin(token, pending, order) => RepairBeginQueues(cfg, s, token, pending, order, u);
    case OnRepairCommit(copy) =>
      RepairFits(s.db, copy.snap);
      RepairCommitMoves(s.db, cfg, s.now, copy.token, copy.snap, u.db);
    case _ =>
  }

  lemma NothingQueued(cfg: Config, now: Time, t: Tables)
    ensures QueueMoves(t, t, cfg, now) && NoNewIds(t, t)
  {
  }

  lemma ClaimIds(cfg: Config, s: State, key: TaskKey, token: Id, u: State)
    requires ClaimStep(cfg, s, key, token) == Some(u)
    ensures NoNewIds(s.db, u.db)
  {
  }

  lemma InitQueues(cfg: Config, s: State, owner: Id, size: nat, oid: Id, up: Id, cids: seq<Id>, orders: seq<seq<Id>>,
                   u: State)
    requires cfg.Valid() && Inv(cfg, s) && InitStep(cfg, s, owner, size, oid, up, cids, orders) == Some(u)
    ensures QueueMoves(s.db, u.db, cfg, s.now) && NoneSettled(s.db, u.db)
    ensures forall key :: key in u.db.tasks ==> key in s.db.tasks
  {
    hide Good, Init, Advances, Held, SnapsFit, TicketsWait, TargetsHeld, MarksHeld, Registered;
    InitFresh(s, oid, up, cids);
    InitGood(s.db, cfg, s.now, owner, size, oid, up, cids, orders, u.db);
    SameTasksMove(s.db, u.db, cfg, s.now);
  }

  lemma PrepareQueues(cfg: Config, s: State, up: Id, owner: Id, seqNo: nat, digest: Digest, u: State)
    requires PrepareStep(cfg, s, up, owner, seqNo, digest) == Some(u)
    ensures QueueMoves(s.db, u.db, cfg, s.now) && NoneSettled(s.db, u.db) && NoNewIds(s.db, u.db)
  {
    hide Prepare, QueueMoves;
    PrepareMoves(s.db, cfg, s.now, up, owner, seqNo, digest, Prepare(s.db, cfg, s.now, up, owner, seqNo, digest).value);
  }

  lemma RetireQueues(cfg: Config, s: State, up: Id, state: UploadState)
    requires Inv(cfg, s) && up in s.db.uploads
    ensures var u := Retire(s.db, cfg, s.now, up, state);
            QueueMoves(s.db, u, cfg, s.now) && NoneSettled(s.db, u) && NoNewIds(s.db, u)
  {
    hide Inv, Good, Retire, QueueMoves, NoNewIds;
    InvGood(cfg, s);
    UploadOwned(s.db, up);
    RetireMoves(s.db, cfg, s.now, up, state);
    RetireIds(s.db, cfg, s.now, up, state);
  }

  lemma CancelQueues(cfg: Config, s: State, up: Id, owner: Id, u: Tables)
    requires Inv(cfg, s) && Cancel(s.db, cfg, s.now, up, owner) == Ok(u)
    ensures QueueMoves(s.db, u, cfg, s.now) && NoneSettled(s.db, u) && NoNewIds(s.db, u)
  {
    hide Inv, Retire, QueueMoves;
    SameTasksMove(s.db, s.db, cfg, s.now);
    if u != s.db {
      RetireQueues(cfg, s, up, Cancelled);
    }
  }

  lemma DeleteQueues(cfg: Config, s: State, oid: Id, owner: Id, u: Tables)
    requires Inv(cfg, s) && Delete(s.db, cfg, s.now, oid, owner) == Ok(u)
    ensures QueueMoves(s.db, u, cfg, s.now) && NoneSettled(s.db, u) && NoNewIds(s.db, u)
  {
    hide Inv, Retire, QueueMoves, UploadOf;
    UploadOfIsOne(s.db, oid);
    SameTasksMove(s.db, s.db, cfg, s.now);
    if u != s.db {
      RetireQueues(cfg, s, UploadOf(s.db, oid).value, Cancelled);
    }
  }

  lemma DeleteBeginQueues(cfg: Config, s: State, token: Id, u: State)
    requires Inv(cfg, s) && DeleteBeginStep(cfg, s, token) == Some(u)
    ensures QueueMoves(s.db, u.db, cfg, s.now) && NoneSettled(s.db, u.db) && NoNewIds(s.db, u.db)
  {
    hide Inv, Good, DeleteBegin, QueueMoves, NoNewIds;
    InvGood(cfg, s);
    var c, n := s.jobs[token].chunk, s.jobs[token].node;
    DeleteBeginMoves(s.db, cfg, s.now, c, n, token, DeleteBegin(s.db, cfg, s.now, c, n, token).value);
  }

  lemma RepairBeginQueues(cfg: Config, s: State, token: Id, pending: Option<Id>, order: seq<Id>, u: State)
    requires RepairBeginStep(cfg, s, token, pending, order) == Some(u)
    ensures QueueMoves(s.db, u.db, cfg, s.now) && NoneSettled(s.db, u.db) && NoNewIds(s.db, u.db)
  {
    hide RepairBegin, QueueMoves, NoNewIds;
    var c := s.jobs[token].chunk;
    RepairBeginMoves(s.db, cfg, s.now, c, token, pending, order,
                     RepairBegin(s.db, cfg, s.now, c, token, pending, order).value);
  }

  /** Apart from the two commits, no step settles a row. */
  lemma StepSettles(cfg: Config, s: State, step: Step, u: State)
    requires cfg.Valid() && Inv(cfg, s) && Next(cfg, s, step) == Some(u)
    requires !step.OnConfirmCommit? && !step.OnRepairCommit?
    ensures NoneSettled(s.db, u.db)
  {
    hide Inv, Next, QueueMoves, NoNewIds, NoneSettled;
    if Foreground(step) {
      ForegroundSettles(cfg, s, step, u);
    } else {
      BackgroundSettles(cfg, s, step, u);
    }
  }

  lemma ForegroundSettles(cfg: Config, s: State, step: Step, u: State)
    requires cfg.Valid() && Inv(cfg, s) && Next(cfg, s, step) == Some(u)
    requires !step.OnConfirmCommit? && !step.OnRepairCommit?
    requires Foreground(step)
    ensures NoneSettled(s.db, u.db)
  {
    InvGood(cfg, s);
    SameRowsMove(s.db, s.db);
    hide Inv, Good, Advances, QueueMoves, NoNewIds, KeepsRows, SameFleet, Linked, InitStep, PrepareStep,
      ConfirmBeginStep, DeleteBeginStep, RepairBeginStep, Retire, Complete, Cancel, Delete, BadReplica, ConfirmCommit,
      Heartbeat, GradeNodes, Enqueue, SettleRow, SettleListed, GiveBack, DeleteCommit, RepairCommit, HealthyNodes,
      NoneSettled;
    match step
    case OnInit(owner, size, oid, up, cids, orders) => InitQueues(cfg, s, owner, size, oid, up, cids, orders, u);
    case OnPrepare(up, owner, seqNo, digest) => PrepareQueues(cfg, s, up, owner, seqNo, digest, u);
    case OnComplete(up, owner) => PublishMoves(s.db, cfg, s.now, up, owner, u.db);
    case OnCancel(up, owner) => CancelQueues(cfg, s, up, owner, u.db);
    case OnDelete(oid, owner) => DeleteQueues(cfg, s, oid, owner, u.db);
    case OnBadReplica(oid, owner, c, n) => BadReplicaMoves(s.db, cfg, s.now, oid, owner, c, n, u.db);
    case OnConfirmBegin(up, asking, seqNo) => ConfirmBeginKeeps(cfg, s, up, asking, seqNo, u);
    case _ =>
  }

  lemma BackgroundSettles(cfg: Config, s: State, step: Step, u: State)
    requires cfg.Valid() && Inv(cfg, s) && Next(cfg, s, step) == Some(u)
    requires !step.OnConfirmCommit? && !step.OnRepairCommit?
    requires !Foreground(step)
    ensures NoneSettled(s.db, u.db)
  {
    InvGood(cfg, s);
    SameRowsMove(s.db, s.db);
    hide Inv, Good, Advances, QueueMoves, NoNewIds, KeepsRows, SameFleet, Linked, InitStep, PrepareStep,
      ConfirmBeginStep, DeleteBeginStep, RepairBeginStep, Retire, Complete, Cancel, Delete, BadReplica, ConfirmCommit,
      Heartbeat, GradeNodes, Enqueue, SettleRow, SettleListed, GiveBack, DeleteCommit, RepairCommit, HealthyNodes,
      NoneSettled;
    match step
    case OnHeartbeat(b) => HeartbeatMoves(s.db, cfg, s.now, b, u.db);
    case OnGrade => GradeMoves(s.db, cfg, s.now);
    case OnExpire(up) => RetireQueues(cfg, s, up, Expired);
    case OnNeedsRepair(c) =>
      EnqueueShape(s.db, RepairOf(c), 0.0);
      SameRowsMove(s.db, u.db);
    case OnSettleRow(check, valid) =>
      SettleRowMoves(s.db, cfg, s.now, check.scan.node, check.scan.volume, check.scan.instance, check.chunk,
                     check.length, valid);
    case OnSettleListed(scan, c) => SettleListedMoves(s.db, cfg, s.now, scan.node, scan.volume, c);
    case OnClaim(key, token) => SameRowsMove(s.db, u.db);
    case OnGiveBack(token) => GiveBackMoves(s.db, cfg, s.now, s.jobs[token], token);
    case OnDeleteBegin(token) => DeleteBeginQueues(cfg, s, token, u);
    case OnDeleteCommit(r) => DeleteCommitMoves(s.db, cfg, s.now, r.chunk, r.node, r.token, r.snap, u.db);
    case OnRepairBegin(token, pending, order) => RepairBeginQueues(cfg, s, token, pending, order, u);
    case _ =>
  }

  lemma StartHolds(cfg: Config)
    ensures Inv(cfg, START)
  {
  }

  /** The invariant holds throughout every run, whatever interleaves. */
  lemma {:induction false} RunKeeps(cfg: Config, s: State, steps: seq<Step>, u: State)
    requires cfg.Valid() && Inv(cfg, s) && Run(cfg, s, steps) == Some(u)
    ensures Inv(cfg, u)
    decreases |steps|
  {
    hide Inv, Next;
    if steps != [] {
      var after := Next(cfg, s, steps[0]).value;
      StepKeeps(cfg, s, steps[0], after);
      RunKeeps(cfg, after, steps[1..], u);
    }
  }
}
