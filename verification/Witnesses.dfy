/** Concrete runs, step by step: one of the service that strands a reservation, one that overfills a node, and one of a
    cluster that loses a file because its write was never acknowledged. */
module Witnesses {
  import opened Octets
  import opened Schema
  import opened Transactions
  import opened Preservation
  import opened Moves
  import opened Protocol
  import opened Runs
  import opened Safety
  import opened Capacity
  import opened Stranding
  import opened Cluster

  const CFG := Config(1, 1, 2, {1, 2, 3}, 1000.0, 2.0, 2.0, 3.0, 40.0)
  const OWNER: Id := 7
  const OID: Id := 10
  const UP: Id := 11
  const CID: Id := 12
  const DATA: Bytes := [0]
  const DIGEST := Sha(DATA)

  function NodeAt(n: Id, heartbeat: Time, reserved: int, used: int): Node {
    Node(100 + n, 200 + n, heartbeat, 10, 10, reserved, used, Healthy)
  }

  function BeatOf(n: Id, at: Time): Beat {
    Beat(n, 100 + n, 200 + n, 10, 10, at)
  }

  function RowAt(n: Id, state: ReplicaState, charge: Charge): Replica {
    Replica(200 + n, state, charge)
  }

  const TWO_NODES := Tables(map[1 := NodeAt(1, 0.0, 0, 0), 2 := NodeAt(2, 0.0, 0, 0)], {}, map[], map[], map[], map[],
                            map[])

  // The object while it is uploaded.
  const PROMISED: map<Id, Node> := map[1 := NodeAt(1, 0.0, 1, 0), 2 := NodeAt(2, 0.0, 1, 0)]
  const STAGED: map<Id, Object> := map[OID := Object(OWNER, 1, 1, 2, Staging)]
  const OPENED: map<Id, Upload> := map[UP := Upload(OID, Uploading, 1000.0)]
  const BOTH_RESERVED: map<Key, Replica> :=
    map[Key(CID, 1) := RowAt(1, Reserved, ReservedCharge), Key(CID, 2) := RowAt(2, Reserved, ReservedCharge)]
  const CREATED :=
    Tables(PROMISED, {}, STAGED, OPENED, map[CID := Chunk(UP, 0, 1, None, PendingChunk)], BOTH_RESERVED, map[])
  const PREPARED :=
    Tables(PROMISED, {}, STAGED, OPENED, map[CID := Chunk(UP, 0, 1, Some(DIGEST), PendingChunk)], BOTH_RESERVED, map[])

  // The object once its chunk is confirmed.
  const IN_USE: map<Id, Node> := map[1 := NodeAt(1, 0.0, 0, 1), 2 := NodeAt(2, 0.0, 0, 1)]
  const WRITTEN: map<Id, Chunk> := map[CID := Chunk(UP, 0, 1, Some(DIGEST), ConfirmedChunk)]
  const BOTH_VALID: map<Key,
      Replica> := map[Key(CID, 1) := RowAt(1, Valid, UsedCharge), Key(CID, 2) := RowAt(2, Valid, UsedCharge)]
  const CONFIRMED := Tables(IN_USE, {}, STAGED, OPENED, WRITTEN, BOTH_VALID, map[])
  const SHOWN: map<Id, Object> := map[OID := Object(OWNER, 1, 1, 2, Published)]
  const CLOSED: map<Id, Upload> := map[UP := Upload(OID, Completed, 1000.0)]
  const PUBLISHED := Tables(IN_USE, {}, SHOWN, CLOSED, WRITTEN, BOTH_VALID, map[])

  // A third node joins, and a cleanup and a repair of the same replica overlap.
  const JOINED: map<Id, Node> := map[1 := NodeAt(1, 0.0, 0, 1), 2 := NodeAt(2, 0.0, 0, 1), 3 := NodeAt(3, 0.0, 0, 0)]
  const HEARD: map<Id, Node> := map[1 := NodeAt(1, 33.0, 0, 1), 2 := NodeAt(2, 33.0, 0, 1), 3 := NodeAt(3, 33.0, 0, 0)]
  const CHARGED: map<Id,
      Node> := map[1 := NodeAt(1, 33.0, 0, 1), 2 := NodeAt(2, 33.0, 0, 1), 3 := NodeAt(3, 33.0, 1, 0)]
  const ONE_BAD: map<Key,
      Replica> := map[Key(CID, 1) := RowAt(1, Bad, UsedCharge), Key(CID, 2) := RowAt(2, Valid, UsedCharge)]
  const QUEUED: map<TaskKey, Task> := map[DeleteOf(CID, 3) := Task(Pending, 32.0, None)]
  const REMOVING: map<TaskKey, Task> := map[DeleteOf(CID, 3) := Task(Running, 73.0, Some(20))]
  const THREE_NODES := Tables(JOINED, {}, SHOWN, CLOSED, WRITTEN, BOTH_VALID, map[])
  const LISTED := Tables(JOINED, {}, SHOWN, CLOSED, WRITTEN, BOTH_VALID, QUEUED)
  const AWAKE := Tables(HEARD, {}, SHOWN, CLOSED, WRITTEN, BOTH_VALID, QUEUED)
  const CLEANING := Tables(HEARD, {}, SHOWN, CLOSED, WRITTEN, BOTH_VALID, REMOVING)
  const REPORTED := Tables(HEARD, {}, SHOWN, CLOSED, WRITTEN, ONE_BAD,
                           REMOVING[RepairOf(CID) := Task(Pending, 0.0, None)])
  const BOTH_RUNNING: map<TaskKey, Task> := REMOVING[RepairOf(CID) := Task(Running, 73.0, Some(21))]
  const REPAIRING := Tables(HEARD, {}, SHOWN, CLOSED, WRITTEN, ONE_BAD, BOTH_RUNNING)
  const RESERVING :=
    Tables(CHARGED, {}, SHOWN, CLOSED, WRITTEN, ONE_BAD[Key(CID, 3) := RowAt(3, Reserved, ReservedCharge)],
           BOTH_RUNNING)
  const RELEASED :=
    Tables(HEARD, {}, SHOWN, CLOSED, WRITTEN, ONE_BAD[Key(CID, 3) := RowAt(3, Reserved, NoCharge)], BOTH_RUNNING)

  /** A reachable state, by its tables, its clock and the ids in use. */
  ghost predicate At(s: State, db: Tables, now: Time, ids: set<Id>) {
    Reachable(CFG, s) && s.db == db && s.now == now && s.ids == ids
  }

  const BEAT1 := OnHeartbeat(BeatOf(1, 0.0))
  const BEAT2 := OnHeartbeat(BeatOf(2, 0.0))
  const CREATE := OnInit(OWNER, 1, OID, UP, [CID], [[1, 2]])
  const PREPARE := OnPrepare(UP, OWNER, 0, DIGEST)
  const BEGIN := OnConfirmBegin(UP, Some(OWNER), 0)

  // The state after each of these steps.
  const S1 := START.(db := EMPTY.(nodes := map[1 := NodeAt(1, 0.0, 0, 0)]))
  const S2 := START.(db := TWO_NODES)
  const S3 := START.(db := CREATED, ids := {OID, UP, CID})

  function S4(ps: seq<Ticket>): State {
    S3.(db := PREPARED, tickets := set p | p in ps)
  }

  function SnapOf(ps: seq<Ticket>): ConfirmSnap {
    ConfirmSnap(UP, Some(OWNER), CID, 1, DIGEST, ps)
  }

  function S5(ps: seq<Ticket>): State {
    S4(ps).(confirms := {SnapOf(ps)})
  }

  function S6(ps: seq<Ticket>): State {
    S5(ps).(db := CONFIRMED)
  }

  lemma Beats()
    ensures Next(CFG, START, BEAT1) == Some(S1) && Next(CFG, S1, BEAT2) == Some(S2)
  {
    assert S1.db.nodes[2 := NodeAt(2, 0.0, 0, 0)] == TWO_NODES.nodes;
  }

  /** Placement takes the first node listed if it can. */
  lemma ReserveHere(t: Tables, n: Id, count: nat, order: seq<Id>)
    requires n in t.nodes && Eligible(t.nodes[n], CFG, 0.0, 1) && order != [] && order[0] == n && count > 0
    ensures var rest := Reserve(Place(t, CID, n, 1), CFG, 0.0, CID, 1, count - 1, {}, order[1..]);
            rest.Ok? ==> Reserve(t, CFG, 0.0, CID, 1, count, {}, order) == Ok((rest.value.0, [n] + rest.value.1))
    ensures count == 1 ==> Reserve(t, CFG, 0.0, CID, 1, count, {}, order) == Ok((Place(t, CID, n, 1), [n]))
  {
    hide Eligible, Place;
    assert [n] + [] == [n];
  }

  lemma Reserved2()
    ensures var t1 := TWO_NODES.(objects := CREATED.objects, uploads := CREATED.uploads, chunks := CREATED.chunks);
            Reserve(t1, CFG, 0.0, CID, 1, 2, {}, [1, 2]) == Ok((CREATED, [1, 2]))
  {
    var t1 := TWO_NODES.(objects := CREATED.objects, uploads := CREATED.uploads, chunks := CREATED.chunks);
    var t2 := Place(t1, CID, 1, 1);
    assert [1, 2][1..] == [2] && [2][1..] == [];
    assert t2.nodes == map[1 := NodeAt(1, 0.0, 1, 0), 2 := NodeAt(2, 0.0, 0, 0)];
    assert t2.replicas == map[Key(CID, 1) := RowAt(1, Reserved, ReservedCharge)];
    assert Place(t2, CID, 2, 1).nodes == CREATED.nodes;
    assert Place(t2, CID, 2, 1).replicas == CREATED.replicas;
    ReserveHere(t2, 2, 1, [2]);
    ReserveHere(t1, 1, 2, [1, 2]);
    assert [1] + [2] == [1, 2];
  }

  lemma Initialized()
    ensures PieceCount(1, 1) == 1 && Init(TWO_NODES, CFG, 0.0, OWNER, 1, OID, UP, [CID], [[1, 2]]) == Ok(CREATED)
  {
    hide Reserve;
    Reserved2();
    var t0 := TWO_NODES.(objects := CREATED.objects, uploads := CREATED.uploads);
    assert PieceLength(1, 1, 0) == 1 && PieceCount(1, 1) == 1;
    assert [CID][1..] == [] && [[1, 2]][1..] == [];
    assert PlaceChunks(CREATED, CFG, 0.0, UP, 1, 1, [], []) == Ok(CREATED);
    assert t0.chunks[CID := Chunk(UP, 0, 1, None, PendingChunk)] == CREATED.chunks;
    assert PlaceChunks(t0, CFG, 0.0, UP, 1, 0, [CID], [[1, 2]]) == Ok(CREATED);
  }

  lemma Creates()
    ensures Next(CFG, S2, CREATE) == Some(S3)
  {
    hide Init;
    Initialized();
    assert Next(CFG, S2, CREATE) == InitStep(CFG, S2, OWNER, 1, OID, UP, [CID], [[1, 2]]);
    assert {} + {OID, UP} + (set c | c in [CID]) == {OID, UP, CID};
  }

  lemma Created()
    ensures At(S3, CREATED, 0.0, {OID, UP, CID})
  {
    hide Run;
    StartIsReachable(CFG);
    Beats();
    ReachableOn(CFG, START, BEAT1, S1);
    ReachableOn(CFG, S1, BEAT2, S2);
    Creates();
    ReachableOn(CFG, S2, CREATE, S3);
  }

  lemma FirstPiece(t: Tables)
    requires t.chunks.Keys == {CID} && t.chunks[CID].upload == UP && t.chunks[CID].seqNo == 0
    ensures ChunkAt(t, UP, 0) == Some(CID) && ChunksOf(t, UP) == {CID}
  {
    assert PiecesAt(t, UP, 0) == {CID};
  }

  /** The tickets for both replicas, while both nodes have just been heard from. */
  predicate BothTickets(ps: seq<Ticket>) {
    && |ps| == 2 && TicketNodes(ps) == {1, 2}
    && ps[0] == Ticket(UP, CID, 1, DIGEST, 1, 201, 101, 2.0) && ps[1] == Ticket(UP, CID, 1, DIGEST, 2, 202, 102, 2.0)
  }

  lemma BothAssigned()
    ensures Assigned(PREPARED, CID) == {1, 2}
    ensures Positions(PREPARED, CFG, 0.0, UP, CID, 1, DIGEST).Ok?
  {
    assert Assigned(PREPARED, CID) == {1, 2};
  }

  lemma BothPositions() returns (ps: seq<Ticket>)
    ensures Positions(PREPARED, CFG, 0.0, UP, CID, 1, DIGEST) == Ok(ps) && BothTickets(ps)
  {
    hide Positions, Assigned, Live;
    BothAssigned();
    ps := Positions(PREPARED, CFG, 0.0, UP, CID, 1, DIGEST).value;
    PositionsCoverAssigned(PREPARED, CFG, 0.0, UP, CID, 1, DIGEST, ps);
    assert |{1, 2}| == 2;
    assert ps[0] in ps && ps[1] in ps && ps[0].node < ps[1].node;
  }

  lemma Prepares(ps: seq<Ticket>)
    requires Positions(PREPARED, CFG, 0.0, UP, CID, 1, DIGEST) == Ok(ps) && BothTickets(ps)
    ensures Next(CFG, S3, PREPARE) == Some(S4(ps))
  {
    hide Positions;
    FirstPiece(CREATED);
    assert CREATED.chunks[CID := CREATED.chunks[CID].(digest := Some(DIGEST))] == PREPARED.chunks;
    assert {} + (set p | p in ps) == (set p | p in ps);
  }

  lemma Begins(ps: seq<Ticket>)
    requires Positions(PREPARED, CFG, 0.0, UP, CID, 1, DIGEST) == Ok(ps) && BothTickets(ps)
    ensures Next(CFG, S4(ps), BEGIN) == Some(S5(ps))
  {
    hide Positions, TicketNodes;
    FirstPiece(PREPARED);
    assert (set p | p in ps) + (set p | p in ps) == (set p | p in ps) && {} + {SnapOf(ps)} == {SnapOf(ps)};
  }

  lemma Commits(ps: seq<Ticket>)
    requires Positions(PREPARED, CFG, 0.0, UP, CID, 1, DIGEST) == Ok(ps) && BothTickets(ps)
    ensures Next(CFG, S5(ps), OnConfirmCommit(SnapOf(ps))) == Some(S6(ps))
  {
    hide Positions, TicketNodes, ConvertRows;
    ConvertedBoth();
    assert PREPARED.chunks[CID := PREPARED.chunks[CID].(state := ConfirmedChunk)] == CONFIRMED.chunks;
  }

  lemma Confirmed() returns (s: State)
    ensures At(s, CONFIRMED, 0.0, {OID, UP, CID}) && s.jobs == map[]
  {
    hide Run, Next;
    Created();
    var ps := BothPositions();
    Prepares(ps);
    ReachableOn(CFG, S3, PREPARE, S4(ps));
    Begins(ps);
    Commits(ps);
    ReachableOn(CFG, S4(ps), BEGIN, S5(ps));
    s := S6(ps);
    ReachableOn(CFG, S5(ps), OnConfirmCommit(SnapOf(ps)), s);
  }

  lemma ConvertedBoth()
    ensures var u := ConvertRows(PREPARED, CID, 1, {1, 2});
            u == PREPARED.(nodes := CONFIRMED.nodes, replicas := CONFIRMED.replicas)
  {
  }

  lemma Completed1()
    ensures Complete(CONFIRMED, 0.0, UP, OWNER) == Ok(PUBLISHED)
  {
    hide ValidRows, ChunkAt, ChunksOf;
    FirstPiece(CONFIRMED);
    TwoValid();
    assert PieceCount(1, 1) == 1 && PieceLength(1, 1, 0) == 1;
    assert PieceReady(CONFIRMED, UP, 1, 1, 2, 0);
    assert PublishObject(CONFIRMED, UP).objects == PUBLISHED.objects
        && PublishObject(CONFIRMED, UP).uploads == PUBLISHED.uploads;
  }

  lemma TwoValid()
    ensures |ValidRows(CONFIRMED, CID)| == 2
  {
    assert ValidRows(CONFIRMED, CID) == {Key(CID, 1), Key(CID, 2)};
  }

  lemma Published1() returns (s: State)
    ensures At(s, PUBLISHED, 0.0, {OID, UP, CID}) && s.jobs == map[]
  {
    hide Run, Complete;
    var a := Confirmed();
    Completed1();
    s := Next(CFG, a, OnComplete(UP, OWNER)).value;
    ReachableOn(CFG, a, OnComplete(UP, OWNER), s);
  }

  /** The third node joins, and claims to have the chunk although there is no row for it. */
  lemma Listed() returns (s: State)
    ensures At(s, LISTED, 0.0, {OID, UP, CID}) && s.jobs == map[]
  {
    hide Run, HealthyNodes, SettleListed;
    var a := Published1();
    var b := Next(CFG, a, OnHeartbeat(BeatOf(3, 0.0))).value;
    ReachableOn(CFG, a, OnHeartbeat(BeatOf(3, 0.0)), b);
    assert b.db == THREE_NODES;
    var c := Next(CFG, b, OnScan(3)).value;
    ReachableOn(CFG, b, OnScan(3), c);
    var scan := Scan(3, 203, 103);
    ListedIs();
    s := Next(CFG, c, OnSettleListed(scan, CID)).value;
    ReachableOn(CFG, c, OnSettleListed(scan, CID), s);
    assert s.ids == {OID, UP, CID};
  }

  lemma ListedIs()
    ensures SettleListed(THREE_NODES, CFG, 0.0, 3, 203, CID) == LISTED
  {
    TwoHealthy(THREE_NODES, 0.0);
    hide HealthyNodes;
    assert map[][DeleteOf(CID, 3) := Task(Pending, 32.0, None)] == LISTED.tasks;
  }

  lemma TwoHealthy(t: Tables, now: Time)
    requires t.replicas == CONFIRMED.replicas && t.nodes.Keys == {1, 2, 3}
    requires t.nodes[1] == NodeAt(1, now, 0, 1) && t.nodes[2] == NodeAt(2, now, 0, 1)
    ensures |HealthyNodes(t, CFG, now, CID)| == 2
  {
    assert HealthyNodes(t, CFG, now, CID) == {1, 2};
  }

  /** Half a minute later all nodes are still there. */
  lemma Awake() returns (s: State)
    ensures At(s, AWAKE, 33.0, {OID, UP, CID}) && s.jobs == map[]
  {
    hide Run;
    var z := Listed();
    var a := Next(CFG, z, Tick(33.0)).value;
    ReachableOn(CFG, z, Tick(33.0), a);
    var b := Next(CFG, a, OnHeartbeat(BeatOf(1, 33.0))).value;
    ReachableOn(CFG, a, OnHeartbeat(BeatOf(1, 33.0)), b);
    var c := Next(CFG, b, OnHeartbeat(BeatOf(2, 33.0))).value;
    ReachableOn(CFG, b, OnHeartbeat(BeatOf(2, 33.0)), c);
    s := Next(CFG, c, OnHeartbeat(BeatOf(3, 33.0))).value;
    ReachableOn(CFG, c, OnHeartbeat(BeatOf(3, 33.0)), s);
    assert s.db.nodes == AWAKE.nodes;
  }

  lemma Claimed1() returns (s: State)
    ensures At(s, CLEANING, 33.0, {OID, UP, CID, 20}) && s.jobs == map[20 := DeleteOf(CID, 3)]
  {
    hide Run;
    var a := Awake();
    s := Next(CFG, a, OnClaim(DeleteOf(CID, 3), 20)).value;
    ReachableOn(CFG, a, OnClaim(DeleteOf(CID, 3), 20), s);
    assert s.db.tasks == REMOVING;
  }

  lemma NothingToMark()
    ensures DeleteBegin(CLEANING, CFG, 33.0, CID, 3, 20) == Ok((CLEANING, DeleteSnap(103, 203, Some(1))))
  {
    hide HealthyNodes;
    TwoHealthy(CLEANING, 33.0);
  }

  /** The cleanup begins; there is no row to mark. */
  lemma Cleaning() returns (s: State)
    ensures At(s, CLEANING, 33.0, {OID, UP, CID, 20}) && s.jobs == map[20 := DeleteOf(CID, 3)]
    ensures Removal(20, CID, 3, DeleteSnap(103, 203, Some(1)), false) in s.removals
  {
    hide Run, DeleteBegin;
    var a := Claimed1();
    NothingToMark();
    s := Next(CFG, a, OnDeleteBegin(20)).value;
    ReachableOn(CFG, a, OnDeleteBegin(20), s);
  }

  lemma Reported1()
    ensures BadReplica(CLEANING, OID, OWNER, CID, 1) == Ok(REPORTED)
  {
    var t := SetRow(CLEANING, Key(CID, 1), RowAt(1, Bad, UsedCharge));
    assert t.replicas == ONE_BAD;
  }

  /** A reader reports a replica, and a repair is under way. */
  lemma Repairing() returns (s: State)
    ensures At(s, REPAIRING, 33.0, {OID, UP, CID, 20, 21}) && 21 in s.jobs && s.jobs[21] == RepairOf(CID)
    ensures Removal(20, CID, 3, DeleteSnap(103, 203, Some(1)), false) in s.removals
  {
    hide Run, BadReplica;
    var a := Cleaning();
    Reported1();
    var b := Next(CFG, a, OnBadReplica(OID, OWNER, CID, 1)).value;
    ReachableOn(CFG, a, OnBadReplica(OID, OWNER, CID, 1), b);
    s := Next(CFG, b, OnClaim(RepairOf(CID), 21)).value;
    ReachableOn(CFG, b, OnClaim(RepairOf(CID), 21), s);
    assert s.db.tasks == BOTH_RUNNING;
  }

  /** It reserves the very row that was missing. */
  lemma Reserving() returns (s: State)
    ensures At(s, RESERVING, 33.0, {OID, UP, CID, 20, 21})
    ensures Removal(20, CID, 3, DeleteSnap(103, 203, Some(1)), false) in s.removals
  {
    hide Run, RepairBegin, PendingChoice;
    var a := Repairing();
    RepairReserves();
    s := Next(CFG, a, OnRepairBegin(21, None, [3])).value;
    ReachableOn(CFG, a, OnRepairBegin(21, None, [3]), s);
  }

  lemma Reserved3()
    ensures Reserve(REPAIRING, CFG, 33.0, CID, 1, 1, {1, 2}, [3]) == Ok((RESERVING, [3]))
  {
    var t := SetRow(REPAIRING, Key(CID, 3), RowAt(3, Reserved, ReservedCharge));
    assert AddToNode(t, 3, 1, 0).nodes == CHARGED;
    assert Place(REPAIRING, CID, 3, 1) == RESERVING;
    assert Reserve(RESERVING, CFG, 33.0, CID, 1, 0, {1, 2}, []) == Ok((RESERVING, []));
    assert [3][1..] == [] && [3] + [] == [3];
  }

  lemma RepairReserves()
    ensures PendingChoice(REPAIRING, CID, None)
    ensures var r := RepairBegin(REPAIRING, CFG, 33.0, CID, 21, None, [3]); r.Ok? && r.value.0 == RESERVING
  {
    assert HealthyNodes(REPAIRING, CFG, 33.0, CID) == {2};
    assert Occupied(REPAIRING, CID) == {1, 2};
    assert ReservedNodes(REPAIRING, CID) == {};
    hide HealthyNodes, Occupied, ReservedNodes, Reserve;
    Reserved3();
  }

  /** Stranding happens: a state is reachable in which the object is published, the chunk is one replica short, and the
      reservation made for it is charged to nobody. */
  lemma StrandingHappens() returns (s: State)
    ensures CFG.Valid() && Reachable(CFG, s) && Stranded(s.db, CID, 3)
    ensures PhaseOf(s.db, CID) == Some(Published) && NeedsRepair(s.db, CFG, s.now, CID)
  {
    hide Run, DeleteCommit;
    var a := Reserving();
    var r := Removal(20, CID, 3, DeleteSnap(103, 203, Some(1)), false);
    Released();
    s := Next(CFG, a, OnDeleteCommit(r)).value;
    ReachableOn(CFG, a, OnDeleteCommit(r), s);
    OneHealthy(s.db);
  }

  lemma Released()
    ensures var r := DeleteCommit(RESERVING, 33.0, CID, 3, 20, DeleteSnap(103, 203, Some(1)));
            r.Ok? && r.value == RELEASED.(tasks := r.value.tasks)
  {
    hide Uncharge;
    Uncharged3();
  }

  lemma OneHealthy(t: Tables)
    requires t.nodes.Keys == {1, 2, 3} && t.nodes[2] == NodeAt(2, 33.0, 0, 1)
    requires t.replicas.Keys == {Key(CID, 1), Key(CID, 2), Key(CID, 3)}
    requires t.replicas[Key(CID, 1)].state.Bad? && t.replicas[Key(CID, 2)] == RowAt(2, Valid, UsedCharge)
    requires t.replicas[Key(CID, 3)].state.Reserved?
    ensures |HealthyNodes(t, CFG, 33.0, CID)| == 1
  {
    assert HealthyNodes(t, CFG, 33.0, CID) == {2};
  }

  lemma Uncharged3()
    ensures Uncharge(RESERVING, Key(CID, 3), 1) == RELEASED
  {
    var t := AddToNode(RESERVING, 3, -1, 0);
    assert t.nodes == HEARD;
    assert SetRow(t, Key(CID, 3), RowAt(3, Reserved, NoCharge)).replicas == RELEASED.replicas;
  }

  /** Overfilling happens: a node that reports less capacity than it has promised is accepted. */
  lemma UnderReportIsAccepted() returns (s: State, step: Step, u: State)
    ensures CFG.Valid() && Reachable(CFG, s) && Bounded(s.db) && Next(CFG, s, step) == Some(u) && !Covers(s, step)
    ensures !Bounded(u.db)
  {
    hide Run;
    Created();
    s := S3;
    step := OnHeartbeat(Beat(1, 101, 201, 0, 0, 0.0));
    u := Next(CFG, s, step).value;
    assert !Fits(u.db.nodes[1]);
  }

  // ---------------------------------------------------------------- a file that was never acknowledged

  /** A world some history of a new cluster leads to. */
  ghost predicate Came(w: World) {
    exists start, actions :: Fresh(start) && History(CFG, start, actions) == Some(w)
  }

  lemma {:induction false} HistoryAppended(w: World, actions: seq<Action>, mid: World, action: Action, v: World)
    requires History(CFG, w, actions) == Some(mid) && Do(CFG, mid, action) == Some(v)
    ensures History(CFG, w, actions + [action]) == Some(v)
    decreases |actions|
  {
    hide Do;
    if actions == [] {
      assert ([] + [action])[1..] == [];
      assert History(CFG, v, []) == Some(v);
    } else {
      HistoryAppended(Do(CFG, w, actions[0]).value, actions[1..], mid, action, v);
      assert (actions + [action])[1..] == actions[1..] + [action];
    }
  }

  lemma CameOn(w: World, action: Action, v: World)
    requires Came(w) && Do(CFG, w, action) == Some(v)
    ensures Came(v)
  {
    hide Do, History, Fresh;
    var start, actions :| Fresh(start) && History(CFG, start, actions) == Some(w);
    HistoryAppended(start, actions, w, action, v);
  }

  lemma ServeOn(w: World, step: Step, u: State) returns (v: World)
    requires Came(w) && Answered(w, step) && Next(CFG, w.svc, step) == Some(u)
    ensures Came(v) && v == w.(svc := u, handed := v.handed)
  {
    hide Next, Came;
    v := Do(CFG, w, Serve(step)).value;
    CameOn(w, Serve(step), v);
  }

  const DISKS: map<Id, Host> := map[1 := Host(101, 201, map[], {}, {}), 2 := Host(102, 202, map[], {}, {})]

  lemma Prepared() returns (w: World, ps: seq<Ticket>)
    ensures Came(w) && w.svc == S4(ps) && w.hosts == DISKS && w.stated == {}
    ensures Positions(PREPARED, CFG, 0.0, UP, CID, 1, DIGEST) == Ok(ps) && BothTickets(ps)
  {
    hide Next, Positions, BothTickets;
    var start := World(START, DISKS, {}, {}, {}, {}, {}, {});
    assert History(CFG, start, []) == Some(start) && Came(start);
    hide Came;
    Beats();
    var a := ServeOn(start, BEAT1, S1);
    var b := ServeOn(a, BEAT2, S2);
    Creates();
    var c := ServeOn(b, CREATE, S3);
    ps := BothPositions();
    Prepares(ps);
    w := ServeOn(c, PREPARE, S4(ps));
  }

  function Unacknowledged(n: Id): Host {
    Host(100 + n, 200 + n, map[CID := DATA], {}, {(CID, DATA)})
  }

  lemma Written1(n: Id)
    ensures WrittenOn(Host(100 + n, 200 + n, map[], {}, {}), CID, DATA, false) == Unacknowledged(n)
  {
    assert map[][CID := DATA] == map[CID := DATA];
    assert {} + {(CID, DATA)} == {(CID, DATA)};
  }

  /** Both nodes write the chunk, and neither acknowledges it. */
  lemma Sent() returns (w: World, ps: seq<Ticket>)
    ensures Came(w) && w.svc == S4(ps) && w.hosts == map[1 := Unacknowledged(1), 2 := Unacknowledged(2)]
    ensures w.stated == {}
    ensures Positions(PREPARED, CFG, 0.0, UP, CID, 1, DIGEST) == Ok(ps) && BothTickets(ps)
  {
    hide Came, Positions, TicketNodes;
    var a;
    a, ps := Prepared();
    Written1(1);
    Written1(2);
    hide WrittenOn, Unacknowledged;
    var b := Do(CFG, a, Put(ps[0], DATA, false)).value;
    CameOn(a, Put(ps[0], DATA, false), b);
    assert b.hosts == map[1 := Unacknowledged(1), 2 := Host(102, 202, map[], {}, {})];
    w := Do(CFG, b, Put(ps[1], DATA, false)).value;
    CameOn(b, Put(ps[1], DATA, false), w);
  }

  /** They answer for it nevertheless, and the chunk is confirmed. */
  lemma ConfirmedUnacknowledged() returns (w: World)
    ensures Came(w) && w.svc.db == CONFIRMED && w.hosts == map[1 := Unacknowledged(1), 2 := Unacknowledged(2)]
  {
    hide Came, Positions, TicketNodes, Next;
    var a, ps := Sent();
    Begins(ps);
    Commits(ps);
    var snap := SnapOf(ps);
    var b := ServeOn(a, BEGIN, S5(ps));
    var c := Do(CFG, b, Stat(snap, ps[0])).value;
    CameOn(b, Stat(snap, ps[0]), c);
    var d := Do(CFG, c, Stat(snap, ps[1])).value;
    CameOn(c, Stat(snap, ps[1]), d);
    assert forall p :: p in ps ==> p == ps[0] || p == ps[1];
    w := ServeOn(d, OnConfirmCommit(snap), S6(ps));
  }

  /** Losing an unacknowledged file happens if a confirmation is asked for out of turn: the replica is valid and its
      file is there, and a crash takes it away. */
  lemma UnacknowledgedFileIsLost() returns (w: World, v: World)
    ensures CFG.Valid() && Came(w) && Do(CFG, w, Crash(1, map[])) == Some(v)
    ensures v.svc == w.svc && Has(v.svc.db, Key(CID, 1), Valid)
    ensures Stored(w, 1, CID) == Some(DATA) && Stored(v, 1, CID) == None
  {
    hide Came;
    w := ConfirmedUnacknowledged();
    v := Do(CFG, w, Crash(1, map[])).value;
  }
}
