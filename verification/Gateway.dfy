/** Gateways ask for a confirmation only after every write of a prepared chunk was acknowledged. While they do,
    whatever the service relies on has been acknowledged, so no crash at any moment costs it anything. */
module Gateway {
  import opened Schema
  import opened Transactions
  import opened Accounting
  import opened Invariants
  import opened Preservation
  import opened Lifecycle
  import opened Moves
  import opened Protocol
  import opened Runs
  import opened Confirmations
  import opened Resuming
  import opened Cluster

  /** All writes of one prepare request for the position were acknowledged. */
  ghost predicate Relayed(w: World, up: Id, seqNo: nat) {
    exists h :: h in w.handed && h.up == up && h.seqNo == seqNo && forall p :: p in h.positions ==> p in w.acked
  }

  /** A confirmation is asked for in turn: not before the gateway's writes were acknowledged. */
  ghost predicate InTurn(w: World, action: Action) {
    action.Serve? && action.step.OnConfirmBegin? ==> Relayed(w, action.step.up, action.step.seqNo)
  }

  ghost predicate AllInTurn(cfg: Config, w: World, actions: seq<Action>)
    requires cfg.Valid() && History(cfg, w, actions).Some?
    decreases |actions|
  {
    actions != [] ==> InTurn(w, actions[0]) && AllInTurn(cfg, Do(cfg, w, actions[0]).value, actions[1..])
  }

  // ---------------------------------------------------------------- the invariant

  /** The node has acknowledged the chunk and not removed it since. */
  predicate Durable(w: World, k: Key) {
    k.node in w.hosts && k.chunk in w.hosts[k.node].durable
  }

  ghost predicate Staged(w: World, c: Id) {
    PhaseOf(w.svc.db, c) == Some(Staging)
  }

  ghost predicate AckedDurable(w: World) {
    forall p :: p in w.acked && Staged(w, p.chunk) ==> Durable(w, Key(p.chunk, p.node))
  }

  /** What a prepare request handed out covers every replica of its chunk. */
  ghost predicate Covers(t: Tables, h: Handed) {
    && h.chunk in PiecesAt(t, h.up, h.seqNo) && (forall p :: p in h.positions ==> p.chunk == h.chunk)
    && (PhaseOf(t, h.chunk) == Some(Staging) ==> forall n :: Key(h.chunk, n) in t.replicas ==>
        n in TicketNodes(h.positions))
  }

  ghost predicate HandedCovers(w: World) {
    forall h :: h in w.handed ==> Covers(w.svc.db, h)
  }

  ghost predicate BegunDurable(w: World) {
    forall snap, p :: snap in w.svc.confirms && p in snap.positions && Staged(w, snap.chunk) ==>
        Durable(w, Key(snap.chunk, p.node))
  }

  ghost predicate DeliveredDurable(w: World) {
    forall copy :: copy in w.delivered && RunningWith(w.svc.db, RepairOf(copy.snap.chunk), copy.token)
      ==> Durable(w, Key(copy.snap.chunk, copy.snap.target))
  }

  ghost predicate ReliedDurable(w: World) {
    forall k: Key :: Relied(w, k) ==> Durable(w, k)
  }

  ghost predicate GatewayOk(w: World) {
    AckedDurable(w) && HandedCovers(w) && BegunDurable(w) && DeliveredDurable(w) && ReliedDurable(w)
  }

  // ---------------------------------------------------------------- service steps

  lemma CoverKept(t: Tables, u: Tables, h: Handed)
    requires Good(t) && Good(u) && Grows(t, u) && Covers(t, h)
    ensures Covers(u, h)
  {
    hide Good, PhaseOf, PiecesAt;
    PieceStays(t, u, h.up, h.seqNo, h.chunk);
    PieceLinked(t, h.up, h.seqNo, h.chunk);
    if PhaseOf(u, h.chunk) == Some(Staging) {
      StagingEarlier(t, u, h.chunk);
      forall n | Key(h.chunk, n) in u.replicas ensures n in TicketNodes(h.positions) {
        StagingRowsStay(t, u, h.chunk, n);
      }
    }
  }

  lemma PieceLinked(t: Tables, up: Id, i: nat, c: Id)
    requires Good(t) && c in PiecesAt(t, up, i)
    ensures c in t.chunks && Linked(t, c) && t.chunks[c].upload == up
  {
    hide Balanced, Pairs, Rows, Tasks, Counts, Pieces;
  }

  /** A served prepare request hands out a ticket for every replica of its chunk. */
  lemma PrepareCovers(t: Tables, cfg: Config, now: Time, up: Id, owner: Id, i: nat, digest: Digest,
                      out: (Tables, Id, seq<Ticket>))
    requires Good(t) && Good(out.0) && Prepare(t, cfg, now, up, owner, i, digest) == Ok(out)
    ensures Covers(out.0, Handed(up, i, out.1, out.2))
  {
    hide Good, Prepare, PiecesAt, PhaseOf, Linked, Positions, Assigned, TicketNodes;
    PrepareFixesPiece(t, cfg, now, up, owner, i, digest, out);
    PreparedPositions(t, cfg, now, up, owner, i, digest, out);
    var u, c := out.0, out.1;
    PieceLinked(u, up, i, c);
    PositionsCoverAssigned(u, cfg, now, up, c, u.chunks[c].length, digest, out.2);
    if PhaseOf(u, c) == Some(Staging) {
      StagingCount(u, c);
      forall n | Key(c, n) in u.replicas ensures n in TicketNodes(out.2) {
        AssignedIsAll(u, c, n);
      }
    }
  }

  lemma PreparedPositions(t: Tables, cfg: Config, now: Time, up: Id, owner: Id, i: nat, digest: Digest,
                          out: (Tables, Id, seq<Ticket>))
    requires Good(out.0) && Prepare(t, cfg, now, up, owner, i, digest) == Ok(out)
    ensures out.1 in out.0.chunks && Linked(out.0, out.1)
    ensures Positions(out.0, cfg, now, up, out.1, out.0.chunks[out.1].length, digest) == Ok(out.2)
    ensures |out.2| == ObjectOf(out.0, out.1).replicas
  {
    hide Good, Positions;
    PrepareFixesPiece(t, cfg, now, up, owner, i, digest, out);
    PieceLinked(out.0, up, i, out.1);
  }

  /** A confirmation asked for in turn begins with acknowledged positions only. */
  lemma BegunIsDurable(cfg: Config, w: World, up: Id, asking: Option<Id>, seqNo: nat, snap: ConfirmSnap)
    requires Inv(cfg, w.svc) && GatewayOk(w) && Relayed(w, up, seqNo)
    requires ConfirmBegin(w.svc.db, cfg, w.svc.now, up, asking, seqNo) == Ok(snap)
    ensures forall p :: p in snap.positions ==> Durable(w, Key(snap.chunk, p.node))
  {
    hide Inv, Good, Positions, Durable, Assigned, ConfirmBegin, ConfirmSnapFits, PiecesAt, BegunDurable,
      DeliveredDurable, ReliedDurable, PhaseOf;
    InvGood(cfg, w.svc);
    ConfirmBeginFacts(w.svc.db, cfg, w.svc.now, up, asking, seqNo, snap);
    BegunPiece(w.svc.db, cfg, w.svc.now, up, asking, seqNo, snap);
    PositionsCoverAssigned(w.svc.db, cfg, w.svc.now, up, snap.chunk, snap.length, snap.digest, snap.positions);
    var h :| h in w.handed && h.up == up && h.seqNo == seqNo && forall p :: p in h.positions ==> p in w.acked;
    assert Covers(w.svc.db, h);
    ChunkAtIs(w.svc.db, up, seqNo, h.chunk);
    ChunkAtIs(w.svc.db, up, seqNo, snap.chunk);
    forall p | p in snap.positions ensures Durable(w, Key(snap.chunk, p.node)) {
      AssignedHasRow(w.svc.db, snap.chunk, p.node);
      var q :| q in h.positions && q.node == p.node;
      assert q in w.acked && Staged(w, q.chunk);
    }
  }

  lemma BegunPiece(t: Tables, cfg: Config, now: Time, up: Id, asking: Option<Id>, seqNo: nat, snap: ConfirmSnap)
    requires ConfirmBegin(t, cfg, now, up, asking, seqNo) == Ok(snap)
    ensures snap.chunk in PiecesAt(t, up, seqNo)
  {
    hide Positions;
  }

  lemma AssignedHasRow(t: Tables, c: Id, n: Id)
    requires n in Assigned(t, c)
    ensures Key(c, n) in t.replicas
  {
  }

  lemma StagedBefore(cfg: Config, w: World, step: Step, v: World, c: Id)
    requires cfg.Valid() && WorldOk(cfg, w) && Do(cfg, w, Serve(step)) == Some(v) && Linked(w.svc.db, c) && Staged(v, c)
    ensures Staged(w, c)
  {
    hide Inv, FilesOk, FixedVolumes, QueuedRowsExist, Next, Grows, RowMoves, Linked, PhaseOf, SameFleet, HandedBy;
    StepKeeps(cfg, w.svc, step, v.svc);
    StagingEarlier(w.svc.db, v.svc.db, c);
  }

  lemma ServeAcked(cfg: Config, w: World, step: Step, v: World)
    requires cfg.Valid() && WorldOk(cfg, w) && AckedDurable(w) && Do(cfg, w, Serve(step)) == Some(v)
    ensures AckedDurable(v)
  {
    hide WorldOk, Next, HandedBy, Staged;
    TicketsFit(cfg, w);
    WorldRecorded(cfg, w);
    forall p | p in v.acked && Staged(v, p.chunk) ensures Durable(v, Key(p.chunk, p.node)) {
      StagedBefore(cfg, w, step, v, p.chunk);
    }
  }

  lemma ServeHanded(cfg: Config, w: World, step: Step, v: World)
    requires cfg.Valid() && WorldOk(cfg, w) && HandedCovers(w) && Do(cfg, w, Serve(step)) == Some(v)
    ensures HandedCovers(v)
  {
    hide Inv, FilesOk, FixedVolumes, QueuedRowsExist, Next, Grows, RowMoves, SameFleet, Covers, Good, Prepare;
    StepKeeps(cfg, w.svc, step, v.svc);
    InvGood(cfg, w.svc);
    InvGood(cfg, v.svc);
    forall h | h in v.handed ensures Covers(v.svc.db, h) {
      if h in w.handed {
        CoverKept(w.svc.db, v.svc.db, h);
      } else {
        HandedNow(cfg, w, step, v, h);
      }
    }
  }

  lemma HandedNow(cfg: Config, w: World, step: Step, v: World, h: Handed)
    requires cfg.Valid() && Do(cfg, w, Serve(step)) == Some(v) && Good(w.svc.db) && Good(v.svc.db)
    requires h in HandedBy(cfg, w, step)
    ensures Covers(v.svc.db, h)
  {
    hide Good, Prepare, Covers, Answered;
    var out := Prepare(w.svc.db, cfg, w.svc.now, step.up, step.owner, step.seqNo, step.digest).value;
    PrepareCovers(w.svc.db, cfg, w.svc.now, step.up, step.owner, step.seqNo, step.digest, out);
  }

  lemma ServeBegun(cfg: Config, w: World, step: Step, v: World)
    requires cfg.Valid() && WorldOk(cfg, w) && GatewayOk(w) && Do(cfg, w, Serve(step)) == Some(v)
    requires InTurn(w, Serve(step))
    ensures BegunDurable(v)
  {
    hide Inv, FilesOk, FixedVolumes, QueuedRowsExist, Next, HandedBy, Staged, ConfirmBegin, Relayed, Durable,
      ConfirmSnapFits, AckedDurable, HandedCovers, DeliveredDurable, ReliedDurable;
    InvSnaps(cfg, w.svc);
    ConfirmsBegun(cfg, w.svc, step, v.svc);
    SameHosts(w, v);
    forall snap, p | snap in v.svc.confirms && p in snap.positions && Staged(v, snap.chunk)
      ensures Durable(v, Key(snap.chunk, p.node))
    {
      if snap in w.svc.confirms {
        ConfirmFits(w.svc.db, snap);
        StagedBefore(cfg, w, step, v, snap.chunk);
        assert Durable(w, Key(snap.chunk, p.node));
      } else {
        BegunIsDurable(cfg, w, step.up, step.asking, step.seqNo, snap);
      }
    }
  }

  lemma SameHosts(w: World, v: World)
    requires v.hosts == w.hosts
    ensures forall k :: Durable(v, k) <==> Durable(w, k)
  {
  }

  lemma ServeDelivered(cfg: Config, w: World, step: Step, v: World)
    requires cfg.Valid() && WorldOk(cfg, w) && DeliveredDurable(w) && Do(cfg, w, Serve(step)) == Some(v)
    ensures DeliveredDurable(v)
  {
    hide Inv, FilesOk, FixedVolumes, QueuedRowsExist, Next, HandedBy, RunningWith;
    CopiesKnown(cfg, w.svc);
    forall copy | copy in v.delivered && RunningWith(v.svc.db, RepairOf(copy.snap.chunk), copy.token)
      ensures Durable(v, Key(copy.snap.chunk, copy.snap.target))
    {
      StillRunning(cfg, w.svc, step, v.svc, RepairOf(copy.snap.chunk), copy.token);
      assert Durable(w, Key(copy.snap.chunk, copy.snap.target));
    }
  }

  lemma ServeKeepsGateway(cfg: Config, w: World, step: Step, v: World)
    requires cfg.Valid() && WorldOk(cfg, w) && GatewayOk(w) && Do(cfg, w, Serve(step)) == Some(v)
    requires InTurn(w, Serve(step))
    ensures GatewayOk(v)
  {
    ServeAcked(cfg, w, step, v);
    ServeHanded(cfg, w, step, v);
    ServeBegun(cfg, w, step, v);
    ServeDelivered(cfg, w, step, v);
    hide WorldOk, AckedDurable, HandedCovers, BegunDurable, DeliveredDurable, Relied, Next, HandedBy;
    forall k: Key | Relied(v, k) ensures Durable(v, k) {
      ServeReliesOnAnswers(cfg, w, step, v, k);
    }
  }

  // ---------------------------------------------------------------- node steps

  /** Acknowledgements only accumulate, but for what is removed. */
  lemma DurableStays(cfg: Config, w: World, action: Action, v: World, k: Key)
    requires cfg.Valid() && Do(cfg, w, action) == Some(v) && !action.Serve? && Durable(w, k)
    ensures Durable(v, k) || (action.Remove? && k == Key(action.removal.chunk, action.removal.node))
  {
    hide Matches, Fenced;
  }

  /** What is removed is neither staged nor the target of a repair that may still be committed. */
  lemma RemovedIsNotNeeded(cfg: Config, w: World, r: Removal, after: World)
    requires cfg.Valid() && WorldOk(cfg, w) && Do(cfg, w, Remove(r)) == Some(after)
    ensures !Staged(w, r.chunk)
    ensures forall copy :: copy in w.delivered && copy.snap.chunk == r.chunk && copy.snap.target == r.node
              ==> !RunningWith(w.svc.db, RepairOf(r.chunk), copy.token)
  {
    hide Inv, FilesOk, FixedVolumes, QueuedRowsExist, PhaseOf, RunningWith, Fenced;
    RemovableIsUnused(cfg, w, r);
  }

  /** What changes besides the hosts. */
  lemma NodeRecords(cfg: Config, w: World, action: Action, v: World)
    requires cfg.Valid() && Do(cfg, w, action) == Some(v) && !action.Serve?
    ensures v.svc == w.svc && v.handed == w.handed
    ensures forall p :: p in v.acked ==>
                  p in w.acked || (action.Put? && p == action.ticket && Durable(v, Key(p.chunk, p.node)))
    ensures forall copy :: copy in v.delivered ==>
              (copy in w.delivered
               || (action.PutCopy? && copy == action.copy && Durable(v, Key(copy.snap.chunk, copy.snap.target))))
  {
    hide Matches, Fenced;
  }

  lemma NodeKeepsGateway(cfg: Config, w: World, action: Action, v: World)
    requires cfg.Valid() && WorldOk(cfg, w) && GatewayOk(w) && Do(cfg, w, action) == Some(v) && !action.Serve?
    ensures GatewayOk(v)
  {
    hide WorldOk, Do, Durable, Covers, RunningWith, PhaseOf, Relied;
    NodeRecords(cfg, w, action, v);
    if action.Remove? {
      RemovedIsNotNeeded(cfg, w, action.removal, v);
      RemovedIsNotRelied(cfg, w, action.removal, v);
    }
    forall p | p in v.acked && Staged(v, p.chunk) ensures Durable(v, Key(p.chunk, p.node)) {
      if p in w.acked {
        DurableStays(cfg, w, action, v, Key(p.chunk, p.node));
      }
    }
    forall snap, p | snap in v.svc.confirms && p in snap.positions && Staged(v, snap.chunk)
      ensures Durable(v, Key(snap.chunk, p.node))
    {
      DurableStays(cfg, w, action, v, Key(snap.chunk, p.node));
    }
    forall copy | copy in v.delivered && RunningWith(v.svc.db, RepairOf(copy.snap.chunk), copy.token)
      ensures Durable(v, Key(copy.snap.chunk, copy.snap.target))
    {
      if copy in w.delivered {
        DurableStays(cfg, w, action, v, Key(copy.snap.chunk, copy.snap.target));
      }
    }
    forall k: Key | Relied(v, k) ensures Durable(v, k) {
      NodeReliesOnAnswers(cfg, w, action, v, k);
      assert Durable(w, k);
      DurableStays(cfg, w, action, v, k);
    }
  }

  lemma ActionKeepsGateway(cfg: Config, w: World, action: Action, v: World)
    requires cfg.Valid() && WorldOk(cfg, w) && GatewayOk(w) && Do(cfg, w, action) == Some(v) && InTurn(w, action)
    ensures GatewayOk(v)
  {
    hide WorldOk, GatewayOk, Do, InTurn;
    if action.Serve? {
      ServeKeepsGateway(cfg, w, action.step, v);
    } else {
      NodeKeepsGateway(cfg, w, action, v);
    }
  }

  // ---------------------------------------------------------------- the theorems

  /** Whatever the service relies on has been acknowledged, so every crash is gentle. */
  lemma CrashesAreGentle(cfg: Config, w: World, action: Action, v: World)
    requires cfg.Valid() && WorldOk(cfg, w) && ReliedDurable(w) && Do(cfg, w, action) == Some(v)
    ensures Gentle(w, action)
  {
    hide WorldOk, Relied, Next, HandedBy, Matches;
    if action.Crash? {
      FileIsOk(cfg, w, action.node, 0);
      forall k: Key | k.node == action.node && Relied(w, k) ensures k.chunk in action.survivors {
        assert Durable(w, k);
      }
    }
  }

  lemma {:induction false} HistoryKeepsGateway(cfg: Config, w: World, actions: seq<Action>, v: World)
    requires cfg.Valid() && WorldOk(cfg, w) && GatewayOk(w) && History(cfg, w, actions) == Some(v)
    requires AllInTurn(cfg, w, actions)
    ensures GatewayOk(v) && Gently(cfg, w, actions)
    decreases |actions|
  {
    hide WorldOk, GatewayOk, Do, InTurn, Gentle, ReliedDurable;
    if actions != [] {
      var after := Do(cfg, w, actions[0]).value;
      GatewayRelies(w);
      CrashesAreGentle(cfg, w, actions[0], after);
      ActionKeeps(cfg, w, actions[0], after);
      ActionKeepsGateway(cfg, w, actions[0], after);
      HistoryKeepsGateway(cfg, after, actions[1..], v);
    }
  }

  lemma GatewayRelies(w: World)
    requires GatewayOk(w)
    ensures ReliedDurable(w)
  {
    hide AckedDurable, HandedCovers, BegunDurable, DeliveredDurable, ReliedDurable;
  }

  lemma FreshGateway(w: World)
    requires Fresh(w)
    ensures GatewayOk(w)
  {
  }

  /** With gateways that keep their turn and nodes that crash at any moment, every replica row marked valid is backed
      by a file that its node has acknowledged, with the chunk's recorded length and digest; the next crash will not
      take it. */
  lemma ValidReplicasSurviveCrashes(cfg: Config, w: World, actions: seq<Action>, v: World, k: Key)
    requires cfg.Valid() && Fresh(w) && History(cfg, w, actions) == Some(v) && AllInTurn(cfg, w, actions)
    requires k in v.svc.db.replicas && v.svc.db.replicas[k].state.Valid?
    ensures k.chunk in v.svc.db.chunks && v.svc.db.chunks[k.chunk].digest.Some? && Durable(v, k)
    ensures Holds(v, k.node, k.chunk, v.svc.db.chunks[k.chunk].length, v.svc.db.chunks[k.chunk].digest.value)
  {
    hide WorldOk, GatewayOk, History, Gently, AllInTurn, Holds, StatedFor, CopiedFor, Fresh;
    FreshHolds(cfg, w);
    FreshGateway(w);
    HistoryKeepsGateway(cfg, w, actions, v);
    ValidReplicasAreBacked(cfg, w, actions, v, k);
    GatewayRelies(v);
    assert Relied(v, k);
  }
}
