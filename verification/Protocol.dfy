/** The metadata service as a protocol: requests, heartbeats, the maintenance scan, the reconciler and any
    number of leased workers interleave one transaction at a time. What a multi-step operation
    carries from one transaction to the next is part of the state, and may be used at any later moment,
    any number of times, or never. Whatever a node would have answered in between is left open. */
module Protocol {
  import opened Schema
  import opened Transactions
  import opened Accounting
  import opened Invariants
  import opened Preservation
  import opened Lifecycle
  import opened Moves

  /** What a worker remembers between the two transactions of a deletion. `marked` tells whether there was a row to
      mark. */
  datatype Removal = Removal(token: Id, chunk: Id, node: Id, snap: DeleteSnap, marked: bool)
  /** What a worker remembers between the two transactions of a repair. */
  datatype Copy = Copy(token: Id, snap: RepairSnap)
  /** A node as the reconciler saw it. */
  datatype Scan = Scan(node: Id, volume: Id, instance: Id)
  /** An unverified row the reconciler is about to ask its node about. */
  datatype Check = Check(scan: Scan, chunk: Id, length: nat, digest: Option<Digest>)

  datatype State = State(
    db: Tables, now: Time, ids: set<Id>, jobs: map<Id, TaskKey>,
    tickets: set<Ticket>, confirms: set<ConfirmSnap>, removals: set<Removal>, copies: set<Copy>,
    scans: set<Scan>, checks: set<Check>)

  const START := State(EMPTY, 0.0, {}, map[], {}, {}, {}, {}, {}, {})

  datatype Step =
    | Tick(to: Time)
    | OnInit(owner: Id, size: nat, oid: Id, up: Id, cids: seq<Id>, orders: seq<seq<Id>>)
    | OnPrepare(up: Id, owner: Id, seqNo: nat, digest: Digest)
    | OnComplete(up: Id, owner: Id)
    | OnCancel(up: Id, owner: Id)
    | OnDelete(oid: Id, owner: Id)
    | OnBadReplica(oid: Id, owner: Id, chunk: Id, node: Id)
    | OnConfirmBegin(up: Id, asking: Option<Id>, seqNo: nat)
    | OnConfirmCommit(confirm: ConfirmSnap)
    | OnHeartbeat(beat: Beat)
    | OnGrade
    | OnExpire(up: Id)
    | OnNeedsRepair(chunk: Id)
    | OnScan(node: Id)
    | OnCheck(scan: Scan, chunk: Id)
    | OnSettleRow(check: Check, valid: bool)
    | OnSettleListed(scan: Scan, chunk: Id)
    | OnClaim(task: TaskKey, token: Id)
    | OnGiveBack(token: Id)
    | OnDeleteBegin(token: Id)
    | OnDeleteCommit(removal: Removal)
    | OnRepairBegin(token: Id, pending: Option<Id>, order: seq<Id>)
    | OnRepairCommit(copy: Copy)

  // ---------------------------------------------------------------- steps

  function After(s: State, r: Result<Tables>): Option<State> {
    if r.Ok? then Some(s.(db := r.value)) else None
  }

  ghost predicate Unused(s: State, cids: seq<Id>) {
    Distinct(cids) && forall i :: 0 <= i < |cids| ==> cids[i] !in s.ids
  }

  ghost function InitStep(cfg: Config, s: State, owner: Id, size: nat, oid: Id, up: Id, cids: seq<Id>,
                          orders: seq<seq<Id>>): Option<State>
    requires cfg.Valid()
  {
    if && size <= cfg.chunk * cfg.maxChunks && |cids| == |orders| == PieceCount(size, cfg.chunk)
       && oid !in s.ids && up !in s.ids && Unused(s, cids)
       && (forall i :: 0 <= i < |orders| ==> Distinct(orders[i]))
    then After(s.(ids := s.ids + {oid, up} + (set c | c in cids)),
               Init(s.db, cfg, s.now, owner, size, oid, up, cids, orders))
    else None
  }

  ghost function PrepareStep(cfg: Config, s: State, up: Id, owner: Id, seqNo: nat, digest: Digest): Option<State> {
    match Prepare(s.db, cfg, s.now, up, owner, seqNo, digest)
    case Ok(out) => Some(s.(db := out.0, tickets := s.tickets + (set p | p in out.2)))
    case Fail(_) => None
  }

  ghost function ConfirmBeginStep(cfg: Config, s: State, up: Id, asking: Option<Id>, seqNo: nat): Option<State> {
    match ConfirmBegin(s.db, cfg, s.now, up, asking, seqNo)
    case Ok(snap) => Some(s.(confirms := s.confirms + {snap}, tickets := s.tickets + (set p | p in snap.positions)))
    case Fail(_) => None
  }

  function ScanStep(cfg: Config, s: State, n: Id): Option<State> {
    if n in s.db.nodes && Live(s.db.nodes[n], cfg, s.now)
    then Some(s.(scans := s.scans + {Scan(n, s.db.nodes[n].volume, s.db.nodes[n].instance)})) else None
  }

  function CheckStep(s: State, scan: Scan, c: Id): Option<State> {
    if scan in s.scans && Key(c, scan.node) in s.db.replicas && s.db.replicas[Key(c, scan.node)].state.Unverified?
        && c in s.db.chunks
    then Some(s.(checks := s.checks + {Check(scan, c, s.db.chunks[c].length, s.db.chunks[c].digest)})) else None
  }

  function ClaimStep(cfg: Config, s: State, key: TaskKey, token: Id): Option<State> {
    if Claimable(s.db, s.now, key) && token !in s.ids
    then Some(s.(db := Claim(s.db, cfg, s.now, key, token), ids := s.ids + {token}, jobs := s.jobs[token := key]))
        else None
  }

  function DeleteBeginStep(cfg: Config, s: State, token: Id): Option<State> {
    if token in s.jobs && s.jobs[token].DeleteOf? then
      var c, n := s.jobs[token].chunk, s.jobs[token].node;
      match DeleteBegin(s.db, cfg, s.now, c, n, token)
      case Ok(out) =>
        Some(s.(db := out.0, removals := s.removals + {Removal(token, c, n, out.1, Key(c, n) in s.db.replicas)}))
      case Fail(_) => None
    else None
  }

  ghost function RepairBeginStep(cfg: Config, s: State, token: Id, pending: Option<Id>, order: seq<Id>): Option<State> {
    if token in s.jobs && s.jobs[token].RepairOf? && PendingChoice(s.db, s.jobs[token].chunk, pending) then
      match RepairBegin(s.db, cfg, s.now, s.jobs[token].chunk, token, pending, order)
      case Ok(out) =>
        Some(s.(db := out.0, copies := if out.1.Some? then s.copies + {Copy(token, out.1.value)} else s.copies))
      case Fail(_) => None
    else None
  }

  /** One step of the service, or `None` where the step is impossible or its transaction rolls back. */
  ghost function Next(cfg: Config, s: State, step: Step): Option<State>
    requires cfg.Valid()
  {
    match step
    case Tick(to) => if s.now <= to then Some(s.(now := to)) else None
    case OnInit(owner, size, oid, up, cids, orders) => InitStep(cfg, s, owner, size, oid, up, cids, orders)
    case OnPrepare(up, owner, seqNo, digest) => PrepareStep(cfg, s, up, owner, seqNo, digest)
    case OnComplete(up, owner) => After(s, Complete(s.db, s.now, up, owner))
    case OnCancel(up, owner) => After(s, Cancel(s.db, cfg, s.now, up, owner))
    case OnDelete(oid, owner) => After(s, Delete(s.db, cfg, s.now, oid, owner))
    case OnBadReplica(oid, owner, c, n) => After(s, BadReplica(s.db, oid, owner, c, n))
    case OnConfirmBegin(up, asking, seqNo) => ConfirmBeginStep(cfg, s, up, asking, seqNo)
    case OnConfirmCommit(snap) => if snap in s.confirms then After(s, ConfirmCommit(s.db, cfg, s.now, snap)) else None
    case OnHeartbeat(b) => if b.readAt <= s.now then After(s, Heartbeat(s.db, cfg, b)) else None
    case OnGrade => Some(s.(db := GradeNodes(s.db, cfg, s.now)))
    case OnExpire(up) =>
      if Overdue(s.db, s.now, up) then Some(s.(db := Retire(s.db, cfg, s.now, up, Expired))) else None
    case OnNeedsRepair(c) =>
      if NeedsRepair(s.db, cfg, s.now, c) then Some(s.(db := Enqueue(s.db, RepairOf(c), 0.0))) else None
    case OnScan(n) => ScanStep(cfg, s, n)
    case OnCheck(scan, c) => CheckStep(s, scan, c)
    case OnSettleRow(check, valid) =>
      if check in s.checks
      then Some(s.(db := SettleRow(s.db, check.scan.node, check.scan.volume, check.scan.instance, check.chunk,
                                   check.length, valid)))
      else None
    case OnSettleListed(scan, c) =>
      if scan in s.scans
      then Some(s.(db := SettleListed(s.db, cfg, s.now, scan.node, scan.volume, c), ids := s.ids + {c})) else None
    case OnClaim(key, token) => ClaimStep(cfg, s, key, token)
    case OnGiveBack(token) =>
      if token in s.jobs then Some(s.(db := GiveBack(s.db, s.now, s.jobs[token], token))) else None
    case OnDeleteBegin(token) => DeleteBeginStep(cfg, s, token)
    case OnDeleteCommit(r) =>
      if r in s.removals then After(s, DeleteCommit(s.db, s.now, r.chunk, r.node, r.token, r.snap)) else None
    case OnRepairBegin(token, pending, order) => RepairBeginStep(cfg, s, token, pending, order)
    case OnRepairCommit(copy) =>
      if copy in s.copies then After(s, RepairCommit(s.db, cfg, s.now, copy.token, copy.snap)) else None
  }

  /** A whole run. */
  ghost function Run(cfg: Config, s: State, steps: seq<Step>): Option<State>
    requires cfg.Valid()
    decreases |steps|
  {
    if steps == [] then Some(s)
    else match Next(cfg, s, steps[0])
      case None => None
      case Some(after) => Run(cfg, after, steps[1..])
  }

  // ---------------------------------------------------------------- the invariant of the protocol

  ghost predicate Known(s: State) {
    && s.db.objects.Keys <= s.ids && s.db.uploads.Keys <= s.ids && s.db.chunks.Keys <= s.ids && s.jobs.Keys <= s.ids
    && (forall key :: key in s.db.tasks ==> key.chunk in s.ids)
    && (forall r :: r in s.removals ==> r.chunk in s.ids && r.token in s.jobs)
    && (forall copy :: copy in s.copies ==> copy.token in s.jobs)
  }

  /** A token names one task for ever. */
  ghost predicate Held(s: State) {
    forall key :: Holder(s.db, key).Some?
          ==> Holder(s.db, key).value in s.jobs && s.jobs[Holder(s.db, key).value] == key
  }

  ghost predicate SnapsFit(s: State) {
    && (forall snap :: snap in s.confirms ==> ConfirmSnapFits(s.db, snap))
    && (forall copy :: copy in s.copies ==> RepairSnapFits(s.db, copy.snap))
    && (forall r :: r in s.removals ==> DeleteSnapFits(s.db, r.chunk, r.snap))
    && (forall check :: check in s.checks ==> CheckFits(s.db, check))
  }

  predicate CheckFits(t: Tables, check: Check) {
    check.chunk in t.chunks && t.chunks[check.chunk].length == check.length
  }

  predicate TicketFits(t: Tables, p: Ticket) {
    && Linked(t, p.chunk) && t.chunks[p.chunk].upload == p.upload && t.chunks[p.chunk].length == p.length
    && t.chunks[p.chunk].digest == Some(p.digest) && Key(p.chunk, p.node) in t.replicas
  }

  /** A cleanup of the ticket's chunk waits for the ticket to run out. */
  predicate Waits(t: Tables, now: Time, p: Ticket, n: Id) {
    var key := DeleteOf(p.chunk, n);
    Open(t, key) ==> p.expires < now || (t.tasks[key].state.Pending? && p.expires < t.tasks[key].lease)
  }

  ghost predicate TicketsWait(cfg: Config, s: State) {
    && (forall p :: p in s.tickets ==> TicketFits(s.db, p) && p.expires <= s.now + cfg.authTtl)
    && (forall p, n :: p in s.tickets ==> Waits(s.db, s.now, p, n))
  }

  predicate RunningWith(t: Tables, key: TaskKey, token: Id) {
    key in t.tasks && t.tasks[key].state.Running? && t.tasks[key].token == Some(token)
  }

  /** While a worker may still commit a repair, its target stays reserved. */
  ghost predicate TargetsHeld(s: State) {
    forall copy :: copy in s.copies && RunningWith(s.db, RepairOf(copy.snap.chunk), copy.token)
      ==> Has(s.db, Key(copy.snap.chunk, copy.snap.target), Reserved)
  }

  /** While a worker may still issue a removal, the row it marked stays under deletion. */
  ghost predicate MarksHeld(s: State) {
    forall r :: r in s.removals && r.marked && RunningWith(s.db, DeleteOf(r.chunk, r.node), r.token)
      ==> Has(s.db, Key(r.chunk, r.node), Deleting)
  }

  /** A registered instance is never a retired one, and clocks only ran forward. */
  ghost predicate Registered(s: State) {
    && (forall n :: n in s.db.nodes
          ==> (n, s.db.nodes[n].instance) !in s.db.retired && s.db.nodes[n].heartbeat <= s.now)
    && (forall p :: p in s.db.retired ==> p.0 in s.db.nodes)
  }

  ghost predicate Inv(cfg: Config, s: State) {
    Good(s.db) && Known(s) && Held(s) && SnapsFit(s) && TicketsWait(cfg, s) && TargetsHeld(s) && MarksHeld(s)
        && Registered(s)
  }

  // ---------------------------------------------------------------- what every transaction preserves

  /** Everything the in-flight operations rely on, for a transaction that neither creates nor registers anything. */
  ghost predicate Orderly(cfg: Config, now: Time, t: Tables, u: Tables) {
    && Good(u) && Advances(t, u) && QueueMoves(t, u, cfg, now) && KeepsRows(t, u) && NoNewIds(t, u)
  }

  lemma HeldKept(cfg: Config, s: State, u: Tables)
    requires Held(s) && QueueMoves(s.db, u, cfg, s.now)
    ensures Held(s.(db := u))
  {
  }

  lemma SnapsKept(s: State, u: Tables)
    requires SnapsFit(s) && Known(s) && Advances(s.db, u)
    requires forall c :: c in u.chunks ==> c in s.db.chunks || c !in s.ids
    ensures SnapsFit(s.(db := u))
  {
    hide RowMoves;
    forall snap | snap in s.confirms ensures ConfirmSnapFits(u, snap) {
      ConfirmFitKept(s.db, u, snap);
    }
    forall copy | copy in s.copies ensures RepairSnapFits(u, copy.snap) {
      RepairFitKept(s.db, u, copy.snap);
    }
  }

  lemma LinkKept(t: Tables, u: Tables, c: Id)
    requires Grows(t, u) && Linked(t, c)
    ensures Linked(u, c) && ObjectIdOf(u, c) == ObjectIdOf(t, c) && ObjectEdge(ObjectOf(t, c), ObjectOf(u, c))
    ensures ChunkEdge(t.chunks[c], u.chunks[c])
  {
  }

  lemma ConfirmFitKept(t: Tables, u: Tables, snap: ConfirmSnap)
    requires Grows(t, u) && ConfirmSnapFits(t, snap)
    ensures ConfirmSnapFits(u, snap)
  {
    hide Linked, Grows;
    LinkKept(t, u, snap.chunk);
    LinkedChunk(t, snap.chunk);
    LinkedChunk(u, snap.chunk);
  }

  lemma LinkedChunk(t: Tables, c: Id)
    requires Linked(t, c)
    ensures c in t.chunks
  {
  }

  lemma RepairFitKept(t: Tables, u: Tables, snap: RepairSnap)
    requires Grows(t, u) && RepairSnapFits(t, snap)
    ensures RepairSnapFits(u, snap)
  {
    hide Linked, ObjectIdOf, ObjectOf;
    LinkKept(t, u, snap.chunk);
    LinkedChunk(t, snap.chunk);
    LinkedChunk(u, snap.chunk);
  }

  lemma TicketKept(t: Tables, u: Tables, p: Ticket)
    requires Grows(t, u) && TicketFits(t, p)
    ensures TicketFits(u, p)
  {
    hide Linked;
    LinkKept(t, u, p.chunk);
    LinkedChunk(t, p.chunk);
    LinkedChunk(u, p.chunk);
  }

  lemma WaitsKept(cfg: Config, now: Time, t: Tables, u: Tables, p: Ticket, n: Id)
    requires QueueMoves(t, u, cfg, now) && Waits(t, now, p, n) && p.expires <= now + cfg.authTtl
    ensures Waits(u, now, p, n)
  {
    if Open(u, DeleteOf(p.chunk, n)) {
      assert QueueMove(t, u, cfg, now, DeleteOf(p.chunk, n));
    }
  }

  lemma TicketsKept(cfg: Config, s: State, u: Tables)
    requires TicketsWait(cfg, s) && Advances(s.db, u) && QueueMoves(s.db, u, cfg, s.now)
    ensures TicketsWait(cfg, s.(db := u))
  {
    hide TicketFits, Waits, Grows, RowMoves, QueueMoves;
    forall p | p in s.tickets ensures TicketFits(u, p) {
      TicketKept(s.db, u, p);
    }
    forall p, n | p in s.tickets ensures Waits(u, s.now, p, n) {
      WaitsKept(cfg, s.now, s.db, u, p, n);
    }
  }

  lemma RunningKept(cfg: Config, now: Time, t: Tables, u: Tables, key: TaskKey, token: Id)
    requires QueueMoves(t, u, cfg, now) && RunningWith(u, key, token)
    ensures RunningWith(t, key, token) && Open(u, key)
  {
    assert QueueMove(t, u, cfg, now, key);
  }

  lemma HoldsKept(cfg: Config, s: State, u: Tables)
    requires TargetsHeld(s) && MarksHeld(s) && QueueMoves(s.db, u, cfg, s.now) && KeepsRows(s.db, u)
    ensures TargetsHeld(s.(db := u)) && MarksHeld(s.(db := u))
  {
    hide QueueMoves, RunningWith, Open, Has;
    forall copy | copy in s.copies && RunningWith(u, RepairOf(copy.snap.chunk), copy.token)
      ensures Has(u, Key(copy.snap.chunk, copy.snap.target), Reserved) {
      RunningKept(cfg, s.now, s.db, u, RepairOf(copy.snap.chunk), copy.token);
    }
    forall r | r in s.removals && r.marked && RunningWith(u, DeleteOf(r.chunk, r.node), r.token)
      ensures Has(u, Key(r.chunk, r.node), Deleting) {
      RunningKept(cfg, s.now, s.db, u, DeleteOf(r.chunk, r.node), r.token);
    }
  }

  lemma KnownKept(s: State, u: Tables)
    requires Known(s) && NoNewIds(s.db, u)
    ensures Known(s.(db := u))
  {
  }

  lemma FleetKept(s: State, u: Tables)
    requires Registered(s) && SameFleet(s.db, u)
    ensures Registered(s.(db := u))
  {
  }

  lemma OrderlyKeeps(cfg: Config, s: State, u: Tables)
    requires Inv(cfg, s) && Orderly(cfg, s.now, s.db, u) && Registered(s.(db := u))
    ensures Inv(cfg, s.(db := u))
  {
    hide Good, Advances, QueueMoves, KeepsRows, Known, Held, SnapsFit, TicketsWait, TargetsHeld, MarksHeld, Registered;
    KnownKept(s, u);
    HeldKept(cfg, s, u);
    NoNewChunks(s, u);
    SnapsKept(s, u);
    TicketsKept(cfg, s, u);
    HoldsKept(cfg, s, u);
  }

  lemma NoNewChunks(s: State, u: Tables)
    requires NoNewIds(s.db, u)
    ensures forall c :: c in u.chunks ==> c in s.db.chunks || c !in s.ids
  {
  }

  lemma PlainKeeps(cfg: Config, s: State, u: Tables)
    requires Inv(cfg, s) && Orderly(cfg, s.now, s.db, u) && SameFleet(s.db, u)
    ensures Inv(cfg, s.(db := u))
  {
    hide Good, Orderly, Known, Held, SnapsFit, TicketsWait, TargetsHeld, MarksHeld, Registered, SameFleet;
    FleetKept(s, u);
    OrderlyKeeps(cfg, s, u);
  }
}
