/** The service together with the disks of its nodes. Requests to a node are steps of their own that take effect
    at any moment, or never, and a node may crash at any moment: it then comes back with every file it has acknowledged
    and, of the others it ever had, with any. Nodes answer truthfully, disks do not rot and no node swaps its volume.
    One rule ties a request to its task: a removal takes effect within the lease of the task that issued it. */
module Cluster {
  import opened Octets
  import opened Schema
  import opened Transactions
  import opened Accounting
  import opened Invariants
  import opened Preservation
  import opened Lifecycle
  import opened Moves
  import opened Protocol
  import opened Runs
  import opened Safety
  import opened Confirmations
  import opened Stranding

  /** A storage process and its directory: the files it has, those it has acknowledged, and all it ever had. */
  datatype Host = Host(instance: Id, volume: Id, files: map<Id, Bytes>, durable: set<Id>, past: set<(Id, Bytes)>)

  /** What a served prepare request handed out. */
  datatype Handed = Handed(up: Id, seqNo: nat, chunk: Id, positions: seq<Ticket>)

  /** `stated`, `delivered`, `copied` and `listed` record the successful answers: a confirmation's `stat` of one
      position, a repair's acknowledged write and its `stat` of the target, an id in a node's inventory. `handed` and
      `acked` record what gateways were handed and which of their writes were acknowledged. */
  datatype World = World(
    svc: State, hosts: map<Id, Host>, stated: set<(ConfirmSnap, Ticket)>, delivered: set<Copy>, copied: set<Copy>,
    listed: set<(Scan, Id)>, handed: set<Handed>, acked: set<Ticket>)

  datatype Action =
    | Serve(step: Step)
    | Put(ticket: Ticket, data: Bytes, acked: bool)
    | PutCopy(copy: Copy, data: Bytes, acked: bool)
    | Stat(snap: ConfirmSnap, position: Ticket)
    | StatCopy(copy: Copy)
    | List(scan: Scan, chunk: Id)
    | Remove(removal: Removal)
    | Restart(node: Id, instance: Id)
    | Crash(node: Id, survivors: map<Id, Bytes>)

  // ---------------------------------------------------------------- what a node does

  function Stored(w: World, n: Id, c: Id): Option<Bytes> {
    if n in w.hosts && c in w.hosts[n].files then Some(w.hosts[n].files[c]) else None
  }

  predicate Matches(data: Bytes, length: nat, digest: Digest) {
    |data| == length && Sha(data) == digest
  }

  predicate Holds(w: World, n: Id, c: Id, length: nat, digest: Digest) {
    Stored(w, n, c).Some? && Matches(Stored(w, n, c).value, length, digest)
  }

  /** A file that is already there is only compared, never changed. */
  predicate Accepts(host: Host, c: Id, data: Bytes) {
    c in host.files ==> host.files[c] == data
  }

  /** An accepted write puts the file in place; once it is acknowledged, no crash takes it away. */
  function WrittenOn(host: Host, c: Id, data: Bytes, acked: bool): Host {
    host.(files := host.files[c := data], durable := if acked then host.durable + {c} else host.durable,
          past := host.past + {(c, data)})
  }

  function RemovedFrom(host: Host, c: Id): Host {
    host.(files := host.files - {c}, durable := host.durable - {c})
  }

  /** What a crash may leave: all acknowledged files, and of the rest anything that was once there. */
  predicate Survives(host: Host, survivors: map<Id, Bytes>) {
    && (forall c :: c in host.durable && c in host.files ==> c in survivors && survivors[c] == host.files[c])
    && (forall c :: c in survivors ==> (c, survivors[c]) in host.past)
  }

  function Written(w: World, n: Id, c: Id, data: Bytes, acked: bool): World
    requires n in w.hosts
  {
    w.(hosts := w.hosts[n := WrittenOn(w.hosts[n], c, data, acked)])
  }

  function Removed(w: World, n: Id, c: Id): World
    requires n in w.hosts
  {
    w.(hosts := w.hosts[n := RemovedFrom(w.hosts[n], c)])
  }

  predicate AtHost(w: World, n: Id, volume: Id, instance: Id) {
    n in w.hosts && w.hosts[n].volume == volume && w.hosts[n].instance == instance
  }

  /** The service steps whose nodes have answered. */
  predicate Answered(w: World, step: Step) {
    match step
    case OnHeartbeat(b) => b.node in w.hosts && b.volume == w.hosts[b.node].volume
    case OnConfirmCommit(snap) => forall p :: p in snap.positions ==> (snap, p) in w.stated
    case OnRepairCommit(copy) => copy in w.copied
    case OnSettleListed(scan, c) => (scan, c) in w.listed
    case _ => true
  }

  ghost function HandedBy(cfg: Config, w: World, step: Step): set<Handed> {
    if !step.OnPrepare? then {}
    else match Prepare(w.svc.db, cfg, w.svc.now, step.up, step.owner, step.seqNo, step.digest)
      case Ok(out) => {Handed(step.up, step.seqNo, out.1, out.2)}
      case Fail(_) => {}
  }

  ghost function Do(cfg: Config, w: World, action: Action): Option<World>
    requires cfg.Valid()
  {
    match action
    case Serve(step) =>
      if Answered(w, step) && Next(cfg, w.svc, step).Some?
      then Some(w.(svc := Next(cfg, w.svc, step).value, handed := w.handed + HandedBy(cfg, w, step))) else None
    case Put(p, data, acked) =>
      if && p in w.svc.tickets && AtHost(w, p.node, p.volume, p.instance) && w.svc.now <= p.expires
          && Matches(data, p.length, p.digest)
         && Accepts(w.hosts[p.node], p.chunk, data)
      then Some(Written(w, p.node, p.chunk, data, acked).(acked := if acked then w.acked + {p} else w.acked)) else None
    case PutCopy(copy, data, acked) =>
      if && copy in w.svc.copies && AtHost(w, copy.snap.target, copy.snap.volume, copy.snap.instance)
         && copy.snap.digest.Some? && Matches(data, copy.snap.length, copy.snap.digest.value)
         && Accepts(w.hosts[copy.snap.target], copy.snap.chunk, data)
      then Some(Written(w, copy.snap.target, copy.snap.chunk, data, acked).(
                  delivered := if acked then w.delivered + {copy} else w.delivered))
      else None
    case Stat(snap, p) =>
      if snap in w.svc.confirms && p in snap.positions && Holds(w, p.node, snap.chunk, snap.length, snap.digest)
      then Some(w.(stated := w.stated + {(snap, p)})) else None
    case StatCopy(copy) =>
      if && copy in w.delivered && copy.snap.digest.Some?
         && Holds(w, copy.snap.target, copy.snap.chunk, copy.snap.length, copy.snap.digest.value)
      then Some(w.(copied := w.copied + {copy})) else None
    case List(scan, c) =>
      if scan in w.svc.scans && Stored(w, scan.node, c).Some? then Some(w.(listed := w.listed + {(scan, c)})) else None
    case Remove(r) =>
      if && r in w.svc.removals && AtHost(w, r.node, r.snap.volume, r.snap.instance)
         && Fenced(w.svc.db, w.svc.now, DeleteOf(r.chunk, r.node), r.token)
      then Some(Removed(w, r.node, r.chunk)) else None
    case Restart(n, instance) =>
      if n in w.hosts then Some(w.(hosts := w.hosts[n := w.hosts[n].(instance := instance)])) else None
    case Crash(n, survivors) =>
      if n in w.hosts && Survives(w.hosts[n], survivors)
      then Some(w.(hosts := w.hosts[n := w.hosts[n].(files := survivors)])) else None
  }

  ghost function History(cfg: Config, w: World, actions: seq<Action>): Option<World>
    requires cfg.Valid()
    decreases |actions|
  {
    if actions == [] then Some(w)
    else match Do(cfg, w, actions[0])
      case None => None
      case Some(after) => History(cfg, after, actions[1..])
  }

  /** A new cluster: an empty service and empty disks. */
  predicate Fresh(w: World) {
    && w.svc == START && w.stated == {} && w.delivered == {} && w.copied == {} && w.listed == {} && w.handed == {}
    && w.acked == {}
    && forall n :: n in w.hosts ==> w.hosts[n].files == map[] && w.hosts[n].durable == {} && w.hosts[n].past == {}
  }

  // ---------------------------------------------------------------- the invariant

  /** What a file may hold: a known chunk that has a replica row, with its recorded length and digest. */
  predicate FileOk(t: Tables, n: Id, c: Id, data: Bytes) {
    && Key(c, n) in t.replicas && c in t.chunks && t.chunks[c].digest.Some?
    && Matches(data, t.chunks[c].length, t.chunks[c].digest.value)
  }

  /** Acknowledged files are there, and everything a node ever had is as it should be. */
  ghost predicate HostOk(t: Tables, n: Id, host: Host) {
    && host.durable <= host.files.Keys
    && (forall c :: c in host.files ==> (c, host.files[c]) in host.past)
    && (forall pair :: pair in host.past ==> FileOk(t, n, pair.0, pair.1))
  }

  ghost predicate FilesOk(w: World) {
    forall n :: n in w.hosts ==> HostOk(w.svc.db, n, w.hosts[n])
  }

  ghost predicate FixedVolumes(w: World) {
    forall n :: n in w.svc.db.nodes ==> n in w.hosts && w.svc.db.nodes[n].volume == w.hosts[n].volume
  }

  ghost predicate QueuedRowsExist(w: World) {
    && (forall key :: key in w.svc.db.tasks && key.DeleteOf? ==> Key(key.chunk, key.node) in w.svc.db.replicas)
    && (forall pair :: pair in w.listed ==> Key(pair.1, pair.0.node) in w.svc.db.replicas)
    && (forall r :: r in w.svc.removals ==> r.marked)
  }

  /** Answers are answers to requests that were made. */
  ghost predicate Recorded(w: World) {
    && (forall pair :: pair in w.stated ==> pair.0 in w.svc.confirms && pair.1 in pair.0.positions)
    && w.copied <= w.delivered <= w.svc.copies && w.acked <= w.svc.tickets
  }

  ghost predicate WorldOk(cfg: Config, w: World) {
    Inv(cfg, w.svc) && FilesOk(w) && FixedVolumes(w) && QueuedRowsExist(w) && Recorded(w)
  }

  // ---------------------------------------------------------------- service steps

  lemma FilesKept(w: World, u: Tables)
    requires FilesOk(w) && Grows(w.svc.db, u)
    ensures forall n :: n in w.hosts ==> HostOk(u, n, w.hosts[n])
  {
    hide Grows, Matches;
    forall n | n in w.hosts ensures HostOk(u, n, w.hosts[n]) {
      forall pair | pair in w.hosts[n].past ensures FileOk(u, n, pair.0, pair.1) {
        FileKept(w.svc.db, u, n, pair.0, pair.1);
      }
    }
  }

  lemma FileKept(t: Tables, u: Tables, n: Id, c: Id, data: Bytes)
    requires Grows(t, u) && FileOk(t, n, c, data)
    ensures FileOk(u, n, c, data)
  {
  }

  lemma ServeFiles(cfg: Config, w: World, step: Step, v: World)
    requires cfg.Valid() && WorldOk(cfg, w) && Do(cfg, w, Serve(step)) == Some(v)
    ensures FilesOk(v) && FixedVolumes(v)
  {
    hide Inv, QueuedRowsExist, Next, Grows, RowMoves, Matches, Heartbeat;
    StepKeeps(cfg, w.svc, step, v.svc);
    FilesKept(w, v.svc.db);
    if step.OnHeartbeat? {
      BeatVolumes(cfg, w, step, v);
    }
  }

  lemma BeatVolumes(cfg: Config, w: World, step: Step, v: World)
    requires cfg.Valid() && FixedVolumes(w) && step.OnHeartbeat? && Do(cfg, w, Serve(step)) == Some(v)
    ensures FixedVolumes(v)
  {
  }

  lemma ServeQueued(cfg: Config, w: World, step: Step, v: World)
    requires cfg.Valid() && WorldOk(cfg, w) && Do(cfg, w, Serve(step)) == Some(v)
    ensures QueuedRowsExist(v)
  {
    hide Inv, Good, FilesOk, FixedVolumes, Next, InitStep, SettleListed, QueueMoves, RowMoves;
    StepKeeps(cfg, w.svc, step, v.svc);
    RemovalsMarked(cfg, w, step, v);
    if step.OnInit? {
      NewObjectQueues(cfg, w.svc, step, v.svc);
    } else if step.OnSettleListed? {
      ListedQueues(cfg, w.svc, step, v.svc);
    } else {
      StepQueues(cfg, w.svc, step, v.svc);
    }
  }

  lemma NewObjectQueues(cfg: Config, s: State, step: Step, u: State)
    requires cfg.Valid() && Inv(cfg, s) && step.OnInit? && Next(cfg, s, step) == Some(u)
    ensures forall key :: key in u.db.tasks ==> key in s.db.tasks
  {
    hide Inv, InitStep;
    InitQueues(cfg, s, step.owner, step.size, step.oid, step.up, step.cids, step.orders, u);
  }

  lemma ListedQueues(cfg: Config, s: State, step: Step, u: State)
    requires cfg.Valid() && step.OnSettleListed? && Next(cfg, s, step) == Some(u)
    ensures forall key :: key in u.db.tasks ==> key in s.db.tasks || key == DeleteOf(step.chunk, step.scan.node)
  {
    hide SettleListed;
    SettleListedMoves(s.db, cfg, s.now, step.scan.node, step.scan.volume, step.chunk);
  }

  lemma RemovalsMarked(cfg: Config, w: World, step: Step, v: World)
    requires cfg.Valid() && QueuedRowsExist(w) && Do(cfg, w, Serve(step)) == Some(v)
    ensures forall r :: r in v.svc.removals ==> r.marked
  {
    hide InitStep, PrepareStep, ConfirmBeginStep, RepairBeginStep, Retire, Complete, Cancel, Delete, BadReplica,
      ConfirmCommit, Heartbeat, GradeNodes, Enqueue, SettleRow, SettleListed, GiveBack, DeleteCommit, RepairCommit,
      NeedsRepair, DeleteBeginStep;
    match step
    case OnInit(owner, size, oid, up, cids, orders) =>
      InitCarries(cfg, w.svc, owner, size, oid, up, cids, orders, v.svc);
    case OnPrepare(up, owner, seqNo, digest) => PrepareCarries(cfg, w.svc, up, owner, seqNo, digest, v.svc);
    case OnConfirmBegin(up, asking, seqNo) => ConfirmCarries(cfg, w.svc, up, asking, seqNo, v.svc);
    case OnRepairBegin(token, pending, order) => RepairCarries(cfg, w.svc, token, pending, order, v.svc);
    case OnDeleteBegin(token) => DeleteMarks(cfg, w.svc, token, v.svc);
    case _ =>
  }

  /** What a step leaves alone besides the tables. */
  ghost predicate Carries(s: State, u: State) {
    u.removals == s.removals && s.copies <= u.copies && s.confirms <= u.confirms && s.tickets <= u.tickets
        && u.jobs == s.jobs
  }

  lemma InitCarries(cfg: Config, s: State, owner: Id, size: nat, oid: Id, up: Id, cids: seq<Id>, orders: seq<seq<Id>>,
                    u: State)
    requires cfg.Valid() && InitStep(cfg, s, owner, size, oid, up, cids, orders) == Some(u)
    ensures Carries(s, u)
  {
    hide Init;
  }

  lemma PrepareCarries(cfg: Config, s: State, up: Id, owner: Id, seqNo: nat, digest: Digest, u: State)
    requires PrepareStep(cfg, s, up, owner, seqNo, digest) == Some(u)
    ensures Carries(s, u)
  {
    hide Prepare;
  }

  lemma ConfirmCarries(cfg: Config, s: State, up: Id, asking: Option<Id>, seqNo: nat, u: State)
    requires ConfirmBeginStep(cfg, s, up, asking, seqNo) == Some(u)
    ensures Carries(s, u)
  {
    hide ConfirmBegin;
  }

  lemma RepairCarries(cfg: Config, s: State, token: Id, pending: Option<Id>, order: seq<Id>, u: State)
    requires RepairBeginStep(cfg, s, token, pending, order) == Some(u)
    ensures Carries(s, u)
  {
    hide RepairBegin;
  }

  lemma DeleteMarks(cfg: Config, s: State, token: Id, u: State)
    requires DeleteBeginStep(cfg, s, token) == Some(u)
    requires forall key :: key in s.db.tasks && key.DeleteOf? ==> Key(key.chunk, key.node) in s.db.replicas
    ensures forall r :: r in u.removals ==> r in s.removals || r.marked
    ensures s.copies == u.copies && s.confirms == u.confirms && u.jobs == s.jobs
  {
    hide Protected;
    assert s.jobs[token] == DeleteOf(s.jobs[token].chunk, s.jobs[token].node);
  }

  lemma StillRunning(cfg: Config, s: State, step: Step, u: State, key: TaskKey, token: Id)
    requires cfg.Valid() && Inv(cfg, s) && Next(cfg, s, step) == Some(u) && token in s.jobs
    requires RunningWith(u.db, key, token)
    ensures RunningWith(s.db, key, token)
  {
    hide Inv, Next, QueueMoves, NoNewIds, Claim;
    if step.OnClaim? {
      InvKnown(cfg, s);
      ClaimedElse(cfg, s, step, u, key, token);
    } else {
      StepQueues(cfg, s, step, u);
      RunningKept(cfg, s.now, s.db, u.db, key, token);
    }
  }

  lemma InvKnown(cfg: Config, s: State)
    requires Inv(cfg, s)
    ensures Known(s)
  {
  }

  lemma ClaimedElse(cfg: Config, s: State, step: Step, u: State, key: TaskKey, token: Id)
    requires cfg.Valid() && Known(s) && step.OnClaim? && Next(cfg, s, step) == Some(u) && token in s.jobs
    requires RunningWith(u.db, key, token)
    ensures RunningWith(s.db, key, token)
  {
  }

  lemma ServeCarries(cfg: Config, s: State, step: Step, u: State)
    requires cfg.Valid() && Next(cfg, s, step) == Some(u)
    ensures s.copies <= u.copies && s.confirms <= u.confirms && s.tickets <= u.tickets
  {
    hide InitStep, PrepareStep, ConfirmBeginStep, RepairBeginStep, Retire, Complete, Cancel, Delete, BadReplica,
      ConfirmCommit, Heartbeat, GradeNodes, Enqueue, SettleRow, SettleListed, GiveBack, DeleteCommit, RepairCommit,
      NeedsRepair, DeleteBegin;
    match step
    case OnInit(owner, size, oid, up, cids, orders) => InitCarries(cfg, s, owner, size, oid, up, cids, orders, u);
    case OnPrepare(up, owner, seqNo, digest) => PrepareCarries(cfg, s, up, owner, seqNo, digest, u);
    case OnConfirmBegin(up, asking, seqNo) => ConfirmCarries(cfg, s, up, asking, seqNo, u);
    case OnRepairBegin(token, pending, order) => RepairCarries(cfg, s, token, pending, order, u);
    case _ =>
  }

  lemma CopiesKnown(cfg: Config, s: State)
    requires Inv(cfg, s)
    ensures forall copy :: copy in s.copies ==> copy.token in s.jobs
  {
  }

  lemma ServeKeeps(cfg: Config, w: World, step: Step, v: World)
    requires cfg.Valid() && WorldOk(cfg, w) && Do(cfg, w, Serve(step)) == Some(v)
    ensures WorldOk(cfg, v)
  {
    hide Inv, FilesOk, FixedVolumes, QueuedRowsExist, Next, HandedBy;
    StepKeeps(cfg, w.svc, step, v.svc);
    ServeFiles(cfg, w, step, v);
    ServeQueued(cfg, w, step, v);
    ServeCarries(cfg, w.svc, step, v.svc);
  }

  // ---------------------------------------------------------------- node steps

  /** Writing content that fits the chunk's row leaves everything as it should be. */
  lemma WriteKeeps(cfg: Config, w: World, n: Id, c: Id, data: Bytes, acked: bool)
    requires WorldOk(cfg, w) && n in w.hosts && FileOk(w.svc.db, n, c, data)
    ensures WorldOk(cfg, Written(w, n, c, data, acked))
  {
    hide Inv, FileOk;
    var v := Written(w, n, c, data, acked);
    assert FixedVolumes(v) && QueuedRowsExist(v);
    assert forall m :: m in w.hosts ==> HostOk(w.svc.db, m, w.hosts[m]);
  }

  lemma WritesKeep(cfg: Config, w: World, action: Action, v: World)
    requires cfg.Valid() && WorldOk(cfg, w) && Do(cfg, w, action) == Some(v) && (action.Put? || action.PutCopy?)
    ensures WorldOk(cfg, v)
  {
    hide Inv, WorldOk, WrittenOn, Matches;
    TicketsFit(cfg, w);
    WorldRecorded(cfg, w);
    var n, c := if action.Put? then action.ticket.node else action.copy.snap.target,
      if action.Put? then action.ticket.chunk else action.copy.snap.chunk;
    WriteKeeps(cfg, w, n, c, action.data, action.acked);
    RecordKeeps(cfg, Written(w, n, c, action.data, action.acked), v);
  }

  lemma WorldRecorded(cfg: Config, w: World)
    requires WorldOk(cfg, w)
    ensures Recorded(w)
  {
    hide Inv, FilesOk, FixedVolumes, QueuedRowsExist;
  }

  lemma RecordKeeps(cfg: Config, x: World, v: World)
    requires WorldOk(cfg, x) && v == x.(delivered := v.delivered, acked := v.acked)
    requires x.delivered <= v.delivered <= x.svc.copies && v.acked <= x.svc.tickets
    ensures WorldOk(cfg, v)
  {
    hide Inv, HostOk;
  }

  lemma TicketsFit(cfg: Config, w: World)
    requires WorldOk(cfg, w)
    ensures forall p :: p in w.svc.tickets ==> TicketFits(w.svc.db, p)
    ensures forall copy :: copy in w.svc.copies ==> RepairSnapFits(w.svc.db, copy.snap)
  {
  }

  lemma AnswerKeeps(cfg: Config, w: World, action: Action, v: World)
    requires cfg.Valid() && WorldOk(cfg, w) && Do(cfg, w, action) == Some(v)
    requires action.Stat? || action.StatCopy? || action.List?
    ensures WorldOk(cfg, v)
  {
    hide Inv, Next, Matches;
    assert v.hosts == w.hosts && v.svc == w.svc;
    assert FilesOk(v) && FixedVolumes(v);
    if action.List? {
      assert HostOk(w.svc.db, action.scan.node, w.hosts[action.scan.node]);
      assert (action.chunk, w.hosts[action.scan.node].files[action.chunk]) in w.hosts[action.scan.node].past;
    }
  }

  /** A crash or a restart costs no acknowledged file. */
  lemma CrashKeeps(cfg: Config, w: World, action: Action, v: World)
    requires cfg.Valid() && WorldOk(cfg, w) && Do(cfg, w, action) == Some(v) && (action.Crash? || action.Restart?)
    ensures WorldOk(cfg, v)
    ensures forall n, c :: n in w.hosts && c in w.hosts[n].durable ==>
              Stored(w, n, c).Some? && Stored(v, n, c) == Stored(w, n, c)
  {
    hide Inv, FileOk;
    assert v.svc == w.svc;
    assert forall m :: m in w.hosts ==> HostOk(w.svc.db, m, w.hosts[m]);
    assert FixedVolumes(v) && QueuedRowsExist(v);
  }

  /** What a worker may remove is nobody's: its row is under deletion and its object is not staging. */
  lemma RemovableIsUnused(cfg: Config, w: World, r: Removal)
    requires WorldOk(cfg, w) && r in w.svc.removals && Fenced(w.svc.db, w.svc.now, DeleteOf(r.chunk, r.node), r.token)
    ensures Has(w.svc.db, Key(r.chunk, r.node), Deleting) && PhaseOf(w.svc.db, r.chunk) != Some(Staging)
    ensures forall copy :: copy in w.svc.copies && copy.snap.chunk == r.chunk && copy.snap.target == r.node
              ==> !RunningWith(w.svc.db, RepairOf(r.chunk), copy.token)
  {
    hide Balanced, Sound, SnapsFit, TicketsWait, Held, Registered, PhaseOf, FilesOk, FixedVolumes;
    GoodRows(w.svc.db);
    assert TaskOk(w.svc.db, DeleteOf(r.chunk, r.node));
  }

  lemma RemoveKeeps(cfg: Config, w: World, r: Removal, v: World)
    requires cfg.Valid() && WorldOk(cfg, w) && Do(cfg, w, Remove(r)) == Some(v)
    ensures WorldOk(cfg, v)
  {
    hide Inv, FileOk, Next, Fenced;
    assert FixedVolumes(v) && QueuedRowsExist(v);
    assert forall m :: m in w.hosts ==> HostOk(w.svc.db, m, w.hosts[m]);
  }

  /** Every step of service or node keeps the invariant. */
  lemma ActionKeeps(cfg: Config, w: World, action: Action, v: World)
    requires cfg.Valid() && WorldOk(cfg, w) && Do(cfg, w, action) == Some(v)
    ensures WorldOk(cfg, v)
  {
    hide WorldOk, Do;
    match action
    case Serve(step) => ServeKeeps(cfg, w, step, v);
    case Put(_, _, _) => WritesKeep(cfg, w, action, v);
    case PutCopy(_, _, _) => WritesKeep(cfg, w, action, v);
    case Remove(r) => RemoveKeeps(cfg, w, r, v);
    case Restart(_, _) => CrashKeeps(cfg, w, action, v);
    case Crash(_, _) => CrashKeeps(cfg, w, action, v);
    case _ => AnswerKeeps(cfg, w, action, v);
  }

  lemma {:induction false} HistoryKeeps(cfg: Config, w: World, actions: seq<Action>, v: World)
    requires cfg.Valid() && WorldOk(cfg, w) && History(cfg, w, actions) == Some(v)
    ensures WorldOk(cfg, v)
    decreases |actions|
  {
    hide WorldOk, Do;
    if actions != [] {
      ActionKeeps(cfg, w, actions[0], Do(cfg, w, actions[0]).value);
      HistoryKeeps(cfg, Do(cfg, w, actions[0]).value, actions[1..], v);
    }
  }

  lemma FreshHolds(cfg: Config, w: World)
    requires Fresh(w)
    ensures WorldOk(cfg, w)
  {
    StartHolds(cfg);
  }

  // ---------------------------------------------------------------- the theorems

  lemma FileIsOk(cfg: Config, w: World, n: Id, c: Id)
    requires WorldOk(cfg, w)
    ensures Stored(w, n, c).Some? ==> FileOk(w.svc.db, n, c, Stored(w, n, c).value)
    ensures n in w.hosts ==> w.hosts[n].durable <= w.hosts[n].files.Keys
  {
    hide Inv, FileOk, FixedVolumes, QueuedRowsExist, Recorded;
    if n in w.hosts {
      assert HostOk(w.svc.db, n, w.hosts[n]);
    }
  }

  // ---------------------------------------------------------------- what the service relies on

  /** A confirmation under way got an answer for this replica. */
  ghost predicate StatedFor(w: World, k: Key) {
    && PhaseOf(w.svc.db, k.chunk) == Some(Staging)
    && exists pair :: pair in w.stated && pair.0.chunk == k.chunk && pair.1.node == k.node
  }

  /** The repair that may still be committed got an answer for this replica. */
  ghost predicate CopiedFor(w: World, k: Key) {
    exists copy :: && copy in w.copied && copy.snap.chunk == k.chunk && copy.snap.target == k.node
                   && RunningWith(w.svc.db, RepairOf(k.chunk), copy.token)
  }

  /** The service relies on a replica's file: its row is settled, or an answer about it may still settle the row. */
  ghost predicate Relied(w: World, k: Key) {
    HasSettled(w.svc.db, k) || StatedFor(w, k) || CopiedFor(w, k)
  }

  /** Only the two commits settle rows, and both settle what was answered for: no step of the service makes it rely on
      anything new. */
  lemma ServeReliesOnAnswers(cfg: Config, w: World, step: Step, v: World, k: Key)
    requires cfg.Valid() && WorldOk(cfg, w) && Do(cfg, w, Serve(step)) == Some(v) && Relied(v, k)
    ensures Relied(w, k)
  {
    hide Inv, Next, FilesOk, FixedVolumes, QueuedRowsExist, Relied, HasSettled, StatedFor, CopiedFor, Recorded;
    RelyCases(v, k);
    RelyCases(w, k);
    if StatedFor(v, k) {
      StatedBefore(cfg, w, step, v, k);
    } else if CopiedFor(v, k) {
      CopiedBefore(cfg, w, step, v, k);
    } else if step.OnConfirmCommit? {
      ConfirmSettles(cfg, w, step.confirm, v, k);
    } else if step.OnRepairCommit? {
      RepairSettles(cfg, w, step.copy, v, k);
    } else {
      StepSettles(cfg, w.svc, step, v.svc);
      NotSettledAnew(w.svc.db, v.svc.db, k);
    }
  }

  lemma RelyCases(w: World, k: Key)
    ensures Relied(w, k) <==> HasSettled(w.svc.db, k) || StatedFor(w, k) || CopiedFor(w, k)
  {
  }

  lemma NotSettledAnew(t: Tables, u: Tables, k: Key)
    requires NoneSettled(t, u) && HasSettled(u, k)
    ensures HasSettled(t, k)
  {
  }

  lemma StatedBefore(cfg: Config, w: World, step: Step, v: World, k: Key)
    requires cfg.Valid() && WorldOk(cfg, w) && Do(cfg, w, Serve(step)) == Some(v) && StatedFor(v, k)
    ensures StatedFor(w, k)
  {
    hide Inv, FilesOk, FixedVolumes, QueuedRowsExist, Next, Grows, RowMoves, Linked, PhaseOf, SameFleet;
    StepKeeps(cfg, w.svc, step, v.svc);
    InvSnaps(cfg, w.svc);
    var pair :| pair in v.stated && pair.0.chunk == k.chunk && pair.1.node == k.node;
    ConfirmFits(w.svc.db, pair.0);
    StagingEarlier(w.svc.db, v.svc.db, k.chunk);
  }

  lemma CopiedBefore(cfg: Config, w: World, step: Step, v: World, k: Key)
    requires cfg.Valid() && WorldOk(cfg, w) && Do(cfg, w, Serve(step)) == Some(v) && CopiedFor(v, k)
    ensures CopiedFor(w, k)
  {
    hide Inv, FilesOk, FixedVolumes, QueuedRowsExist, Next, RunningWith;
    var copy :| && copy in v.copied && copy.snap.chunk == k.chunk && copy.snap.target == k.node
                && RunningWith(v.svc.db, RepairOf(k.chunk), copy.token);
    CopiesKnown(cfg, w.svc);
    StillRunning(cfg, w.svc, step, v.svc, RepairOf(k.chunk), copy.token);
  }

  lemma ConfirmSettles(cfg: Config, w: World, snap: ConfirmSnap, v: World, k: Key)
    requires cfg.Valid() && WorldOk(cfg, w) && Do(cfg, w, Serve(OnConfirmCommit(snap))) == Some(v)
    requires HasSettled(v.svc.db, k)
    ensures HasSettled(w.svc.db, k) || StatedFor(w, k)
  {
    hide Inv, Good, ConfirmCommit, ConfirmSnapFits, FilesOk, FixedVolumes, QueuedRowsExist, PhaseOf, QueueMoves,
      KeepsRows;
    InvGood(cfg, w.svc);
    InvSnaps(cfg, w.svc);
    ConfirmMoves(w.svc.db, cfg, w.svc.now, snap, v.svc.db);
    if !HasSettled(w.svc.db, k) {
      var p :| p in snap.positions && p.node == k.node;
      assert (snap, p) in w.stated;
    }
  }

  lemma RepairSettles(cfg: Config, w: World, copy: Copy, v: World, k: Key)
    requires cfg.Valid() && WorldOk(cfg, w) && Do(cfg, w, Serve(OnRepairCommit(copy))) == Some(v)
    requires HasSettled(v.svc.db, k)
    ensures HasSettled(w.svc.db, k) || CopiedFor(w, k)
  {
    hide Inv, Good, RepairSnapFits, FilesOk, FixedVolumes, QueuedRowsExist, PhaseOf, QueueMoves, KeepsRows,
      HealthyNodes, Uncharge, Enqueue, SetRow, AddToNode, FinishTask;
    InvSnaps(cfg, w.svc);
    RepairFits(w.svc.db, copy.snap);
    RepairCommitMoves(w.svc.db, cfg, w.svc.now, copy.token, copy.snap, v.svc.db);
    assert RunningWith(w.svc.db, RepairOf(copy.snap.chunk), copy.token);
  }

  /** Nor does a node's work; an answer makes the service rely on the replica it is about. */
  lemma NodeReliesOnAnswers(cfg: Config, w: World, action: Action, v: World, k: Key)
    requires cfg.Valid() && Do(cfg, w, action) == Some(v) && !action.Serve? && Relied(v, k)
    ensures v.svc == w.svc
    ensures Relied(w, k)
            || (&& action.Stat? && k == Key(action.snap.chunk, action.position.node)
                && PhaseOf(w.svc.db, k.chunk) == Some(Staging)
                && action.snap in w.svc.confirms && action.position in action.snap.positions)
            || (&& action.StatCopy? && k == Key(action.copy.snap.chunk, action.copy.snap.target)
                && action.copy in w.delivered
                && RunningWith(w.svc.db, RepairOf(k.chunk), action.copy.token))
    ensures action.Stat? || action.StatCopy? ==>
              v.hosts == w.hosts && (Relied(w, k) || Stored(w, k.node, k.chunk).Some?)
  {
    hide HasSettled, PhaseOf, RunningWith, Matches, Fenced;
  }

  /** What is removed the service does not rely on. */
  lemma RemovedIsNotRelied(cfg: Config, w: World, r: Removal, after: World)
    requires cfg.Valid() && WorldOk(cfg, w) && Do(cfg, w, Remove(r)) == Some(after)
    ensures !Relied(w, Key(r.chunk, r.node))
  {
    hide Inv, FilesOk, FixedVolumes, QueuedRowsExist, PhaseOf, RunningWith, Fenced;
    RemovableIsUnused(cfg, w, r);
  }

  /** Every file the service relies on is there. */
  ghost predicate Kept(w: World) {
    forall k: Key :: Relied(w, k) ==> Stored(w, k.node, k.chunk).Some?
  }

  /** A crash that loses no file the service relies on. Every other action is gentle. */
  ghost predicate Gentle(w: World, action: Action) {
    action.Crash? ==> forall k: Key :: k.node == action.node && Relied(w, k) ==> k.chunk in action.survivors
  }

  lemma ActionKeepsRelied(cfg: Config, w: World, action: Action, v: World)
    requires cfg.Valid() && WorldOk(cfg, w) && Do(cfg, w, action) == Some(v) && Kept(w) && Gentle(w, action)
    ensures Kept(v)
  {
    hide Inv, WorldOk, Next, Relied, HandedBy, Fenced, Matches;
    forall k: Key | Relied(v, k) ensures Stored(v, k.node, k.chunk).Some? {
      if action.Serve? {
        ServeReliesOnAnswers(cfg, w, action.step, v, k);
      } else {
        NodeReliesOnAnswers(cfg, w, action, v, k);
        if action.Remove? {
          RemovedIsNotRelied(cfg, w, action.removal, v);
        }
      }
    }
  }

  /** No crash of a history loses a file the service relies on at that moment. */
  ghost predicate Gently(cfg: Config, w: World, actions: seq<Action>)
    requires cfg.Valid() && History(cfg, w, actions).Some?
    decreases |actions|
  {
    actions != [] ==> Gentle(w, actions[0]) && Gently(cfg, Do(cfg, w, actions[0]).value, actions[1..])
  }

  lemma {:induction false} HistoryKeepsRelied(cfg: Config, w: World, actions: seq<Action>, v: World)
    requires cfg.Valid() && WorldOk(cfg, w) && History(cfg, w, actions) == Some(v) && Kept(w) && Gently(cfg, w, actions)
    ensures Kept(v)
    decreases |actions|
  {
    hide WorldOk, Do, Kept, Gentle;
    if actions != [] {
      var after := Do(cfg, w, actions[0]).value;
      ActionKeeps(cfg, w, actions[0], after);
      ActionKeepsRelied(cfg, w, actions[0], after);
      HistoryKeepsRelied(cfg, after, actions[1..], v);
    }
  }

  lemma FreshIsKept(w: World)
    requires Fresh(w)
    ensures Kept(w)
  {
  }

  /** After any history of a new cluster in which no crash loses a file that was answered for, every replica row
      marked valid is backed by a file of its node with the chunk's recorded length and digest, whoever asked for its
      confirmation and whenever. */
  lemma ValidReplicasAreBacked(cfg: Config, w: World, actions: seq<Action>, v: World, k: Key)
    requires cfg.Valid() && Fresh(w) && History(cfg, w, actions) == Some(v) && Gently(cfg, w, actions)
    requires k in v.svc.db.replicas && v.svc.db.replicas[k].state.Valid?
    ensures k.chunk in v.svc.db.chunks && v.svc.db.chunks[k.chunk].digest.Some?
    ensures Holds(v, k.node, k.chunk, v.svc.db.chunks[k.chunk].length, v.svc.db.chunks[k.chunk].digest.value)
  {
    hide WorldOk, History, Gently, Matches, StatedFor, CopiedFor;
    FreshHolds(cfg, w);
    FreshIsKept(w);
    HistoryKeeps(cfg, w, actions, v);
    HistoryKeepsRelied(cfg, w, actions, v);
    assert Relied(v, k);
    FileIsOk(cfg, v, k.node, k.chunk);
  }

  // ---------------------------------------------------------------- what readers find

  lemma {:induction false} HistoryGrows(cfg: Config, w: World, actions: seq<Action>, v: World)
    requires cfg.Valid() && WorldOk(cfg, w) && History(cfg, w, actions) == Some(v)
    ensures Grows(w.svc.db, v.svc.db)
    decreases |actions|
  {
    hide WorldOk, Do, Grows;
    GrowsNot(w.svc.db);
    if actions != [] {
      var after := Do(cfg, w, actions[0]).value;
      ActionGrows(cfg, w, actions[0], after);
      ActionKeeps(cfg, w, actions[0], after);
      HistoryGrows(cfg, after, actions[1..], v);
      GrowsOn(w.svc.db, after.svc.db, v.svc.db);
    }
  }

  lemma ActionGrows(cfg: Config, w: World, action: Action, after: World)
    requires cfg.Valid() && WorldOk(cfg, w) && Do(cfg, w, action) == Some(after)
    ensures Grows(w.svc.db, after.svc.db)
  {
    hide Inv, Next, Grows, RowMoves, SameFleet, Matches;
    GrowsNot(w.svc.db);
    if action.Serve? {
      StepKeeps(cfg, w.svc, action.step, after.svc);
    }
  }

  /** Once fixed, a digest stays through any further history, and every write a node accepts for the chunk, every file
      it then holds and every replica that passes a check has the content the digest was computed from. */
  lemma OneContentPerChunk(cfg: Config, start: World, actions: seq<Action>, w: World, more: seq<Action>, v: World,
                           c: Id, content: Bytes)
    requires cfg.Valid() && Fresh(start) && History(cfg, start, actions) == Some(w) && History(cfg, w, more) == Some(v)
    requires FixedTo(w.svc.db, c, Sha(content))
    ensures FixedTo(v.svc.db, c, Sha(content))
    ensures forall p: Ticket, data, acked :: p.chunk == c && Do(cfg, v, Put(p, data, acked)).Some? ==> data == content
    ensures forall copy: Copy, data, acked :: copy.snap.chunk == c && Do(cfg, v, PutCopy(copy, data, acked)).Some? ==>
                  data == content
    ensures forall n :: Stored(v, n, c).Some? ==> Stored(v, n, c).value == content
    ensures forall data :: Sha(data) == v.svc.db.chunks[c].digest.value ==> data == content
  {
    hide History, Inv, Next;
    FreshHolds(cfg, start);
    HistoryKeeps(cfg, start, actions, w);
    HistoryKeeps(cfg, w, more, v);
    HistoryGrows(cfg, w, more, v);
    assert ChunkEdge(w.svc.db.chunks[c], v.svc.db.chunks[c]);
    TicketsFit(cfg, v);
    forall n | Stored(v, n, c).Some? ensures Stored(v, n, c).value == content {
      FileIsOk(cfg, v, n, c);
    }
  }

  /** Every replica the service would send a reader to holds exactly the chunk. */
  lemma LocatedReplicasServe(cfg: Config, start: World, actions: seq<Action>, w: World, c: Id, n: Id)
    requires cfg.Valid() && Fresh(start) && History(cfg, start, actions) == Some(w) && Gently(cfg, start, actions)
    requires n in HealthyNodes(w.svc.db, cfg, w.svc.now, c)
    ensures c in w.svc.db.chunks && w.svc.db.chunks[c].digest.Some?
    ensures Holds(w, n, c, w.svc.db.chunks[c].length, w.svc.db.chunks[c].digest.value)
  {
    hide History, Fresh, Live, Holds, Gently;
    ValidReplicasAreBacked(cfg, start, actions, w, Key(c, n));
  }

  // ---------------------------------------------------------------- removals

  /** While a deletion of a chunk may run, no upload can write that chunk again on any node. */
  lemma NoUploadDuringCleanup(cfg: Config, w: World, actions: seq<Action>, v: World, p: Ticket, data: Bytes,
                              acked: bool, n: Id)
    requires cfg.Valid() && Fresh(w) && History(cfg, w, actions) == Some(v)
    requires DeleteOf(p.chunk, n) in v.svc.db.tasks && v.svc.db.tasks[DeleteOf(p.chunk, n)].state.Running?
    ensures Do(cfg, v, Put(p, data, acked)) == None
  {
    hide History, Good, Known, Held, SnapsFit, TargetsHeld, MarksHeld, Registered, FilesOk, QueuedRowsExist,
      FixedVolumes, Matches;
    FreshHolds(cfg, w);
    HistoryKeeps(cfg, w, actions, v);
    assert p in v.svc.tickets ==> Waits(v.svc.db, v.svc.now, p, n);
  }

  /** What a removal deletes was neither valid, reserved nor unverified at that moment. */
  lemma RemovalsSpareLiveReplicas(cfg: Config, w: World, actions: seq<Action>, v: World, r: Removal, after: World)
    requires cfg.Valid() && Fresh(w) && History(cfg, w, actions) == Some(v) && Do(cfg, v, Remove(r)) == Some(after)
    ensures Has(v.svc.db, Key(r.chunk, r.node), Deleting) && PhaseOf(v.svc.db, r.chunk) != Some(Staging)
    ensures forall k :: k != Key(r.chunk, r.node) ==> Stored(after, k.node, k.chunk) == Stored(v, k.node, k.chunk)
  {
    hide History, WorldOk, PhaseOf, Fenced, Has;
    FreshHolds(cfg, w);
    HistoryKeeps(cfg, w, actions, v);
    RemovableIsUnused(cfg, v, r);
  }

  // ---------------------------------------------------------------- no stranding among truthful nodes

  /** No reservation is without its charge. */
  ghost predicate NothingStranded(t: Tables) {
    forall c, n :: !Stranded(t, c, n)
  }

  lemma ActionStrandsNothing(cfg: Config, w: World, action: Action, v: World)
    requires cfg.Valid() && WorldOk(cfg, w) && Reachable(cfg, w.svc) && Do(cfg, w, action) == Some(v)
    requires NothingStranded(w.svc.db)
    ensures NothingStranded(v.svc.db) && Reachable(cfg, v.svc)
  {
    hide Inv, Next, Reachable, Stranded, FilesOk, FixedVolumes, Matches;
    if action.Serve? {
      ReachableOn(cfg, w.svc, action.step, v.svc);
      forall c, n ensures !Stranded(v.svc.db, c, n) {
        if Stranded(v.svc.db, c, n) {
          OnlyLateRemovalsStrand(cfg, w.svc, action.step, v.svc, c, n);
          CommittedRemoval(cfg, w.svc, action.step.removal, v.svc);
          assert false;
        }
      }
    }
  }

  lemma {:induction false} HistoryStrandsNothing(cfg: Config, w: World, actions: seq<Action>, v: World)
    requires cfg.Valid() && WorldOk(cfg, w) && Reachable(cfg, w.svc) && NothingStranded(w.svc.db)
    requires History(cfg, w, actions) == Some(v)
    ensures NothingStranded(v.svc.db)
    decreases |actions|
  {
    hide WorldOk, Do, Reachable, NothingStranded;
    if actions != [] {
      var after := Do(cfg, w, actions[0]).value;
      ActionStrandsNothing(cfg, w, actions[0], after);
      ActionKeeps(cfg, w, actions[0], after);
      HistoryStrandsNothing(cfg, after, actions[1..], v);
    }
  }

  /** Where nodes answer truthfully every removal finds a row to mark, and no reservation is ever stranded. */
  lemma TruthfulNodesStrandNothing(cfg: Config, w: World, actions: seq<Action>, v: World, c: Id, n: Id)
    requires cfg.Valid() && Fresh(w) && History(cfg, w, actions) == Some(v)
    ensures !Stranded(v.svc.db, c, n)
  {
    hide History, Reachable, WorldOk;
    FreshHolds(cfg, w);
    StartIsReachable(cfg);
    HistoryStrandsNothing(cfg, w, actions, v);
  }
}
