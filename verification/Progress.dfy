/** What the service is for can be carried through: a chunk that is short can be repaired, a piece can be sent, and
    every object that can be created can be uploaded and published. */
module Progress {
  import opened Schema
  import opened Transactions
  import opened Accounting
  import opened Invariants
  import opened Preservation
  import opened Lifecycle
  import opened Creation
  import opened Moves
  import opened Protocol
  import opened Runs
  import opened Safety
  import opened Publication
  import opened Confirmations
  import opened Effects

  // ---------------------------------------------------------------- a repair

  lemma QueueAside(t: Tables, u: Tables, cfg: Config, now: Time, c: Id, pending: Option<Id>, order: seq<Id>)
    requires u == t.(tasks := u.tasks)
    ensures HealthyNodes(u, cfg, now, c) == HealthyNodes(t, cfg, now, c)
    ensures Linked(u, c) == Linked(t, c) && (Linked(t, c) ==> ObjectOf(u, c) == ObjectOf(t, c))
    ensures PendingChoice(u, c, pending) == PendingChoice(t, c, pending) && ByLoad(u, order) == ByLoad(t, order)
    ensures c in t.chunks ==> forall n :: MayTarget(u, cfg, now, c, pending, n) == MayTarget(t, cfg, now, c, pending, n)
  {
    assert ReservedNodes(u, c) == ReservedNodes(t, c) && Taken(u, c) == Taken(t, c);
    if ByLoad(t, order) {
      assert ByLoad(u, order);
    }
    if ByLoad(u, order) {
      assert ByLoad(t, order);
    }
  }

  lemma ClaimWorks(cfg: Config, s: State, key: TaskKey, token: Id) returns (u: State)
    requires cfg.Valid() && token !in s.ids
    requires key in s.db.tasks && !s.db.tasks[key].state.Done? && s.db.tasks[key].lease < s.now
    ensures Next(cfg, s, OnClaim(key, token)) == Some(u) && u.now == s.now && u.db == s.db.(tasks := u.db.tasks)
    ensures token in u.jobs && u.jobs[token] == key && HoldsTask(u.db, u.now, key, token)
  {
    ClaimedExactlyIf(cfg, s, key, token);
    u := Next(cfg, s, OnClaim(key, token)).value;
  }

  /** The place a repair begins at is reserved and charged, on a live node that holds no healthy copy yet. */
  ghost predicate ReadyTarget(t: Tables, cfg: Config, now: Time, c: Id, n: Id) {
    && n in t.nodes && Lively(t.nodes[n], cfg, now)
    && Key(c, n) in t.replicas && t.replicas[Key(c, n)] == Replica(t.nodes[n].volume, Reserved, ReservedCharge)
  }

  lemma BeginWorks(cfg: Config, s: State, c: Id, token: Id, pending: Option<Id>, order: seq<Id>)
    returns (copy: Copy, u: State)
    requires cfg.Valid() && Inv(cfg, s) && token in s.jobs && s.jobs[token] == RepairOf(c)
    requires PendingChoice(s.db, c, pending) && (pending.None? ==> ByLoad(s.db, order))
    requires MayRepair(s.db, cfg, s.now, c, token) && exists n :: MayTarget(s.db, cfg, s.now, c, pending, n)
    requires pending.Some? ==> s.db.replicas[Key(c, pending.value)].charge.ReservedCharge?
    ensures Next(cfg, s, OnRepairBegin(token, pending, order)) == Some(u) && copy in u.copies && u.now == s.now
    ensures copy.token == token && Remembers(s.db, cfg, s.now, c, copy.snap)
    ensures ReadyTarget(u.db, cfg, u.now, c, copy.snap.target)
    ensures u.db == s.db.(nodes := u.db.nodes, replicas := u.db.replicas)
    ensures StillRegistered(u.db, copy.snap.target, copy.snap.volume, copy.snap.instance)
    ensures HealthyNodes(u.db, cfg, u.now, c) == HealthyNodes(s.db, cfg, s.now, c)
  {
    hide Inv, Good, RepairBegin, ByLoad, MayRepair, HealthyNodes, Remembers, Placed, Linked;
    RepairBegunExactlyIf(s.db, cfg, s.now, c, token, pending, order);
    var out := RepairBegin(s.db, cfg, s.now, c, token, pending, order).value;
    copy, u := Copy(token, out.1.value), Next(cfg, s, OnRepairBegin(token, pending, order)).value;
    TargetIsReady(cfg, s, c, pending, out.0, copy.snap);
  }

  lemma TargetIsReady(cfg: Config, s: State, c: Id, pending: Option<Id>, u: Tables, snap: RepairSnap)
    requires Inv(cfg, s) && PendingChoice(s.db, c, pending)
    requires BeginsRepair(s.db, u, cfg, s.now, c, pending, Some(snap))
    requires pending.Some? ==> s.db.replicas[Key(c, pending.value)].charge.ReservedCharge?
    ensures Remembers(s.db, cfg, s.now, c, snap) && ReadyTarget(u, cfg, s.now, c, snap.target)
    ensures u == s.db.(nodes := u.nodes, replicas := u.replicas)
    ensures StillRegistered(u, snap.target, snap.volume, snap.instance)
    ensures HealthyNodes(u, cfg, s.now, c) == HealthyNodes(s.db, cfg, s.now, c)
  {
    hide Remembers, Good, Known, Held, SnapsFit, TicketsWait, TargetsHeld, MarksHeld, Registered;
    InvGood(cfg, s);
    RememberedTarget(s.db, cfg, s.now, c, snap);
    var n := snap.target;
    if pending.Some? {
      ReservedRow(s.db, Key(c, n));
    } else {
      assert n in [n] && n !in Taken(s.db, c);
      PlacedElsewhere(s.db, u, cfg, s.now, c, n);
    }
  }

  lemma RememberedTarget(t: Tables, cfg: Config, now: Time, c: Id, snap: RepairSnap)
    requires Linked(t, c) && Remembers(t, cfg, now, c, snap)
    ensures StillRegistered(t, snap.target, snap.volume, snap.instance)
  {
  }

  lemma ReservedRow(t: Tables, k: Key)
    requires Good(t) && Has(t, k, Reserved)
    ensures k.node in t.nodes && t.replicas[k].volume == t.nodes[k.node].volume
  {
    hide Balanced, Pairs, Tasks, Counts, Pieces, PhaseOf;
    assert RowOk(t, k);
  }

  lemma PlacedElsewhere(t: Tables, u: Tables, cfg: Config, now: Time, c: Id, n: Id)
    requires c in t.chunks && Placed(t, u, c, t.chunks[c].length, [n]) && n in t.nodes && n !in Taken(t, c)
    ensures HealthyNodes(u, cfg, now, c) == HealthyNodes(t, cfg, now, c)
  {
    assert n !in HealthyNodes(t, cfg, now, c) && n !in HealthyNodes(u, cfg, now, c);
    forall m | m in t.nodes && m != n ensures m in HealthyNodes(u, cfg, now, c) <==> m in HealthyNodes(t, cfg, now, c) {
      assert m !in [n];
    }
  }

  lemma CommitWorks(cfg: Config, s: State, c: Id, copy: Copy) returns (u: State)
    requires cfg.Valid() && Inv(cfg, s) && copy in s.copies && copy.snap.chunk == c
    requires HoldsTask(s.db, s.now, RepairOf(c), copy.token) && ReadyTarget(s.db, cfg, s.now, c, copy.snap.target)
    requires StillRegistered(s.db, copy.snap.target, copy.snap.volume, copy.snap.instance)
    requires Linked(s.db, c) && ObjectOf(s.db, c).phase.Published?
    requires |HealthyNodes(s.db, cfg, s.now, c)| < ObjectOf(s.db, c).replicas
    ensures Next(cfg, s, OnRepairCommit(copy)) == Some(u) && u.now == s.now
    ensures HealthyNodes(u.db, cfg, u.now, c) == HealthyNodes(s.db, cfg, s.now, c) + {copy.snap.target}
  {
    hide Inv, RepairCommit, Records, HealthyNodes;
    InvSnaps(cfg, s);
    RepairRecords(s.db, cfg, s.now, copy.token, copy.snap);
    u := Next(cfg, s, OnRepairCommit(copy)).value;
    RecordedIsHealthy(s.db, u.db, cfg, s.now, copy.snap);
  }

  /** Whenever a published chunk is short of healthy copies, one is left to read from, a worker claims its repair and
      there is a place to go to, then the repair can be carried through: the three transactions succeed one after the
      other, and one more node holds a healthy copy. A place left by an earlier attempt must not have been stranded. */
  lemma RepairCanBeDone(cfg: Config, s: State, c: Id, token: Id, pending: Option<Id>, order: seq<Id>)
    returns (copy: Copy, u: State)
    requires cfg.Valid() && Reachable(cfg, s) && token !in s.ids
    requires RepairOf(c) in s.db.tasks && !s.db.tasks[RepairOf(c)].state.Done? && s.db.tasks[RepairOf(c)].lease < s.now
    requires Linked(s.db, c) && ObjectOf(s.db, c).phase.Published?
    requires 0 < |HealthyNodes(s.db, cfg, s.now, c)| < ObjectOf(s.db, c).replicas
    requires PendingChoice(s.db, c, pending) && (pending.None? ==> ByLoad(s.db, order))
    requires pending.Some? ==> s.db.replicas[Key(c, pending.value)].charge.ReservedCharge?
    requires exists n :: MayTarget(s.db, cfg, s.now, c, pending, n)
    ensures Run(cfg, s, [OnClaim(RepairOf(c), token), OnRepairBegin(token, pending, order), OnRepairCommit(copy)])
            == Some(u)
    ensures copy.snap.target !in HealthyNodes(s.db, cfg, s.now, c)
    ensures HealthyNodes(u.db, cfg, u.now, c) == HealthyNodes(s.db, cfg, s.now, c) + {copy.snap.target}
  {
    hide Inv, Good, Next, Run, Reachable, HealthyNodes, MayTarget, ByLoad, Linked, ReadyTarget, Remembers,
      Advances, PendingChoice;
    PendingReserved(s.db, c, pending);
    ReachableHolds(cfg, s);
    LinkedChunk(s.db, c);
    var claimed := ClaimWorks(cfg, s, RepairOf(c), token);
    QueueAside(s.db, claimed.db, cfg, s.now, c, pending, order);
    var n :| MayTarget(s.db, cfg, s.now, c, pending, n);
    assert MayTarget(claimed.db, cfg, s.now, c, pending, n);
    StepKeeps(cfg, s, OnClaim(RepairOf(c), token), claimed);
    var begun;
    copy, begun := BeginWorks(cfg, claimed, c, token, pending, order);
    StepKeeps(cfg, claimed, OnRepairBegin(token, pending, order), begun);
    SameJoins(claimed.db, begun.db, c);
    RememberedChunk(claimed.db, cfg, s.now, c, copy.snap);
    u := CommitWorks(cfg, begun, c, copy);
    ReservedIsNotHealthy(begun.db, cfg, s.now, c, copy.snap.target);
    ThreeSteps(cfg, s, OnClaim(RepairOf(c), token), claimed, OnRepairBegin(token, pending, order), begun,
               OnRepairCommit(copy), u);
  }

  lemma PendingReserved(t: Tables, c: Id, pending: Option<Id>)
    requires PendingChoice(t, c, pending)
    ensures pending.Some? ==> Has(t, Key(c, pending.value), Reserved)
  {
  }

  lemma SameJoins(t: Tables, u: Tables, c: Id)
    requires u == t.(nodes := u.nodes, replicas := u.replicas) && Linked(t, c)
    ensures Linked(u, c) && ObjectOf(u, c) == ObjectOf(t, c)
  {
  }

  lemma RememberedChunk(t: Tables, cfg: Config, now: Time, c: Id, snap: RepairSnap)
    requires Linked(t, c) && Remembers(t, cfg, now, c, snap)
    ensures snap.chunk == c
  {
  }

  lemma ReservedIsNotHealthy(t: Tables, cfg: Config, now: Time, c: Id, n: Id)
    requires ReadyTarget(t, cfg, now, c, n)
    ensures n !in HealthyNodes(t, cfg, now, c)
  {
  }

  lemma ThreeSteps(cfg: Config, s: State, x: Step, a: State, y: Step, b: State, z: Step, u: State)
    requires cfg.Valid() && Next(cfg, s, x) == Some(a) && Next(cfg, a, y) == Some(b) && Next(cfg, b, z) == Some(u)
    ensures Run(cfg, s, [x, y, z]) == Some(u)
  {
    hide Next;
    OneStep(cfg, s, x, a);
    RunAppended(cfg, s, [x], a, y, b);
    RunAppended(cfg, s, [x] + [y], b, z, u);
    assert [x] + [y] + [z] == [x, y, z];
  }

  // ---------------------------------------------------------------- a removal, a restatement

  /** Whenever a worker claims a deletion nobody objects to, it can be carried through: the row ends gone and, if its
      chunk is known, off the books, and the task is done. */
  lemma RemovalCanBeDone(cfg: Config, s: State, c: Id, n: Id, token: Id) returns (r: Removal, u: State)
    requires cfg.Valid() && token !in s.ids && n in s.db.nodes && Removable(s.db, cfg, s.now, c, n)
    requires DeleteOf(c, n) in s.db.tasks && !s.db.tasks[DeleteOf(c, n)].state.Done?
    requires s.db.tasks[DeleteOf(c, n)].lease < s.now
    ensures Run(cfg, s, [OnClaim(DeleteOf(c, n), token), OnDeleteBegin(token), OnDeleteCommit(r)]) == Some(u)
    ensures Key(c, n) in s.db.replicas ==>
              Has(u.db, Key(c, n), Gone) && (Linked(s.db, c) ==> u.db.replicas[Key(c, n)].charge.NoCharge?)
    ensures !Open(u.db, DeleteOf(c, n))
  {
    hide Next, Run, Removable, Linked;
    var claimed := ClaimWorks(cfg, s, DeleteOf(c, n), token);
    RemovableAside(s.db, claimed.db, cfg, s.now, c, n);
    var begun;
    r, begun := MarkWorks(cfg, claimed, c, n, token);
    u := RemoveWorks(cfg, begun, r);
    ThreeSteps(cfg, s, OnClaim(DeleteOf(c, n), token), claimed, OnDeleteBegin(token), begun, OnDeleteCommit(r), u);
  }

  lemma RemovableAside(t: Tables, u: Tables, cfg: Config, now: Time, c: Id, n: Id)
    requires u == t.(tasks := u.tasks)
    ensures Removable(u, cfg, now, c, n) == Removable(t, cfg, now, c, n) && Linked(u, c) == Linked(t, c)
  {
    assert HealthyNodes(u, cfg, now, c) == HealthyNodes(t, cfg, now, c);
  }

  lemma MarkWorks(cfg: Config, s: State, c: Id, n: Id, token: Id) returns (r: Removal, u: State)
    requires cfg.Valid() && token in s.jobs && s.jobs[token] == DeleteOf(c, n)
    requires HoldsTask(s.db, s.now, DeleteOf(c, n), token) && n in s.db.nodes && Removable(s.db, cfg, s.now, c, n)
    ensures Next(cfg, s, OnDeleteBegin(token)) == Some(u) && r in u.removals && u.now == s.now
    ensures r.token == token && r.chunk == c && r.node == n && Marks(s.db, u.db, c, n, r.snap)
  {
    hide DeleteBegin, Removable, Marks, HoldsTask;
    DeletionBegunExactlyIf(s.db, cfg, s.now, c, n, token);
    var out := DeleteBegin(s.db, cfg, s.now, c, n, token).value;
    r := Removal(token, c, n, out.1, Key(c, n) in s.db.replicas);
    u := Next(cfg, s, OnDeleteBegin(token)).value;
  }

  lemma RemoveWorks(cfg: Config, s: State, r: Removal) returns (u: State)
    requires cfg.Valid() && r in s.removals && HoldsTask(s.db, s.now, DeleteOf(r.chunk, r.node), r.token)
    requires StillRegistered(s.db, r.node, r.snap.volume, r.snap.instance)
    ensures Next(cfg, s, OnDeleteCommit(r)) == Some(u) && Removes(s.db, u.db, r.chunk, r.node, r.snap)
  {
    hide DeleteCommit, Removes, HoldsTask;
    DeletionFinishedExactlyIf(s.db, s.now, r.chunk, r.node, r.token, r.snap);
    u := Next(cfg, s, OnDeleteCommit(r)).value;
  }

  /** Whenever a live node holds a copy that must be stated again, a scan of the node and a successful `stat` bring it
      back among the healthy ones. */
  lemma CopyCanBeRestated(cfg: Config, s: State, k: Key) returns (check: Check, u: State)
    requires cfg.Valid() && Has(s.db, k, Unverified) && k.chunk in s.db.chunks
    requires k.node in s.db.nodes && Lively(s.db.nodes[k.node], cfg, s.now)
    ensures Run(cfg, s, [OnScan(k.node), OnCheck(check.scan, k.chunk), OnSettleRow(check, true)]) == Some(u)
    ensures k.node in HealthyNodes(u.db, cfg, u.now, k.chunk)
  {
    hide Next, Run, HealthyNodes;
    var scan, scanned, checked;
    scan, scanned := ScanWorks(cfg, s, k.node);
    check, checked := CheckWorks(cfg, scanned, scan, k);
    StatDecides(cfg, checked, check, true);
    u := Next(cfg, checked, OnSettleRow(check, true)).value;
    RestatedIsHealthy(checked.db, u.db, cfg, s.now, check, k);
    ThreeSteps(cfg, s, OnScan(k.node), scanned, OnCheck(scan, k.chunk), checked, OnSettleRow(check, true), u);
  }

  lemma ScanWorks(cfg: Config, s: State, n: Id) returns (scan: Scan, u: State)
    requires cfg.Valid() && n in s.db.nodes && Lively(s.db.nodes[n], cfg, s.now)
    ensures Next(cfg, s, OnScan(n)) == Some(u) && scan in u.scans && u.db == s.db && u.now == s.now
    ensures scan.node == n && StillRegistered(s.db, n, scan.volume, scan.instance)
  {
    scan := Scan(n, s.db.nodes[n].volume, s.db.nodes[n].instance);
    u := Next(cfg, s, OnScan(n)).value;
  }

  lemma CheckWorks(cfg: Config, s: State, scan: Scan, k: Key) returns (check: Check, u: State)
    requires cfg.Valid() && scan in s.scans && Has(s.db, k, Unverified) && k.node == scan.node && k.chunk in s.db.chunks
    ensures Next(cfg, s, OnCheck(scan, k.chunk)) == Some(u) && check in u.checks && u.db == s.db && u.now == s.now
    ensures check.scan == scan && check.chunk == k.chunk
  {
    assert Key(k.chunk, scan.node) == k;
    check := Check(scan, k.chunk, s.db.chunks[k.chunk].length, s.db.chunks[k.chunk].digest);
    u := Next(cfg, s, OnCheck(scan, k.chunk)).value;
  }

  lemma RestatedIsHealthy(t: Tables, u: Tables, cfg: Config, now: Time, check: Check, k: Key)
    requires Settles(t, u, k.node, check.scan.volume, check.scan.instance, k.chunk, true)
    requires StillRegistered(t, k.node, check.scan.volume, check.scan.instance) && Lively(t.nodes[k.node], cfg, now)
    requires Has(u, k, Valid) && u.replicas[k].volume == check.scan.volume
    ensures k.node in HealthyNodes(u, cfg, now, k.chunk)
  {
    assert Key(k.chunk, k.node) == k;
  }

  // ---------------------------------------------------------------- a piece

  /** Every object asks for the configured number of replicas. */
  ghost predicate AskedFor(cfg: Config, t: Tables) {
    forall oid :: oid in t.objects ==> t.objects[oid].replicas == cfg.replicas
  }

  lemma StepAsks(cfg: Config, s: State, step: Step, u: State)
    requires cfg.Valid() && Inv(cfg, s) && AskedFor(cfg, s.db) && Next(cfg, s, step) == Some(u)
    ensures AskedFor(cfg, u.db)
  {
    hide Inv, Next, RowMoves, SameFleet, QueueMoves;
    StepKeeps(cfg, s, step, u);
    if step.OnInit? {
      CreationAsks(cfg, s, step, u);
    } else if step.OnSettleListed? {
      ListingAsks(cfg, s, step, u);
    } else {
      StepQueues(cfg, s, step, u);
    }
  }

  lemma CreationAsks(cfg: Config, s: State, step: Step, u: State)
    requires cfg.Valid() && Inv(cfg, s) && AskedFor(cfg, s.db) && step.OnInit? && Next(cfg, s, step) == Some(u)
    ensures AskedFor(cfg, u.db)
  {
    hide Inv, Next, Loaded;
    CreatedIs(cfg, s, step, u);
  }

  lemma ListingAsks(cfg: Config, s: State, step: Step, u: State)
    requires cfg.Valid() && AskedFor(cfg, s.db) && step.OnSettleListed? && Next(cfg, s, step) == Some(u)
    ensures AskedFor(cfg, u.db)
  {
    hide SettleListed, Unwanted, Queued, OtherTasksKept;
    ListedIsCleanedIfUnwanted(s.db, cfg, s.now, step.scan.node, step.scan.volume, step.chunk);
  }

  lemma {:induction false} RunAsks(cfg: Config, s: State, steps: seq<Step>, u: State)
    requires cfg.Valid() && Inv(cfg, s) && AskedFor(cfg, s.db) && Run(cfg, s, steps) == Some(u)
    ensures AskedFor(cfg, u.db)
    decreases |steps|
  {
    hide Inv, Next, AskedFor, Grows, RowMoves, SameFleet;
    if steps != [] {
      var after := Next(cfg, s, steps[0]).value;
      StepKeeps(cfg, s, steps[0], after);
      StepAsks(cfg, s, steps[0], after);
      RunAsks(cfg, after, steps[1..], u);
    }
  }

  lemma EveryObjectIsReplicated(cfg: Config, s: State, oid: Id)
    requires cfg.Valid() && Reachable(cfg, s) && oid in s.db.objects
    ensures s.db.objects[oid].replicas == cfg.replicas >= 2
  {
    hide Inv, Run;
    StartHolds(cfg);
    var steps :| Run(cfg, START, steps) == Some(s);
    RunAsks(cfg, START, steps, s);
  }

  lemma PrepareWorks(cfg: Config, s: State, c: Id, owner: Id, digest: Digest) returns (u: State)
    requires cfg.Valid() && Inv(cfg, s) && c in s.db.chunks && Linked(s.db, c)
    requires Sees(s.db, s.db.chunks[c].upload, owner) && TakesData(s.db, s.now, s.db.chunks[c].upload)
    requires CanWrite(s.db, cfg, s.now, c, digest)
    ensures Next(cfg, s, OnPrepare(s.db.chunks[c].upload, owner, s.db.chunks[c].seqNo, digest)) == Some(u)
    ensures u.db == s.db.(chunks := s.db.chunks[c := s.db.chunks[c].(digest := Some(digest))]) && u.now == s.now
    ensures Linked(u.db, c) && CanWrite(u.db, cfg, u.now, c, digest)
  {
    hide Inv, Good, Prepare, AllLively, Places, AuthorizesPlaces;
    InvGood(cfg, s);
    PreparedExactlyIf(s.db, cfg, s.now, c, owner, digest);
    u := Next(cfg, s, OnPrepare(s.db.chunks[c].upload, owner, s.db.chunks[c].seqNo, digest)).value;
    SamePlaces(s.db, u.db, cfg, s.now, s.db.chunks[c].upload, c, s.db.chunks[c].length, digest);
  }

  lemma BeginConfirmWorks(cfg: Config, s: State, c: Id, owner: Id, digest: Digest)
    returns (snap: ConfirmSnap, u: State)
    requires cfg.Valid() && Inv(cfg, s) && c in s.db.chunks && Linked(s.db, c)
    requires Sees(s.db, s.db.chunks[c].upload, owner) && TakesData(s.db, s.now, s.db.chunks[c].upload)
    requires s.db.chunks[c].digest == Some(digest) && CanWrite(s.db, cfg, s.now, c, digest)
    ensures Next(cfg, s, OnConfirmBegin(s.db.chunks[c].upload, Some(owner), s.db.chunks[c].seqNo)) == Some(u)
    ensures snap in u.confirms && u.db == s.db && u.now == s.now
    ensures snap.chunk == c && snap.upload == s.db.chunks[c].upload && snap.owner == Some(owner)
    ensures SameHosts(s.db, c, snap.positions)
  {
    hide Inv, Good, ConfirmBegin, Positions, CanWrite, AuthorizesPlaces, SameHosts, Places, ConfirmSnapFits, PhaseOf,
      AllLively, Instances;
    var up, i := s.db.chunks[c].upload, s.db.chunks[c].seqNo;
    InvGood(cfg, s);
    ConfirmableExactlyIf(s.db, cfg, s.now, c, Some(owner));
    snap := ConfirmBegin(s.db, cfg, s.now, up, Some(owner), i).value;
    u := Next(cfg, s, OnConfirmBegin(up, Some(owner), i)).value;
    ConfirmBeginFacts(s.db, cfg, s.now, up, Some(owner), i, snap);
    HostsCompared(s.db, cfg, s.now, up, c, snap.length, snap.digest, snap.positions);
  }

  /** The chunk now holds the content, on as many valid copies as it has places; nothing else has changed but books. */
  ghost predicate Holds(t: Tables, u: Tables, c: Id, digest: Digest) {
    && c in t.chunks && u == t.(chunks := u.chunks, replicas := u.replicas, nodes := u.nodes)
    && u.chunks == t.chunks[c := t.chunks[c].(digest := Some(digest), state := ConfirmedChunk)]
    && u.replicas.Keys == t.replicas.Keys && OnlyBooks(t, u)
    && (forall k :: k in t.replicas && k.chunk != c ==> u.replicas[k] == t.replicas[k])
    && |Places(t, c)| <= |ValidRows(u, c)|
  }

  lemma CommitConfirmWorks(cfg: Config, s: State, c: Id, owner: Id, digest: Digest, snap: ConfirmSnap)
    returns (u: State)
    requires cfg.Valid() && Reachable(cfg, s) && snap in s.confirms && snap.chunk == c && snap.owner == Some(owner)
    requires c in s.db.chunks && Linked(s.db, c) && snap.upload == s.db.chunks[c].upload
    requires Sees(s.db, snap.upload, owner) && TakesData(s.db, s.now, snap.upload)
    requires s.db.chunks[c].digest == Some(digest) && CanWrite(s.db, cfg, s.now, c, digest)
    requires SameHosts(s.db, c, snap.positions)
    ensures Next(cfg, s, OnConfirmCommit(snap)) == Some(u) && u.now == s.now && Holds(s.db, u.db, c, digest)
  {
    hide Inv, Good, ConfirmCommit, Reachable, Confirms, AllLively, SameHosts, Places, ConfirmSnapFits, Holds;
    ReachableHolds(cfg, s);
    EveryObjectIsReplicated(cfg, s, ObjectIdOf(s.db, c));
    CommittedConfirmationConverts(cfg, s, snap);
    u := Next(cfg, s, OnConfirmCommit(snap)).value;
    ConfirmedHolds(s.db, u.db, snap, digest);
  }

  lemma ConfirmedHolds(t: Tables, u: Tables, snap: ConfirmSnap, digest: Digest)
    requires Confirms(t, u, snap) && t.chunks[snap.chunk].digest == Some(digest)
    requires forall n :: HoldsPlace(t, snap.chunk, n) ==> Has(u, Key(snap.chunk, n), Valid)
    ensures Holds(t, u, snap.chunk, digest)
  {
    hide TicketNodes;
    var c := snap.chunk;
    var copies := set n | n in Places(t, c) :: Key(c, n);
    KeysOf(c, Places(t, c));
    assert copies <= ValidRows(u, c);
    OneMoreSize(copies, ValidRows(u, c));
    assert t.chunks[c].(digest := Some(digest)) == t.chunks[c];
  }

  /** Whenever an upload still takes data and all places of one of its pieces are on live nodes, the piece can be sent:
      prepare, confirm and commit succeed one after the other, and the chunk holds the content on all its places. */
  lemma PieceCanBeSent(cfg: Config, s: State, c: Id, owner: Id, digest: Digest) returns (snap: ConfirmSnap, u: State)
    requires cfg.Valid() && Reachable(cfg, s) && c in s.db.chunks && Linked(s.db, c)
    requires Sees(s.db, s.db.chunks[c].upload, owner) && TakesData(s.db, s.now, s.db.chunks[c].upload)
    requires CanWrite(s.db, cfg, s.now, c, digest)
    ensures var up, i := s.db.chunks[c].upload, s.db.chunks[c].seqNo;
            Run(cfg, s, [OnPrepare(up, owner, i, digest), OnConfirmBegin(up, Some(owner), i), OnConfirmCommit(snap)])
            == Some(u)
    ensures u.now == s.now && Holds(s.db, u.db, c, digest)
  {
    hide Inv, Good, Next, Run, Reachable, AllLively, Places, Holds, SameHosts, Advances;
    var up, i := s.db.chunks[c].upload, s.db.chunks[c].seqNo;
    ReachableHolds(cfg, s);
    var prepared := PrepareWorks(cfg, s, c, owner, digest);
    ReachableOn(cfg, s, OnPrepare(up, owner, i, digest), prepared);
    ReachableHolds(cfg, prepared);
    var begun;
    snap, begun := BeginConfirmWorks(cfg, prepared, c, owner, digest);
    ReachableOn(cfg, prepared, OnConfirmBegin(up, Some(owner), i), begun);
    u := CommitConfirmWorks(cfg, begun, c, owner, digest, snap);
    ThreeSteps(cfg, s, OnPrepare(up, owner, i, digest), prepared, OnConfirmBegin(up, Some(owner), i), begun,
               OnConfirmCommit(snap), u);
    HoldsFrom(s.db, prepared.db, u.db, c, digest);
  }

  lemma HoldsFrom(t: Tables, m: Tables, u: Tables, c: Id, digest: Digest)
    requires c in t.chunks && m == t.(chunks := t.chunks[c := t.chunks[c].(digest := Some(digest))])
    requires Holds(m, u, c, digest)
    ensures Holds(t, u, c, digest)
  {
    assert Places(m, c) == Places(t, c);
  }

  // ---------------------------------------------------------------- a whole upload

  /** A piece that is done: its chunk holds the planned content on enough valid copies. */
  ghost predicate DonePiece(t: Tables, c: Id, digest: Digest, replicas: nat) {
    c in t.chunks && t.chunks[c].state.ConfirmedChunk? && t.chunks[c].digest == Some(digest)
    && replicas <= |ValidRows(t, c)|
  }

  /** Sending one piece leaves every other as it was. */
  lemma OthersCanWait(t: Tables, u: Tables, cfg: Config, now: Time, c: Id, digest: Digest, other: Id, planned: Digest)
    requires Holds(t, u, c, digest) && other != c
    ensures Linked(u, other) == Linked(t, other)
    ensures Linked(t, other) && CanWrite(t, cfg, now, other, planned) ==> CanWrite(u, cfg, now, other, planned)
    ensures forall replicas :: DonePiece(t, other, planned, replicas) ==> DonePiece(u, other, planned, replicas)
  {
    assert forall n :: HoldsPlace(u, other, n) <==> HoldsPlace(t, other, n);
    assert Places(u, other) == Places(t, other) && ValidRows(u, other) == ValidRows(t, other);
    if AllLively(t, cfg, now, other) {
      assert AllLively(u, cfg, now, other);
    }
  }

  lemma {:induction false} PiecesCanBeSent(cfg: Config, s: State, up: Id, owner: Id, plan: map<Id, Digest>,
                                           todo: set<Id>)
    returns (steps: seq<Step>, u: State)
    requires cfg.Valid() && Reachable(cfg, s) && Sees(s.db, up, owner) && TakesData(s.db, s.now, up)
    requires todo <= ChunksOf(s.db, up) <= plan.Keys
    requires forall c :: c in todo ==> Linked(s.db, c) && CanWrite(s.db, cfg, s.now, c, plan[c])
    requires forall c :: c in ChunksOf(s.db, up) && c !in todo ==> DonePiece(s.db, c, plan[c], cfg.replicas)
    ensures Run(cfg, s, steps) == Some(u) && u.now == s.now
    ensures u.db.uploads == s.db.uploads && u.db.objects == s.db.objects && ChunksOf(u.db, up) == ChunksOf(s.db, up)
    ensures forall c :: c in ChunksOf(s.db, up) ==> DonePiece(u.db, c, plan[c], cfg.replicas)
    decreases |todo|
  {
    hide Run, Next, Reachable, CanWrite, DonePiece, Linked, Holds;
    if todo == {} {
      steps, u := [], s;
      RunNothing(cfg, s);
    } else {
      var c :| c in todo;
      var snap, sent := PieceCanBeSent(cfg, s, c, owner, plan[c]);
      var first := [OnPrepare(up, owner, s.db.chunks[c].seqNo, plan[c]),
                    OnConfirmBegin(up, Some(owner), s.db.chunks[c].seqNo), OnConfirmCommit(snap)];
      ReachableRun(cfg, s, first, sent);
      SentIsDone(cfg, s, sent.db, c, plan[c]);
      HeldShape(s.db, sent.db, c, plan[c], up);
      forall d | d in ChunksOf(s.db, up) && d != c
        ensures d in todo ==> Linked(sent.db, d) && CanWrite(sent.db, cfg, s.now, d, plan[d])
        ensures d !in todo ==> DonePiece(sent.db, d, plan[d], cfg.replicas)
      {
        OthersCanWait(s.db, sent.db, cfg, s.now, c, plan[c], d, plan[d]);
      }
      var more;
      more, u := PiecesCanBeSent(cfg, sent, up, owner, plan, todo - {c});
      RunsJoin(cfg, s, first, sent, more, u);
      steps := first + more;
    }
  }

  lemma RunNothing(cfg: Config, s: State)
    requires cfg.Valid()
    ensures Run(cfg, s, []) == Some(s)
  {
  }

  lemma HeldShape(t: Tables, u: Tables, c: Id, digest: Digest, up: Id)
    requires Holds(t, u, c, digest)
    ensures u.uploads == t.uploads && u.objects == t.objects && ChunksOf(u, up) == ChunksOf(t, up)
  {
    assert ChunksOf(u, up) == ChunksOf(t, up);
  }

  lemma SentIsDone(cfg: Config, s: State, u: Tables, c: Id, digest: Digest)
    requires cfg.Valid() && Reachable(cfg, s) && Linked(s.db, c) && CanWrite(s.db, cfg, s.now, c, digest)
    requires Holds(s.db, u, c, digest)
    ensures DonePiece(u, c, digest, cfg.replicas)
  {
    hide Reachable, Places, ValidRows;
    EveryObjectIsReplicated(cfg, s, ObjectIdOf(s.db, c));
  }

  /** Whenever an upload still takes data and every place of every piece is on a live node, it can be carried through:
      there is a run, in no time, that sends every piece and publishes the object with exactly the contents planned. */
  lemma UploadCanFinish(cfg: Config, s: State, up: Id, owner: Id, plan: map<Id, Digest>)
    returns (steps: seq<Step>, u: State)
    requires cfg.Valid() && Reachable(cfg, s) && Sees(s.db, up, owner) && TakesData(s.db, s.now, up)
    requires ChunksOf(s.db, up) <= plan.Keys
    requires forall c :: c in ChunksOf(s.db, up) ==> Linked(s.db, c) && CanWrite(s.db, cfg, s.now, c, plan[c])
    ensures Run(cfg, s, steps) == Some(u) && u.now == s.now
    ensures var oid := s.db.uploads[up].oid; oid in u.db.objects && u.db.objects[oid].phase.Published?
    ensures ChunksOf(u.db, up) == ChunksOf(s.db, up)
    ensures forall c :: c in ChunksOf(s.db, up) ==> u.db.chunks[c].digest == Some(plan[c])
  {
    hide Run, Next, Reachable, CanWrite, Linked;
    var first, sent := PiecesCanBeSent(cfg, s, up, owner, plan, ChunksOf(s.db, up));
    ReachableRun(cfg, s, first, sent);
    u := CompleteWorks(cfg, sent, up, owner, plan);
    RunAppended(cfg, s, first, sent, OnComplete(up, owner), u);
    steps := first + [OnComplete(up, owner)];
  }

  lemma CompleteWorks(cfg: Config, s: State, up: Id, owner: Id, plan: map<Id, Digest>) returns (u: State)
    requires cfg.Valid() && Reachable(cfg, s) && Sees(s.db, up, owner) && TakesData(s.db, s.now, up)
    requires ChunksOf(s.db, up) <= plan.Keys
    requires forall c :: c in ChunksOf(s.db, up) ==> DonePiece(s.db, c, plan[c], cfg.replicas)
    ensures Next(cfg, s, OnComplete(up, owner)) == Some(u) && u.now == s.now
    ensures s.db.uploads[up].oid in u.db.objects && u.db.objects[s.db.uploads[up].oid].phase.Published?
    ensures u.db.chunks == s.db.chunks && ChunksOf(u.db, up) == ChunksOf(s.db, up)
    ensures forall c :: c in ChunksOf(s.db, up) ==> u.db.chunks[c].digest == Some(plan[c])
  {
    hide Inv, Good, Reachable, Complete, ValidRows;
    ReachableHolds(cfg, s);
    InvGood(cfg, s);
    EveryObjectIsReplicated(cfg, s, s.db.uploads[up].oid);
    PublishedExactlyWhenWhole(s.db, s.now, up, owner);
    PublishingTouches(s.db, s.now, up, owner);
    u := Next(cfg, s, OnComplete(up, owner)).value;
    assert ChunksOf(u.db, up) == ChunksOf(s.db, up);
  }

  // ---------------------------------------------------------------- from creation to publication

  /** Every chunk of a new upload can be written with anything: its places are all there, on live nodes. */
  lemma NewChunksAreWritable(cfg: Config, s: State, step: Step, u: State, c: Id, digest: Digest)
    requires cfg.Valid() && Reachable(cfg, s) && step.OnInit? && Next(cfg, s, step) == Some(u)
    requires c in ChunksOf(u.db, step.up)
    ensures Linked(u.db, c) && CanWrite(u.db, cfg, u.now, c, digest)
  {
    hide Inv, Good, Reachable, Next, RowMoves, Grows, SameFleet, OnlyAdds, Loaded, AddsPending, FreshIds, CanWrite,
      ChunksOf;
    ReachableHolds(cfg, s);
    StepKeeps(cfg, s, step, u);
    InvGood(cfg, s);
    InvGood(cfg, u);
    CreatedIs(cfg, s, step, u);
    NewChunk(s.db, u.db, step.oid, step.up, step.cids, c);
    StagingCount(u.db, c);
    AllPlacesLively(s.db, u.db, cfg, s.now, c, digest);
  }

  lemma NewChunk(t: Tables, u: Tables, oid: Id, up: Id, cids: seq<Id>, c: Id)
    requires Good(t) && Good(u) && AddsPending(t, u, up) && OnlyAdds(t, u, oid, up, cids)
    requires FreshIds(t, oid, up, cids) && c in ChunksOf(u, up)
    requires up in u.uploads && u.uploads[up].oid == oid && oid in u.objects && u.objects[oid].phase.Staging?
    ensures Linked(u, c) && PhaseOf(u, c) == Some(Staging) && u.chunks[c].digest.None?
    ensures forall n :: Key(c, n) !in t.replicas
  {
    hide Good, FreshChunks;
    GoodLinks(t);
    GoodLinks(u);
    KnownRows(t);
  }

  lemma KnownRows(t: Tables)
    requires Good(t)
    ensures RowsPlaced(t)
  {
  }

  lemma AllPlacesLively(t: Tables, u: Tables, cfg: Config, now: Time, c: Id, digest: Digest)
    requires Loaded(t, u, cfg, now) && Linked(u, c) && u.chunks[c].digest.None?
    requires forall n :: Key(c, n) !in t.replicas
    requires |RowKeys(u, c)| == ObjectOf(u, c).replicas
    ensures CanWrite(u, cfg, now, c, digest)
  {
    forall n | Key(c, n) in u.replicas ensures HoldsPlace(u, c, n) && Lively(u.nodes[n], cfg, now) {
    }
    var keys := set n | n in Places(u, c) :: Key(c, n);
    KeysOf(c, Places(u, c));
    forall k | k in RowKeys(u, c) ensures k in keys {
      assert k == Key(c, k.node) && k.node in Places(u, c);
    }
    assert keys == RowKeys(u, c);
    assert |Places(u, c)| == |RowKeys(u, c)|;
    assert AllLively(u, cfg, now, c);
  }

  /** Every object that can be created at all can be uploaded: from its creation on, with no time passing, there is a
      run that sends every piece and publishes the object with exactly the contents planned. */
  lemma CreatedCanBePublished(cfg: Config, s: State, step: Step, created: State, plan: map<Id, Digest>)
    returns (steps: seq<Step>, u: State)
    requires cfg.Valid() && Reachable(cfg, s) && step.OnInit? && Next(cfg, s, step) == Some(created)
    requires ChunksOf(created.db, step.up) <= plan.Keys
    ensures Run(cfg, s, [step] + steps) == Some(u) && u.now == s.now
    ensures step.oid in u.db.objects && u.db.objects[step.oid].phase.Published?
    ensures ChunksOf(u.db, step.up) == ChunksOf(created.db, step.up)
    ensures forall c :: c in ChunksOf(created.db, step.up) ==> u.db.chunks[c].digest == Some(plan[c])
  {
    hide Inv, Run, Next, Reachable, CanWrite, Linked, OnlyAdds, Loaded, AddsPending, FreshIds, ChunksOf;
    ReachableHolds(cfg, s);
    CreatedIs(cfg, s, step, created);
    ReachableOn(cfg, s, step, created);
    forall c | c in ChunksOf(created.db, step.up)
      ensures Linked(created.db, c) && CanWrite(created.db, cfg, created.now, c, plan[c])
    {
      NewChunksAreWritable(cfg, s, step, created, c, plan[c]);
    }
    steps, u := UploadCanFinish(cfg, created, step.up, step.owner, plan);
    OneStep(cfg, s, step, created);
    RunsJoin(cfg, s, [step], created, steps, u);
    PlannedChunks(u.db, step.up);
  }

  lemma PlannedChunks(t: Tables, up: Id)
    ensures ChunksOf(t, up) <= t.chunks.Keys
  {
  }
}
