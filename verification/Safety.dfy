/** What the protocol promises, over every run and every interleaving. */
module Safety {
  import opened Schema
  import opened Sums
  import opened Transactions
  import opened Accounting
  import opened Invariants
  import opened Preservation
  import opened Moves
  import opened Protocol
  import opened Runs

  ghost predicate Reachable(cfg: Config, s: State)
    requires cfg.Valid()
  {
    exists steps :: Run(cfg, START, steps) == Some(s)
  }

  lemma StartIsReachable(cfg: Config)
    requires cfg.Valid()
    ensures Reachable(cfg, START)
  {
    assert Run(cfg, START, []) == Some(START);
  }

  lemma ReachableHolds(cfg: Config, s: State)
    requires cfg.Valid() && Reachable(cfg, s)
    ensures Inv(cfg, s)
  {
    hide Inv, Run;
    var steps :| Run(cfg, START, steps) == Some(s);
    StartHolds(cfg);
    RunKeeps(cfg, START, steps, s);
  }

  // ---------------------------------------------------------------- nothing is forgotten

  lemma GrowsOn(t: Tables, u: Tables, v: Tables)
    requires Grows(t, u) && Grows(u, v)
    ensures Grows(t, v)
  {
  }

  lemma GrowsNot(t: Tables)
    ensures Grows(t, t)
  {
  }

  /** Rows, tasks and ids are never dropped, phases only move forward, a finished upload stays as it ended, a digest is
      written once. */
  lemma {:induction false} RunGrows(cfg: Config, s: State, steps: seq<Step>, u: State)
    requires cfg.Valid() && Inv(cfg, s) && Run(cfg, s, steps) == Some(u)
    ensures Grows(s.db, u.db)
    decreases |steps|
  {
    hide Inv, Next, Grows, RowMoves, SameFleet;
    GrowsNot(s.db);
    if steps != [] {
      var after := Next(cfg, s, steps[0]).value;
      StepKeeps(cfg, s, steps[0], after);
      RunGrows(cfg, after, steps[1..], u);
      GrowsOn(s.db, after.db, u.db);
    }
  }

  // ---------------------------------------------------------------- capacity is conserved

  /** In every reachable state a node's two figures are exactly the lengths of the chunks charged to it,
      and neither is ever negative. */
  lemma CapacityIsConserved(cfg: Config, s: State, n: Id)
    requires cfg.Valid() && Reachable(cfg, s) && n in s.db.nodes
    ensures s.db.nodes[n].reserved == Charged(s.db, n, ReservedCharge) >= 0
    ensures s.db.nodes[n].used == Charged(s.db, n, UsedCharge) >= 0
  {
    hide Run, Sound, Known, Held, SnapsFit, TicketsWait, TargetsHeld, MarksHeld, Registered, Charged;
    ReachableHolds(cfg, s);
    assert NodeBalanced(s.db, n);
    FiguresNonNegative(s.db, n);
  }

  // ---------------------------------------------------------------- deletion is final

  predicate OfObject(t: Tables, oid: Id, c: Id) {
    Linked(t, c) && ObjectIdOf(t, c) == oid
  }

  /** Everything about the object is on its way out. */
  ghost predicate Retired(t: Tables, oid: Id) {
    && oid in t.objects && t.objects[oid].phase.Deleted?
    && (forall up :: up in t.uploads && t.uploads[up].oid == oid
          ==> t.uploads[up].state.Cancelled? || t.uploads[up].state.Expired?)
    && (forall k :: k in t.replicas && OfObject(t, oid, k.chunk)
          ==> Doomed(t.replicas[k].state) && !t.replicas[k].charge.ReservedCharge?)
    && (forall c :: OfObject(t, oid, c) ==> !Open(t, RepairOf(c)))
  }

  lemma DeletedIsRetired(t: Tables, oid: Id)
    requires Good(t) && oid in t.objects && t.objects[oid].phase.Deleted?
    ensures Retired(t, oid)
  {
    hide Balanced, Counts, Pieces;
    forall k | k in t.replicas && OfObject(t, oid, k.chunk)
      ensures Doomed(t.replicas[k].state) && !t.replicas[k].charge.ReservedCharge? {
      assert RowOk(t, k);
    }
    forall c | OfObject(t, oid, c) ensures !Open(t, RepairOf(c)) {
      assert Open(t, RepairOf(c)) ==> TaskOk(t, RepairOf(c));
    }
    forall up | up in t.uploads && t.uploads[up].oid == oid
      ensures t.uploads[up].state.Cancelled? || t.uploads[up].state.Expired?
    {
      assert PairOk(t.uploads[up].state, t.objects[oid].phase);
    }
  }

  /** Once deleted, an object stays deleted and retired through any further run. */
  lemma DeletionIsFinal(cfg: Config, s: State, steps: seq<Step>, u: State, oid: Id)
    requires cfg.Valid() && Reachable(cfg, s) && Run(cfg, s, steps) == Some(u)
    requires oid in s.db.objects && s.db.objects[oid].phase.Deleted?
    ensures Retired(u.db, oid) && u.db.objects[oid] == s.db.objects[oid]
  {
    hide Inv, Good, Run, Retired;
    ReachableHolds(cfg, s);
    RunGrows(cfg, s, steps, u);
    RunKeeps(cfg, s, steps, u);
    InvGood(cfg, u);
    DeletedIsRetired(u.db, oid);
  }

  /** No operation in flight, whatever it remembers, can commit anything for a deleted object. */
  lemma DeletedRefusesCommits(cfg: Config, s: State, oid: Id)
    requires cfg.Valid() && Reachable(cfg, s) && oid in s.db.objects && s.db.objects[oid].phase.Deleted?
    ensures forall snap :: snap in s.confirms && OfObject(s.db, oid, snap.chunk) ==>
                  ConfirmCommit(s.db, cfg, s.now, snap).Fail?
    ensures forall copy :: copy in s.copies && OfObject(s.db, oid, copy.snap.chunk)
              ==> RepairCommit(s.db, cfg, s.now, copy.token, copy.snap).Fail?
  {
    hide Run, Good, Known, Held, TicketsWait, TargetsHeld, MarksHeld, Registered, Positions, HealthyNodes;
    ReachableHolds(cfg, s);
  }

  /** Nor does any request: uploads of a deleted object authorize, publish and expire nothing, and it cannot be read. */
  lemma DeletedRefusesRequests(cfg: Config, s: State, oid: Id, up: Id)
    requires cfg.Valid() && Reachable(cfg, s) && oid in s.db.objects && s.db.objects[oid].phase.Deleted?
    requires up in s.db.uploads && s.db.uploads[up].oid == oid
    ensures forall owner, seqNo, digest :: Prepare(s.db, cfg, s.now, up, owner, seqNo, digest).Fail?
    ensures forall asking, seqNo :: ConfirmBegin(s.db, cfg, s.now, up, asking, seqNo).Fail?
    ensures forall owner :: Complete(s.db, s.now, up, owner).Fail? && PublishedObject(s.db, oid, owner).Fail?
    ensures forall owner :: Cancel(s.db, cfg, s.now, up, owner).Ok? ==>
                  Cancel(s.db, cfg, s.now, up, owner).value == s.db
    ensures !Overdue(s.db, s.now, up)
  {
    hide Inv, Good, Run, Positions, PieceReady, ChunkAt, Retire;
    ReachableHolds(cfg, s);
    InvGood(cfg, s);
    DeletedIsRetired(s.db, oid);
  }

  // ---------------------------------------------------------------- no capacity leaks

  /** A row of a deleted object that is still on the books has a deletion pending or running. */
  lemma ChargedRowsAreQueued(cfg: Config, s: State, k: Key)
    requires cfg.Valid() && Reachable(cfg, s) && k in s.db.replicas && PhaseOf(s.db, k.chunk) == Some(Deleted)
    requires !s.db.replicas[k].charge.NoCharge?
    ensures s.db.replicas[k].charge.UsedCharge? && Open(s.db, DeleteOf(k.chunk, k.node))
  {
    hide Run, Balanced, Known, Held, SnapsFit, TicketsWait, TargetsHeld, MarksHeld, Registered, PhaseOf;
    ReachableHolds(cfg, s);
    GoodRows(s.db);
    assert RowOk(s.db, k);
  }

  ghost function RowsOfObject(t: Tables, oid: Id): set<Key> {
    set k | k in t.replicas && OfObject(t, oid, k.chunk)
  }

  /** Once all its deletions are done, a deleted object weighs nothing on any node. */
  lemma NothingLeaks(cfg: Config, s: State, oid: Id, n: Id, charge: Charge)
    requires cfg.Valid() && Reachable(cfg, s) && oid in s.db.objects && s.db.objects[oid].phase.Deleted?
    requires !charge.NoCharge?
    requires forall k :: k in RowsOfObject(s.db, oid) ==> !Open(s.db, DeleteOf(k.chunk, k.node))
    ensures Total(RowsOfObject(s.db, oid), Weigher(s.db, n, charge)) == 0
  {
    hide Run, Reachable, Open;
    forall k | k in RowsOfObject(s.db, oid) ensures Weigher(s.db, n, charge)(k) == 0 {
      if !s.db.replicas[k].charge.NoCharge? {
        ChargedRowsAreQueued(cfg, s, k);
      }
    }
    TotalOfZeros(RowsOfObject(s.db, oid), Weigher(s.db, n, charge));
  }

  // ---------------------------------------------------------------- tickets run out before cleanup starts

  /** A deletion can only be claimed, and only runs, once every upload ticket for its chunk has expired. */
  lemma CleanupFindsNoTicket(cfg: Config, s: State, c: Id, n: Id, p: Ticket)
    requires cfg.Valid() && Reachable(cfg, s) && p in s.tickets && p.chunk == c
    requires Claimable(s.db, s.now, DeleteOf(c, n))
             || (DeleteOf(c, n) in s.db.tasks && s.db.tasks[DeleteOf(c, n)].state.Running?)
    ensures p.expires < s.now
  {
    hide Run, Good, Known, Held, SnapsFit, TargetsHeld, MarksHeld, Registered;
    ReachableHolds(cfg, s);
    assert Waits(s.db, s.now, p, n);
  }

  // ---------------------------------------------------------------- repair

  /** A token is good for one task only, and a task answers to one token only. */
  lemma OneWorkerPerTask(cfg: Config, s: State, x: TaskKey, y: TaskKey, a: Id, b: Id)
    requires cfg.Valid() && Reachable(cfg, s) && Fenced(s.db, s.now, x, a) && Fenced(s.db, s.now, y, b)
    ensures x == y <==> a == b
  {
    hide Run, Good, Known, SnapsFit, TicketsWait, TargetsHeld, MarksHeld, Registered;
    ReachableHolds(cfg, s);
    assert Holder(s.db, x) == Some(a) && Holder(s.db, y) == Some(b);
  }

  /** A published chunk never has two reservations, and a repair in progress still owns its target. */
  lemma OneReservation(cfg: Config, s: State, c: Id)
    requires cfg.Valid() && Reachable(cfg, s) && PhaseOf(s.db, c) == Some(Published)
    ensures forall m, n :: IsReserved(s.db, c, m) && IsReserved(s.db, c, n) ==> m == n
    ensures forall copy :: copy in s.copies && copy.snap.chunk == c && Fenced(s.db, s.now, RepairOf(c), copy.token)
              ==> forall n :: IsReserved(s.db, c, n) <==> n == copy.snap.target
  {
    hide Inv, Run, Good, PhaseOf, Fenced;
    ReachableHolds(cfg, s);
    InvGood(cfg, s);
    PublishedReservations(s.db, c);
    forall copy | copy in s.copies && copy.snap.chunk == c && Fenced(s.db, s.now, RepairOf(c), copy.token)
      ensures IsReserved(s.db, c, copy.snap.target) {
      TargetIsReserved(cfg, s, copy);
    }
  }

  lemma PublishedReservations(t: Tables, c: Id)
    requires Good(t) && PhaseOf(t, c) == Some(Published)
    ensures forall m, n :: IsReserved(t, c, m) && IsReserved(t, c, n) ==> m == n
  {
    hide Balanced, IsReserved;
    assert CountOk(t, c);
  }

  lemma TargetIsReserved(cfg: Config, s: State, copy: Copy)
    requires Inv(cfg, s) && copy in s.copies && Fenced(s.db, s.now, RepairOf(copy.snap.chunk), copy.token)
    ensures IsReserved(s.db, copy.snap.chunk, copy.snap.target)
  {
    hide Good, Known, Held, SnapsFit, TicketsWait, MarksHeld, Registered;
  }

  /** A repair that finds a reservation left by an earlier attempt takes it over and reserves nothing. */
  lemma CrashedRepairIsResumed(t: Tables, cfg: Config, now: Time, c: Id, token: Id, pending: Option<Id>, order: seq<Id>,
                               n: Id, out: (Tables, Option<RepairSnap>))
    requires Good(t) && n in t.nodes && IsReserved(t, c, n) && PendingChoice(t, c, pending)
    requires RepairBegin(t, cfg, now, c, token, pending, order) == Ok(out) && out.1.Some?
    ensures out.0 == t && out.1.value.target == n
  {
    assert n in ReservedNodes(t, c) && pending.Some? && IsReserved(t, c, pending.value);
    hide Good, RepairBegin, ReservedNodes, PhaseOf;
    ResumedTables(t, cfg, now, c, token, pending, order, out);
    PublishedReservations(t, c);
  }

  lemma ResumedTables(t: Tables, cfg: Config, now: Time, c: Id, token: Id, pending: Option<Id>, order: seq<Id>,
                      out: (Tables, Option<RepairSnap>))
    requires pending.Some? && pending.value in ReservedNodes(t, c)
    requires RepairBegin(t, cfg, now, c, token, pending, order) == Ok(out) && out.1.Some?
    ensures out.0 == t && out.1.value.target == pending.value && PhaseOf(t, c) == Some(Published)
  {
    hide HealthyNodes, Reserve;
  }

  lemma OneMore<T>(a: set<T>, b: set<T>, x: T)
    requires b <= a + {x}
    ensures |b| <= |a| + 1
  {
    OneMoreSize(b, a + {x});
  }

  lemma OneMoreSize<T>(a: set<T>, b: set<T>)
    requires a <= b
    ensures |a| <= |b|
  {
    assert b == a + (b - a);
  }

  /** Finishing a repair never lifts the number of healthy replicas above what is required. */
  lemma RepairNeverOverfills(t: Tables, cfg: Config, now: Time, token: Id, snap: RepairSnap, u: Tables)
    requires RepairCommit(t, cfg, now, token, snap) == Ok(u)
    ensures HealthyNodes(u, cfg, now, snap.chunk) <= HealthyNodes(t, cfg, now, snap.chunk)
            || |HealthyNodes(u, cfg, now, snap.chunk)| <= snap.required
  {
    hide Uncharge, Enqueue, Live;
    var c, k := snap.chunk, Key(snap.chunk, snap.target);
    if snap.required <= |HealthyNodes(t, cfg, now, c)| {
      SurplusIsNotHealthier(t, cfg, now, token, snap, u);
    } else {
      assert forall n :: n in t.nodes ==> n in u.nodes && Live(u.nodes[n], cfg, now) == Live(t.nodes[n], cfg, now) by {
        LiveKept(t, u, cfg, now, token, snap);
      }
      assert HealthyNodes(u, cfg, now, c) <= HealthyNodes(t, cfg, now, c) + {snap.target};
      OneMore(HealthyNodes(t, cfg, now, c), HealthyNodes(u, cfg, now, c), snap.target);
    }
  }

  lemma LiveKept(t: Tables, u: Tables, cfg: Config, now: Time, token: Id, snap: RepairSnap)
    requires RepairCommit(t, cfg, now, token, snap) == Ok(u) && |HealthyNodes(t, cfg, now, snap.chunk)| < snap.required
    ensures forall n :: n in t.nodes ==> n in u.nodes && Live(u.nodes[n], cfg, now) == Live(t.nodes[n], cfg, now)
  {
    hide HealthyNodes;
  }

  lemma SurplusIsNotHealthier(t: Tables, cfg: Config, now: Time, token: Id, snap: RepairSnap, u: Tables)
    requires RepairCommit(t, cfg, now, token, snap) == Ok(u) && snap.required <= |HealthyNodes(t, cfg, now, snap.chunk)|
    ensures HealthyNodes(u, cfg, now, snap.chunk) <= HealthyNodes(t, cfg, now, snap.chunk)
  {
    var k := Key(snap.chunk, snap.target);
    var t1 := Uncharge(t, k, snap.length);
    var t2 := SetRow(t1, k, t1.replicas[k].(state := Bad));
    EnqueueShape(t2, DeleteOf(snap.chunk, snap.target), now + cfg.CleanupDelay());
    assert u.replicas == t2.replicas && u.nodes == t1.nodes;
  }

  // ---------------------------------------------------------------- deletions are safe

  /** A removal is only ever begun for a row nobody relies on: never while the object is staging, and for a
      published object only if the row is no live copy and enough healthy copies exist on other nodes. */
  lemma RemovalIsSafe(t: Tables, cfg: Config, now: Time, c: Id, n: Id, token: Id, out: (Tables, DeleteSnap))
    requires Good(t) && DeleteBegin(t, cfg, now, c, n, token) == Ok(out)
    ensures PhaseOf(t, c) != Some(Staging)
    ensures PhaseOf(t, c) == Some(Published) ==>
              && ObjectOf(t, c).replicas <= |HealthyNodes(t, cfg, now, c) - {n}|
              && (Key(c, n) in t.replicas ==> t.replicas[Key(c, n)].state.Bad? || Doomed(t.replicas[Key(c, n)].state))
  {
    hide Good;
    DeleteBeginGood(t, cfg, now, c, n, token, out);
    if PhaseOf(t, c) == Some(Published) {
      assert n !in HealthyNodes(t, cfg, now, c);
      assert HealthyNodes(t, cfg, now, c) - {n} == HealthyNodes(t, cfg, now, c);
    }
  }

  /** When this removal is begun nobody relies on its row. */
  ghost predicate SafelyBegun(cfg: Config, s: State, r: Removal) {
    && PhaseOf(s.db, r.chunk) != Some(Staging)
    && (PhaseOf(s.db, r.chunk) == Some(Published) ==>
          && ObjectOf(s.db, r.chunk).replicas <= |HealthyNodes(s.db, cfg, s.now, r.chunk) - {r.node}|
          && (Key(r.chunk, r.node) in s.db.replicas ==>
                s.db.replicas[Key(r.chunk, r.node)].state.Bad? || Doomed(s.db.replicas[Key(r.chunk, r.node)].state)))
  }

  lemma DeleteStepBegins(cfg: Config, s: State, token: Id, u: State)
    requires Inv(cfg, s) && DeleteBeginStep(cfg, s, token) == Some(u)
    ensures forall r :: r in u.removals ==> r in s.removals || (r.token == token && SafelyBegun(cfg, s, r))
  {
    hide Inv, DeleteBegin, HealthyNodes, PhaseOf, Good;
    InvGood(cfg, s);
    var c, n := s.jobs[token].chunk, s.jobs[token].node;
    RemovalIsSafe(s.db, cfg, s.now, c, n, token, DeleteBegin(s.db, cfg, s.now, c, n, token).value);
  }

  /** Only beginning a deletion brings a new removal. */
  lemma RemovalsBegun(cfg: Config, s: State, step: Step, u: State)
    requires cfg.Valid() && Inv(cfg, s) && Next(cfg, s, step) == Some(u)
    ensures forall r :: r in u.removals ==>
                  r in s.removals || (step == OnDeleteBegin(r.token) && SafelyBegun(cfg, s, r))
  {
    hide Inv, Init, Prepare, ConfirmBegin, RepairBegin, ClaimStep, DeleteBeginStep, Retire, Linked, PhaseOf,
      HealthyNodes, Complete, Cancel, Delete, BadReplica, ConfirmCommit, Heartbeat, GradeNodes, Enqueue, SettleRow,
      SettleListed, GiveBack, DeleteCommit, RepairCommit, NeedsRepair, SafelyBegun;
    match step
    case OnDeleteBegin(token) => DeleteStepBegins(cfg, s, token, u);
    case OnClaim(key, token) => ClaimBeginsNothing(cfg, s, key, token, u);
    case _ =>
  }

  lemma ClaimBeginsNothing(cfg: Config, s: State, key: TaskKey, token: Id, u: State)
    requires ClaimStep(cfg, s, key, token) == Some(u)
    ensures u.removals == s.removals
  {
  }

  /** Every removal a worker ever issues was begun at some moment of the run at which the object was not staging and,
      if it was published, the row was no copy in use and enough healthy copies were on other nodes. */
  lemma {:induction false} RemovalsHaveSafeOrigins(cfg: Config, s: State, steps: seq<Step>, u: State, r: Removal)
    returns (i: nat, mid: State)
    requires cfg.Valid() && Inv(cfg, s) && Run(cfg, s, steps) == Some(u) && r in u.removals && r !in s.removals
    ensures i < |steps| && Run(cfg, s, steps[..i]) == Some(mid) && steps[i] == OnDeleteBegin(r.token)
    ensures SafelyBegun(cfg, mid, r)
    decreases |steps|
  {
    hide Inv, Next, Grows, RowMoves, SameFleet, SafelyBegun;
    if steps == [] {
      assert false;
    } else {
      var after := Next(cfg, s, steps[0]).value;
      StepKeeps(cfg, s, steps[0], after);
      RemovalsBegun(cfg, s, steps[0], after);
      if r in after.removals {
        i, mid := 0, s;
        assert steps[..0] == [];
      } else {
        var j;
        j, mid := RemovalsHaveSafeOrigins(cfg, after, steps[1..], u, r);
        i := j + 1;
        assert steps[..i][1..] == steps[1..][..j];
      }
    }
  }

  /** As long as the worker's fence holds, the row it marked for removal stays marked. */
  lemma MarkOutlivesFence(cfg: Config, s: State, r: Removal)
    requires cfg.Valid() && Reachable(cfg, s) && r in s.removals && r.marked
    requires Fenced(s.db, s.now, DeleteOf(r.chunk, r.node), r.token)
    ensures Has(s.db, Key(r.chunk, r.node), Deleting) && PhaseOf(s.db, r.chunk) != Some(Staging)
  {
    hide Run, Balanced, Known, Held, SnapsFit, TicketsWait, TargetsHeld, Registered, PhaseOf;
    ReachableHolds(cfg, s);
    GoodRows(s.db);
    assert TaskOk(s.db, DeleteOf(r.chunk, r.node));
  }

  /** A row under deletion can only be reserved again after some moment at which it was gone. */
  lemma {:induction false} ReReservedOnlyAfterGone(cfg: Config, s: State, steps: seq<Step>, u: State, k: Key)
    returns (i: nat, mid: State)
    requires cfg.Valid() && Inv(cfg, s) && Run(cfg, s, steps) == Some(u)
    requires Has(s.db, k, Deleting) && Has(u.db, k, Reserved)
    ensures i <= |steps| && Run(cfg, s, steps[..i]) == Some(mid) && Has(mid.db, k, Gone)
    decreases |steps|
  {
    hide Inv, Next, Grows, SameFleet;
    if steps == [] {
      assert false;
    } else {
      var after := Next(cfg, s, steps[0]).value;
      StepKeeps(cfg, s, steps[0], after);
      RowStays(s.db, after.db, k);
      if Has(after.db, k, Gone) {
        i, mid := 1, after;
        assert steps[..1] == [steps[0]] && [steps[0]][1..] == [];
        assert Run(cfg, after, []) == Some(after);
      } else {
        var j;
        j, mid := ReReservedOnlyAfterGone(cfg, after, steps[1..], u, k);
        i := j + 1;
        assert steps[..i][1..] == steps[1..][..j];
      }
    }
  }

  lemma RowStays(t: Tables, u: Tables, k: Key)
    requires Advances(t, u) && Has(t, k, Deleting)
    ensures Has(u, k, Deleting) || Has(u, k, Gone)
  {
  }

  // ---------------------------------------------------------------- registration

  /** Valid, bad and reserved rows always carry their node's present volume. */
  lemma RowsCarryTheVolume(cfg: Config, s: State, k: Key)
    requires cfg.Valid() && Reachable(cfg, s) && k in s.db.replicas
    requires s.db.replicas[k].state.Valid? || s.db.replicas[k].state.Bad? || s.db.replicas[k].state.Reserved?
    ensures k.node in s.db.nodes && s.db.replicas[k].volume == s.db.nodes[k.node].volume
  {
    hide Run, Balanced, Known, Held, SnapsFit, TicketsWait, TargetsHeld, MarksHeld, Registered, PhaseOf;
    ReachableHolds(cfg, s);
    GoodRows(s.db);
    assert RowOk(s.db, k);
  }

  /** A node changes hands only by a heartbeat after `dead` seconds of silence, and the old instance is retired. */
  lemma TakeoverNeedsSilence(cfg: Config, s: State, step: Step, u: State, n: Id)
    requires cfg.Valid() && Reachable(cfg, s) && Next(cfg, s, step) == Some(u) && n in s.db.nodes
    ensures n in u.db.nodes
    ensures u.db.nodes[n].instance != s.db.nodes[n].instance ==>
              && step.OnHeartbeat? && step.beat.node == n && cfg.dead <= step.beat.readAt - s.db.nodes[n].heartbeat
              && (n, s.db.nodes[n].instance) in u.db.retired && (n, u.db.nodes[n].instance) !in s.db.retired
  {
    hide Inv, Run, RowMoves, MovedRow;
    ReachableHolds(cfg, s);
    StepKeeps(cfg, s, step, u);
  }

  lemma {:induction false} ReplacedIsRetired(cfg: Config, s: State, steps: seq<Step>, u: State, n: Id)
    requires cfg.Valid() && Reachable(cfg, s) && Run(cfg, s, steps) == Some(u) && n in s.db.nodes
    ensures n in u.db.nodes
    ensures u.db.nodes[n].instance != s.db.nodes[n].instance ==> (n, s.db.nodes[n].instance) in u.db.retired
    decreases |steps|
  {
    hide Inv, Next, RowMoves;
    if steps != [] {
      var after := Next(cfg, s, steps[0]).value;
      TakeoverNeedsSilence(cfg, s, steps[0], after, n);
      ReachableHolds(cfg, s);
      StepKeeps(cfg, s, steps[0], after);
      ReachableOn(cfg, s, steps[0], after);
      ReplacedIsRetired(cfg, after, steps[1..], u, n);
      RunGrows(cfg, after, steps[1..], u);
    }
  }

  lemma {:induction false} RunAppended(cfg: Config, s: State, steps: seq<Step>, mid: State, step: Step, u: State)
    requires cfg.Valid() && Run(cfg, s, steps) == Some(mid) && Next(cfg, mid, step) == Some(u)
    ensures Run(cfg, s, steps + [step]) == Some(u)
    decreases |steps|
  {
    hide Next;
    if steps == [] {
      assert ([] + [step])[1..] == [];
      assert Run(cfg, u, []) == Some(u);
    } else {
      RunAppended(cfg, Next(cfg, s, steps[0]).value, steps[1..], mid, step, u);
      assert (steps + [step])[1..] == steps[1..] + [step];
    }
  }

  lemma {:induction false} RunsJoin(cfg: Config, s: State, xs: seq<Step>, mid: State, ys: seq<Step>, u: State)
    requires cfg.Valid() && Run(cfg, s, xs) == Some(mid) && Run(cfg, mid, ys) == Some(u)
    ensures Run(cfg, s, xs + ys) == Some(u)
    decreases |xs|
  {
    hide Next;
    if xs == [] {
      assert [] + ys == ys;
    } else {
      RunsJoin(cfg, Next(cfg, s, xs[0]).value, xs[1..], mid, ys, u);
      assert (xs + ys)[1..] == xs[1..] + ys;
    }
  }

  lemma OneStep(cfg: Config, s: State, step: Step, u: State)
    requires cfg.Valid() && Next(cfg, s, step) == Some(u)
    ensures Run(cfg, s, [step]) == Some(u)
  {
    hide Next;
    assert [step][1..] == [];
    assert Run(cfg, u, []) == Some(u);
  }

  lemma ReachableOn(cfg: Config, s: State, step: Step, u: State)
    requires cfg.Valid() && Reachable(cfg, s) && Next(cfg, s, step) == Some(u)
    ensures Reachable(cfg, u)
  {
    hide Next, Run;
    var steps :| Run(cfg, START, steps) == Some(s);
    RunAppended(cfg, START, steps, s, step, u);
  }

  lemma {:induction false} ReachableRun(cfg: Config, s: State, steps: seq<Step>, u: State)
    requires cfg.Valid() && Reachable(cfg, s) && Run(cfg, s, steps) == Some(u)
    ensures Reachable(cfg, u)
    decreases |steps|
  {
    hide Next, Reachable;
    if steps != [] {
      var after := Next(cfg, s, steps[0]).value;
      ReachableOn(cfg, s, steps[0], after);
      ReachableRun(cfg, after, steps[1..], u);
    }
  }

  /** An instance that has been replaced never serves its node again. */
  lemma InstancesNeverReturn(cfg: Config, s: State, steps: seq<Step>, u: State, more: seq<Step>, v: State, n: Id)
    requires cfg.Valid() && Reachable(cfg, s) && Run(cfg, s, steps) == Some(u) && Run(cfg, u, more) == Some(v)
    requires n in s.db.nodes && n in u.db.nodes && u.db.nodes[n].instance != s.db.nodes[n].instance
    ensures n in v.db.nodes && v.db.nodes[n].instance != s.db.nodes[n].instance
  {
    hide Run, Good, Known, Held, SnapsFit, TicketsWait, TargetsHeld, MarksHeld, Reachable;
    ReplacedIsRetired(cfg, s, steps, u, n);
    ReachableRun(cfg, s, steps, u);
    ReachableHolds(cfg, u);
    RunGrows(cfg, u, more, v);
    RunKeeps(cfg, u, more, v);
  }

  // ---------------------------------------------------------------- silent nodes

  /** After grading, in any reachable state, readers and repairs are sent exactly to the nodes that have a valid replica
      and were heard from within the last `suspect` seconds, whatever they were graded before. */
  lemma GradingFindsTheLive(cfg: Config, s: State, u: State, c: Id, n: Id)
    requires cfg.Valid() && Reachable(cfg, s) && Next(cfg, s, OnGrade) == Some(u)
    ensures n in HealthyNodes(u.db, cfg, u.now, c) <==>
              Has(s.db, Key(c, n), Valid) && n in s.db.nodes && s.now - s.db.nodes[n].heartbeat < cfg.suspect
  {
    hide Reachable;
    if Has(s.db, Key(c, n), Valid) {
      RowsCarryTheVolume(cfg, s, Key(c, n));
    }
  }

  predicate Silent(t: Tables, cfg: Config, now: Time, n: Id) {
    n in t.nodes && cfg.suspect <= now - t.nodes[n].heartbeat
  }

  /** A repair only ever targets a live node. */
  lemma TargetIsLive(t: Tables, cfg: Config, now: Time, c: Id, token: Id, pending: Option<Id>, order: seq<Id>,
                     out: (Tables, Option<RepairSnap>))
    requires pending.Some? ==> pending.value in ReservedNodes(t, c)
    requires RepairBegin(t, cfg, now, c, token, pending, order) == Ok(out) && out.1.Some?
    ensures out.1.value.target in t.nodes && Live(t.nodes[out.1.value.target], cfg, now)
  {
    hide HealthyNodes;
    if pending.None? {
      ReserveOne(t, cfg, now, c, t.chunks[c].length, Occupied(t, c), order);
    }
  }

  predicate HeardFrom(step: Step, n: Id) {
    step.OnHeartbeat? && step.beat.node == n
  }

  lemma SilenceLasts(cfg: Config, s: State, step: Step, u: State, n: Id)
    requires cfg.Valid() && Inv(cfg, s) && Next(cfg, s, step) == Some(u) && Silent(s.db, cfg, s.now, n)
    requires !HeardFrom(step, n)
    ensures Silent(u.db, cfg, u.now, n)
  {
    hide Inv, RowMoves, Grows, Next;
    ClockRuns(cfg, s, step, u);
    StepKeeps(cfg, s, step, u);
    if step.OnHeartbeat? {
      BeatElsewhere(cfg, s, step, u, n);
    }
  }

  lemma BeatElsewhere(cfg: Config, s: State, step: Step, u: State, n: Id)
    requires cfg.Valid() && step.OnHeartbeat? && step.beat.node != n && n in s.db.nodes && Next(cfg, s, step) == Some(u)
    ensures n in u.db.nodes && u.db.nodes[n] == s.db.nodes[n]
  {
    hide MovedRow;
  }

  lemma ClockRuns(cfg: Config, s: State, step: Step, u: State)
    requires cfg.Valid() && Next(cfg, s, step) == Some(u)
    ensures s.now <= u.now
  {
    hide Init, Prepare, ConfirmBegin, RepairBegin, DeleteBegin, Retire, Linked, PhaseOf, HealthyNodes, Complete,
      Cancel, Delete, BadReplica, ConfirmCommit, Heartbeat, GradeNodes, Enqueue, SettleRow, SettleListed, GiveBack,
      DeleteCommit, RepairCommit, NeedsRepair;
  }

  /** New tickets and repair targets are live nodes of the moment. */
  lemma IssuedToLive(cfg: Config, s: State, step: Step, u: State)
    requires cfg.Valid() && Next(cfg, s, step) == Some(u)
    ensures forall p :: p in u.tickets ==>
                  p in s.tickets || (p.node in s.db.nodes && Live(s.db.nodes[p.node], cfg, s.now))
    ensures forall copy :: copy in u.copies ==>
              copy in s.copies || (copy.snap.target in s.db.nodes && Live(s.db.nodes[copy.snap.target], cfg, s.now))
  {
    hide Init, Prepare, ConfirmBegin, RepairBegin, DeleteBegin, Retire, Linked, PhaseOf, HealthyNodes, Complete,
      Cancel, Delete, BadReplica, ConfirmCommit, Heartbeat, GradeNodes, Enqueue, SettleRow, SettleListed, GiveBack,
      DeleteCommit, RepairCommit, NeedsRepair, Live, PendingChoice;
    match step
    case OnPrepare(up, owner, seqNo, digest) =>
      PreparedForLive(s.db, cfg, s.now, up, owner, seqNo, digest,
                      Prepare(s.db, cfg, s.now, up, owner, seqNo, digest).value);
    case OnConfirmBegin(up, asking, seqNo) =>
      BegunForLive(s.db, cfg, s.now, up, asking, seqNo, ConfirmBegin(s.db, cfg, s.now, up, asking, seqNo).value);
    case OnRepairBegin(token, pending, order) => RepairForLive(cfg, s, token, pending, order, u);
    case _ =>
  }

  lemma PreparedForLive(t: Tables, cfg: Config, now: Time, up: Id, owner: Id, i: nat, digest: Digest,
                        out: (Tables, Id, seq<Ticket>))
    requires Prepare(t, cfg, now, up, owner, i, digest) == Ok(out)
    ensures forall p :: p in out.2 ==> p.node in t.nodes && Live(t.nodes[p.node], cfg, now)
  {
    hide Positions, Live;
    PositionsCoverAssigned(out.0, cfg, now, up, out.1, t.chunks[out.1].length, digest, out.2);
  }

  lemma BegunForLive(t: Tables, cfg: Config, now: Time, up: Id, asking: Option<Id>, i: nat, snap: ConfirmSnap)
    requires ConfirmBegin(t, cfg, now, up, asking, i) == Ok(snap)
    ensures forall p :: p in snap.positions ==> p.node in t.nodes && Live(t.nodes[p.node], cfg, now)
  {
    hide Positions, Live;
    PositionsCoverAssigned(t, cfg, now, up, snap.chunk, snap.length, snap.digest, snap.positions);
  }

  lemma RepairForLive(cfg: Config, s: State, token: Id, pending: Option<Id>, order: seq<Id>, u: State)
    requires RepairBeginStep(cfg, s, token, pending, order) == Some(u)
    ensures forall copy :: copy in u.copies ==>
              copy in s.copies || (copy.snap.target in s.db.nodes && Live(s.db.nodes[copy.snap.target], cfg, s.now))
  {
    hide RepairBegin, Live;
    var c := s.jobs[token].chunk;
    var out := RepairBegin(s.db, cfg, s.now, c, token, pending, order).value;
    if out.1.Some? {
      TargetIsLive(s.db, cfg, s.now, c, token, pending, order, out);
    }
  }

  /** From when a node was last heard from `suspect` seconds ago until it is heard from again, over any run: it gets
      no ticket, no reader is sent to it and no repair aims at it. */
  lemma {:induction false} SilentNodesAreAvoided(cfg: Config, s: State, steps: seq<Step>, u: State, n: Id)
    requires cfg.Valid() && Inv(cfg, s) && Run(cfg, s, steps) == Some(u) && Silent(s.db, cfg, s.now, n)
    requires forall j :: 0 <= j < |steps| ==> !HeardFrom(steps[j], n)
    ensures Silent(u.db, cfg, u.now, n) && forall c :: n !in HealthyNodes(u.db, cfg, u.now, c)
    ensures forall p :: p in u.tickets && p.node == n ==> p in s.tickets
    ensures forall copy :: copy in u.copies && copy.snap.target == n ==> copy in s.copies
    decreases |steps|
  {
    hide Inv, Next, Grows, RowMoves, SameFleet;
    if steps != [] {
      var after := Next(cfg, s, steps[0]).value;
      assert !HeardFrom(steps[0], n);
      StepKeeps(cfg, s, steps[0], after);
      SilenceLasts(cfg, s, steps[0], after, n);
      IssuedToLive(cfg, s, steps[0], after);
      forall j | 0 <= j < |steps[1..]| ensures !HeardFrom(steps[1..][j], n) {
        assert steps[1..][j] == steps[j + 1];
      }
      SilentNodesAreAvoided(cfg, after, steps[1..], u, n);
    }
  }
}
