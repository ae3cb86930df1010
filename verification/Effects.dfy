/** What a caller is promised by every operation, written on the columns of the tables: when it is served, what it is
    refused with, what it leaves behind, and what it leaves alone. */
module Effects {
  import opened Schema
  import opened Transactions
  import opened Accounting
  import opened Invariants
  import opened Preservation
  import opened Lifecycle
  import opened Creation
  import opened Moves
  import opened Protocol
  import opened Runs
  import opened Safety
  import opened Confirmations

  // ---------------------------------------------------------------- deleting, cancelling, expiring

  /** Everything that does not belong to the object is as it was, but for the figures of the nodes. */
  ghost predicate OthersKept(t: Tables, u: Tables, oid: Id) {
    && u.chunks == t.chunks && u.retired == t.retired && u.objects.Keys == t.objects.Keys
    && u.uploads.Keys == t.uploads.Keys && u.replicas.Keys == t.replicas.Keys
    && (forall o :: o in t.objects && o != oid ==> u.objects[o] == t.objects[o])
    && (forall up :: up in t.uploads && t.uploads[up].oid != oid ==> u.uploads[up] == t.uploads[up])
    && (forall k :: k in t.replicas && !OfObject(t, oid, k.chunk) ==> u.replicas[k] == t.replicas[k])
    && (forall key :: key in t.tasks && !OfObject(t, oid, key.chunk) ==> key in u.tasks && u.tasks[key] == t.tasks[key])
    && (forall key :: key in u.tasks && key !in t.tasks ==> OfObject(t, oid, key.chunk))
  }

  /** The task is open: one that was open goes on as it was, a new or finished one waits until `lease`. */
  predicate Queued(t: Tables, u: Tables, key: TaskKey, lease: Time) {
    && key in u.tasks
    && (if key in t.tasks && !t.tasks[key].state.Done? then u.tasks[key] == t.tasks[key]
        else u.tasks[key].state.Pending? && u.tasks[key].lease == lease)
  }

  /** Every row of the object has its cleanup queued, and a new cleanup waits until all upload tickets have run out. */
  ghost predicate CleanupQueued(t: Tables, u: Tables, cfg: Config, now: Time, oid: Id) {
    forall k :: k in t.replicas && OfObject(t, oid, k.chunk) ==>
      Queued(t, u, DeleteOf(k.chunk, k.node), now + cfg.authTtl + 30.0)
  }

  /** The object is deleted, with everything it owns on its way out, and nothing else is touched. */
  ghost predicate Withdrawn(t: Tables, u: Tables, cfg: Config, now: Time, up: Id, state: UploadState)
    requires up in t.uploads
  {
    var oid := t.uploads[up].oid;
    && Retired(u, oid) && OthersKept(t, u, oid) && CleanupQueued(t, u, cfg, now, oid)
    && up in u.uploads && u.uploads[up].state == state
  }

  lemma RetireWithdraws(t: Tables, cfg: Config, now: Time, up: Id, state: UploadState)
    requires Good(t) && MayRetire(t, up, state)
    ensures Withdrawn(t, Retire(t, cfg, now, up, state), cfg, now, up, state)
  {
    hide Good, Retire, Retired, OthersKept, CleanupQueued, Advances;
    RetireGood(t, cfg, now, up, state);
    RetireKeepsOthers(t, cfg, now, up, state);
    RetireQueuesCleanup(t, cfg, now, up, state);
    DeletedIsRetired(Retire(t, cfg, now, up, state), t.uploads[up].oid);
  }

  lemma RetireKeepsOthers(t: Tables, cfg: Config, now: Time, up: Id, state: UploadState)
    requires Good(t) && MayRetire(t, up, state)
    ensures var u, oid := Retire(t, cfg, now, up, state), t.uploads[up].oid;
            && OthersKept(t, u, oid)
            && up in u.uploads && u.uploads[up] == t.uploads[up].(state := state)
            && oid in u.objects && u.objects[oid].phase.Deleted?
  {
    hide RetireRows, RowsOf, OfObject, Good, RetiredRow, PairOk;
    OnlyUpload(t, up);
    var rows, lease, t1 := RowsOf(t, up), now + cfg.CleanupDelay(), MarkDeleted(t, up, state);
    UploadOfGood(t, up);
    RetireShape(t1, rows, lease);
    RetireTasks(t1, rows, lease);
  }

  lemma UploadOfGood(t: Tables, up: Id)
    requires Good(t) && up in t.uploads
    ensures t.uploads[up].oid in t.objects
  {
    UploadKnown(t, up);
  }

  lemma RetireQueuesCleanup(t: Tables, cfg: Config, now: Time, up: Id, state: UploadState)
    requires Good(t) && MayRetire(t, up, state)
    ensures CleanupQueued(t, Retire(t, cfg, now, up, state), cfg, now, t.uploads[up].oid)
  {
    hide Retire, RowsOf, OfObject, Good, Queued, InUpload, Linked, PairOk;
    OnlyUpload(t, up);
    forall k | k in RowsOf(t, up)
      ensures Queued(t, Retire(t, cfg, now, up, state), DeleteOf(k.chunk, k.node), now + cfg.CleanupDelay()) {
      RetiredTask(t, cfg, now, up, state, k);
    }
  }

  lemma RetiredTask(t: Tables, cfg: Config, now: Time, up: Id, state: UploadState, k: Key)
    requires up in t.uploads && k in RowsOf(t, up)
    ensures Queued(t, Retire(t, cfg, now, up, state), DeleteOf(k.chunk, k.node), now + cfg.CleanupDelay())
  {
    hide RowsOf;
    assert Key(k.chunk, k.node) == k;
  }

  /** The object's rows are those of its only upload. */
  lemma OnlyUpload(t: Tables, up: Id)
    requires Good(t) && up in t.uploads
    ensures forall c :: InUpload(t, up, c) <==> OfObject(t, t.uploads[up].oid, c)
    ensures forall k :: k in RowsOf(t, up) <==> k in t.replicas && OfObject(t, t.uploads[up].oid, k.chunk)
    ensures forall v :: v in t.uploads && t.uploads[v].oid == t.uploads[up].oid ==> v == up
  {
    hide Balanced, Rows, Tasks, Counts, Pieces, Pairs;
  }

  /** Whether a request about an object comes from its owner. */
  predicate Owns(t: Tables, oid: Id, owner: Id) {
    oid in t.objects && t.objects[oid].owner == owner
  }

  /** What deleting means: the object and all it owns is retired, its upload is over, nothing else is touched; asked
      again, it changes nothing. */
  ghost predicate Deletes(t: Tables, u: Tables, cfg: Config, now: Time, oid: Id)
    requires oid in t.objects
  {
    && Retired(u, oid) && OthersKept(t, u, oid)
    && if t.objects[oid].phase.Deleted? then u == t
       else CleanupQueued(t, u, cfg, now, oid)
            && forall up :: up in t.uploads && t.uploads[up].oid == oid ==> u.uploads[up].state.Cancelled?
  }

  lemma NothingTouched(t: Tables, oid: Id)
    ensures OthersKept(t, t, oid)
  {
  }

  lemma DeleteDeletes(t: Tables, cfg: Config, now: Time, oid: Id, owner: Id)
    requires Good(t)
    ensures var r := Delete(t, cfg, now, oid, owner);
            && (r.Ok? <==> Owns(t, oid, owner))
            && (r.Fail? ==> r.code == if oid in t.objects then Forbidden else NotFound)
            && (r.Ok? ==> Deletes(t, r.value, cfg, now, oid))
  {
    hide Good, Retire, UploadOf, Retired, OthersKept, CleanupQueued, InUpload;
    NothingTouched(t, oid);
    if Owns(t, oid, owner) {
      if t.objects[oid].phase.Deleted? {
        DeletedIsRetired(t, oid);
      } else {
        UploadExists(t, oid);
        var up := UploadOf(t, oid).value;
        UndeletedMayRetire(t, up);
        RetireWithdraws(t, cfg, now, up, Cancelled);
        OnlyUpload(t, up);
      }
    }
  }

  lemma UploadExists(t: Tables, oid: Id)
    requires Good(t) && oid in t.objects
    ensures UploadOf(t, oid).Some? && UploadOf(t, oid).value in t.uploads
    ensures t.uploads[UploadOf(t, oid).value].oid == oid
  {
    hide Balanced, Rows, Tasks, Counts, Pieces, Pairs;
    assert UploadOf(t, oid).value in UploadsOf(t, oid);
  }

  /** A delete request is served exactly if the object exists and is the caller's. Served in any state the service can
      reach, it leaves the object deleted, its rows on their way out with their cleanup queued, its uploads over and
      every other object as it was. */
  lemma ServedDeleteRetires(cfg: Config, s: State, oid: Id, owner: Id)
    requires cfg.Valid() && Reachable(cfg, s)
    ensures var after := Next(cfg, s, OnDelete(oid, owner));
            && (after.Some? <==> oid in s.db.objects && s.db.objects[oid].owner == owner)
            && (after.Some? ==> Retired(after.value.db, oid) && Deletes(s.db, after.value.db, cfg, s.now, oid))
    ensures Delete(s.db, cfg, s.now, oid, owner).Fail? ==>
              Delete(s.db, cfg, s.now, oid, owner).code == if oid in s.db.objects then Forbidden else NotFound
  {
    hide Inv, Good, Delete, Retired, OthersKept, CleanupQueued, Reachable;
    ReachableHolds(cfg, s);
    InvGood(cfg, s);
    DeleteDeletes(s.db, cfg, s.now, oid, owner);
  }

  /** Whether an upload is visible to its owner. */
  predicate Sees(t: Tables, up: Id, owner: Id) {
    up in t.uploads && Owns(t, t.uploads[up].oid, owner)
  }

  predicate Over(state: UploadState) {
    state.Cancelled? || state.Expired?
  }

  /** What cancelling means: an active upload is withdrawn, one that is over already stays as it is. */
  ghost predicate Cancels(t: Tables, u: Tables, cfg: Config, now: Time, up: Id)
    requires up in t.uploads
  {
    Retired(u, t.uploads[up].oid)
    && if Over(t.uploads[up].state) then u == t else Withdrawn(t, u, cfg, now, up, Cancelled)
  }

  lemma CancelCancels(t: Tables, cfg: Config, now: Time, up: Id, owner: Id)
    requires Good(t)
    ensures var r := Cancel(t, cfg, now, up, owner);
            && (r.Ok? <==> Sees(t, up, owner)
                           && (Over(t.uploads[up].state)
                               || (t.uploads[up].state.Uploading? && now < t.uploads[up].expires)))
            && (r.Fail? ==> r.code == if up !in t.uploads then NotFound else if !Sees(t, up, owner) then Forbidden
                                      else NotActive)
            && (r.Ok? ==> Cancels(t, r.value, cfg, now, up))
  {
    hide Good, Retire, Retired, OthersKept, CleanupQueued;
    if Sees(t, up, owner) {
      if Over(t.uploads[up].state) {
        OverIsDeleted(t, up);
        DeletedIsRetired(t, t.uploads[up].oid);
      } else if t.uploads[up].state.Uploading? {
        RetireWithdraws(t, cfg, now, up, Cancelled);
      }
    } else if up in t.uploads {
      UploadOfGood(t, up);
    }
  }

  lemma OverIsDeleted(t: Tables, up: Id)
    requires Good(t) && up in t.uploads && Over(t.uploads[up].state)
    ensures t.uploads[up].oid in t.objects && t.objects[t.uploads[up].oid].phase.Deleted?
  {
    UploadPair(t, up);
  }

  /** A cancel request is served exactly if the caller's upload is over already or still active; served, it leaves the
      object deleted and retired, and an upload that was active cancelled. */
  lemma ServedCancelRetires(cfg: Config, s: State, up: Id, owner: Id)
    requires cfg.Valid() && Reachable(cfg, s)
    ensures var after := Next(cfg, s, OnCancel(up, owner));
            && (after.Some? <==> Sees(s.db, up, owner)
                                 && (Over(s.db.uploads[up].state)
                                     || (s.db.uploads[up].state.Uploading? && s.now < s.db.uploads[up].expires)))
            && (after.Some? ==>
                  && Retired(after.value.db, s.db.uploads[up].oid) && Cancels(s.db, after.value.db, cfg, s.now, up)
                  && (s.db.uploads[up].state.Uploading? ==> after.value.db.uploads[up].state.Cancelled?))
  {
    hide Inv, Good, Cancel, Retired, OthersKept, CleanupQueued, Reachable;
    ReachableHolds(cfg, s);
    InvGood(cfg, s);
    CancelCancels(s.db, cfg, s.now, up, owner);
  }

  /** An upload can be expired exactly if it is still active after its time, and is withdrawn by that. */
  lemma ExpiredIsRetired(cfg: Config, s: State, up: Id)
    requires cfg.Valid() && Reachable(cfg, s)
    ensures var after := Next(cfg, s, OnExpire(up));
            && (after.Some? <==> up in s.db.uploads && s.db.uploads[up].state.Uploading?
                                 && s.db.uploads[up].expires < s.now)
            && (after.Some? ==> Withdrawn(s.db, after.value.db, cfg, s.now, up, Expired))
  {
    hide Inv, Good, Retire, Withdrawn, Reachable;
    ReachableHolds(cfg, s);
    InvGood(cfg, s);
    if Overdue(s.db, s.now, up) {
      RetireWithdraws(s.db, cfg, s.now, up, Expired);
    }
  }

  // ---------------------------------------------------------------- heartbeats

  /** Whether a heartbeat is accepted: a configured node, sensible figures, and for another instance than the one
      registered, one that never served the node before and `dead` seconds of silence. */
  predicate Acceptable(t: Tables, cfg: Config, b: Beat) {
    && b.node in cfg.nodes && 0 <= b.free <= b.capacity <= 0x1000_0000_0000_0000
    && (b.node in t.nodes && t.nodes[b.node].instance != b.instance ==>
          (b.node, b.instance) !in t.retired && cfg.dead <= b.readAt - t.nodes[b.node].heartbeat)
  }

  /** A known node comes back as another process or with another volume. */
  predicate Changes(t: Tables, b: Beat) {
    b.node in t.nodes && (t.nodes[b.node].instance != b.instance || t.nodes[b.node].volume != b.volume)
  }

  /** The copies of a node that came back must be stated again: none counts as valid or bad until then. Reservations
      follow the node to its volume, and nothing else happens to any row. */
  ghost predicate RowsRestated(t: Tables, u: Tables, n: Id, volume: Id) {
    && u.replicas.Keys == t.replicas.Keys
    && (forall k :: k in t.replicas && k.node == n ==>
          && !u.replicas[k].state.Valid? && !u.replicas[k].state.Bad?
          && u.replicas[k].charge == t.replicas[k].charge
          && (if t.replicas[k].state.Valid? || t.replicas[k].state.Bad?
              then u.replicas[k].state.Unverified? else u.replicas[k].state == t.replicas[k].state)
          && u.replicas[k].volume == if t.replicas[k].state.Reserved? then volume else t.replicas[k].volume)
    && (forall k :: k in t.replicas && k.node != n ==> u.replicas[k] == t.replicas[k])
  }

  /** What a heartbeat leaves behind. */
  ghost predicate Registers(t: Tables, u: Tables, b: Beat) {
    && u == t.(nodes := u.nodes, retired := u.retired, replicas := u.replicas)
    && u.nodes.Keys == t.nodes.Keys + {b.node}
    && (forall n :: n in t.nodes && n != b.node ==> u.nodes[n] == t.nodes[n])
    && (var node := u.nodes[b.node];
        && node.instance == b.instance && node.volume == b.volume && node.heartbeat == b.readAt
        && node.capacity == b.capacity && node.free == b.free && node.health.Healthy?
        && node.reserved == (if b.node in t.nodes then t.nodes[b.node].reserved else 0)
        && node.used == (if b.node in t.nodes then t.nodes[b.node].used else 0))
    && (if Changes(t, b) then RowsRestated(t, u, b.node, b.volume) else u.replicas == t.replicas)
    && u.retired == t.retired + (if b.node in t.nodes && t.nodes[b.node].instance != b.instance
                                 then {(b.node, t.nodes[b.node].instance)} else {})
  }

  lemma BeatRegisters(t: Tables, cfg: Config, b: Beat)
    ensures var r := Heartbeat(t, cfg, b);
            && (r.Ok? <==> Acceptable(t, cfg, b))
            && (r.Ok? ==> Registers(t, r.value, b))
            && (r.Fail? ==> r.code == if b.node !in cfg.nodes || b.free < 0 || b.capacity < b.free
                                         || 0x1000_0000_0000_0000 < b.capacity then Invalid
                                      else if (b.node, b.instance) in t.retired then Stale else DuplicateNode)
  {
    hide RowsRestated;
    if Acceptable(t, cfg, b) && Changes(t, b) {
      MovedRowsAreRestated(t, b.node, b.volume, Heartbeat(t, cfg, b).value);
    }
  }

  lemma MovedRowsAreRestated(t: Tables, n: Id, volume: Id, u: Tables)
    requires u.replicas == map k | k in t.replicas :: if k.node == n then MovedRow(t.replicas[k], volume)
                                                      else t.replicas[k]
    ensures RowsRestated(t, u, n, volume)
  {
  }

  /** A heartbeat is accepted exactly under these conditions, and leaves this behind. */
  lemma AcceptedExactlyIf(cfg: Config, s: State, b: Beat)
    requires cfg.Valid() && b.readAt <= s.now
    ensures var after := Next(cfg, s, OnHeartbeat(b));
            && (after.Some? <==> Acceptable(s.db, cfg, b))
            && (after.Some? ==> Registers(s.db, after.value.db, b))
  {
    hide Heartbeat, Registers;
    BeatRegisters(s.db, cfg, b);
  }

  predicate SameRegistration(t: Tables, u: Tables, n: Id) {
    && n in t.nodes && n in u.nodes
    && u.nodes[n].instance == t.nodes[n].instance && u.nodes[n].volume == t.nodes[n].volume
  }

  /** Whatever step changes the instance or the volume of a known node, afterwards no row of that node is valid or
      bad: each that was is unverified and still charged, and reserved rows have the new volume. */
  lemma ReturningNodesAreRestated(cfg: Config, s: State, step: Step, u: State, n: Id)
    requires cfg.Valid() && Reachable(cfg, s) && Next(cfg, s, step) == Some(u) && n in s.db.nodes
    requires !SameRegistration(s.db, u.db, n)
    ensures step.OnHeartbeat? && step.beat.node == n && n in u.db.nodes
    ensures RowsRestated(s.db, u.db, n, u.db.nodes[n].volume)
    ensures forall k :: k in u.db.replicas && k.node == n ==>
              !u.db.replicas[k].state.Valid? && !u.db.replicas[k].state.Bad?
  {
    hide Inv, Advances, Next, Heartbeat, Run, Reachable, RowsRestated;
    ReachableHolds(cfg, s);
    StepKeeps(cfg, s, step, u);
    SameFleetRegistration(s.db, u.db, n);
    BeatStep(cfg, s, step, u);
    BeatRegisters(s.db, cfg, step.beat);
    assert Registers(s.db, u.db, step.beat);
    NoneLeft(s.db, u.db, n);
  }

  lemma NoneLeft(t: Tables, u: Tables, n: Id)
    requires n in u.nodes
    ensures RowsRestated(t, u, n, u.nodes[n].volume) ==>
              forall k :: k in u.replicas && k.node == n ==> !u.replicas[k].state.Valid? && !u.replicas[k].state.Bad?
  {
  }

  lemma SameFleetRegistration(t: Tables, u: Tables, n: Id)
    requires n in t.nodes
    ensures SameFleet(t, u) ==> SameRegistration(t, u, n)
  {
  }

  lemma BeatStep(cfg: Config, s: State, step: Step, u: State)
    requires cfg.Valid() && Next(cfg, s, step) == Some(u)
    ensures step.OnHeartbeat? ==> Heartbeat(s.db, cfg, step.beat) == Ok(u.db)
  {
    hide Heartbeat;
  }

  /** After grading, a node's health says how long it has been silent. */
  lemma GradedBySilence(cfg: Config, s: State, n: Id)
    requires cfg.Valid() && n in s.db.nodes
    ensures var after := Next(cfg, s, OnGrade);
            && after.Some? && n in after.value.db.nodes
            && after.value.db == s.db.(nodes := after.value.db.nodes)
            && after.value.db.nodes[n] == s.db.nodes[n].(health := after.value.db.nodes[n].health)
            && (var health, silence := after.value.db.nodes[n].health, s.now - s.db.nodes[n].heartbeat;
                && (health.Healthy? <==> silence <= cfg.suspect)
                && (health.Unavailable? <==> cfg.dead < silence))
  {
  }

  // ---------------------------------------------------------------- placement

  /** A node that can take a chunk: heard from lately, and with room by what it reports free as well as by what is on
      its books. */
  predicate HasRoom(node: Node, cfg: Config, now: Time, length: int) {
    && node.health.Healthy? && now - node.heartbeat < cfg.suspect
    && length <= node.free - node.reserved && length <= node.capacity - node.used - node.reserved
  }

  function WithRoom(t: Tables, cfg: Config, now: Time, length: int, excluded: set<Id>): set<Id> {
    set n | n in t.nodes && n !in excluded && HasRoom(t.nodes[n], cfg, now, length)
  }

  lemma DistinctMembers(ns: seq<Id>, s: set<Id>)
    requires Distinct(ns) && forall n :: n in ns <==> n in s
    ensures |ns| == |s|
  {
    if ns != [] {
      assert ns[0] in s && ns[0] !in ns[1..];
      DistinctMembers(ns[1..], s - {ns[0]});
    } else {
      assert s == {};
    }
  }

  /** Every node a placement chooses has room, they are as many as asked for and all different, and their reservations
      are entered; it fails with CAPACITY exactly if fewer nodes have room. */
  lemma PlacementFindsRoom(t: Tables, cfg: Config, now: Time, c: Id, length: int, count: nat, excluded: set<Id>,
                           order: seq<Id>)
    requires ByLoad(t, order)
    ensures var r := Reserve(t, cfg, now, c, length, count, excluded, order);
            && (r.Fail? <==> |WithRoom(t, cfg, now, length, excluded)| < count)
            && (r.Fail? ==> r.code == OutOfCapacity)
            && (r.Ok? ==>
                  && |r.value.1| == count && Distinct(r.value.1)
                  && (forall n :: n in r.value.1 ==> n in WithRoom(t, cfg, now, length, excluded))
                  && Placed(t, r.value.0, c, length, r.value.1))
  {
    LoadOrderIsDistinct(t, order);
    ReserveTakesFirst(t, cfg, now, c, length, count, excluded, order);
    CandidatesQualify(t, cfg, now, length, excluded, order);
    var ns := Candidates(t, cfg, now, length, excluded, order);
    forall n ensures n in ns <==> n in WithRoom(t, cfg, now, length, excluded) {
      RoomIsEligible(t, cfg, now, length, excluded, n);
    }
    hide Reserve, Candidates, Candidate, WithRoom, Placed;
    DistinctMembers(ns, WithRoom(t, cfg, now, length, excluded));
  }

  lemma RoomIsEligible(t: Tables, cfg: Config, now: Time, length: int, excluded: set<Id>, n: Id)
    ensures Candidate(t, cfg, now, length, excluded, n) <==> n in WithRoom(t, cfg, now, length, excluded)
  {
  }

  /** The node's books fit both what it reports free and its capacity. */
  predicate Fits(node: Node, cfg: Config, now: Time) {
    && node.health.Healthy? && now - node.heartbeat < cfg.suspect
    && node.reserved <= node.free && node.reserved + node.used <= node.capacity
  }

  /** Placement touches a node only by reserving on it, and only as far as it fits. */
  ghost predicate Loaded(t: Tables, u: Tables, cfg: Config, now: Time) {
    && u.nodes.Keys == t.nodes.Keys
    && (forall n :: n in t.nodes ==>
          || u.nodes[n] == t.nodes[n]
          || (u.nodes[n] == t.nodes[n].(reserved := u.nodes[n].reserved) && Fits(u.nodes[n], cfg, now)))
    && (forall k :: k in u.replicas ==>
          || (k in t.replicas && u.replicas[k] == t.replicas[k])
          || (k.node in u.nodes && Fits(u.nodes[k.node], cfg, now)
              && u.replicas[k] == Replica(u.nodes[k.node].volume, Reserved, ReservedCharge)))
  }

  lemma LoadedOn(t: Tables, m: Tables, u: Tables, cfg: Config, now: Time)
    requires Loaded(t, m, cfg, now) && Loaded(m, u, cfg, now)
    ensures Loaded(t, u, cfg, now)
  {
  }

  lemma ReservationFits(t: Tables, cfg: Config, now: Time, c: Id, length: int, count: nat, order: seq<Id>)
    requires Distinct(order)
    ensures var r := Reserve(t, cfg, now, c, length, count, {}, order);
            && (r.Ok? ==> Loaded(t, r.value.0, cfg, now))
            && (r.Fail? ==> r.code == OutOfCapacity)
  {
    hide Reserve, Candidates;
    ReserveTakesFirst(t, cfg, now, c, length, count, {}, order);
    CandidatesQualify(t, cfg, now, length, {}, order);
    var ns := Candidates(t, cfg, now, length, {}, order);
    if count <= |ns| {
      assert forall n :: n in ns[..count] ==> n in ns;
    }
  }

  lemma {:induction false} PlacementFits(t: Tables, cfg: Config, now: Time, up: Id, size: nat, first: nat,
                                         cids: seq<Id>, orders: seq<seq<Id>>)
    requires |orders| == |cids| && (cids == [] || (first + |cids| - 1) * cfg.chunk < size)
    requires forall i :: 0 <= i < |orders| ==> Distinct(orders[i])
    ensures var r := PlaceChunks(t, cfg, now, up, size, first, cids, orders);
            && (r.Ok? ==> Loaded(t, r.value, cfg, now))
            && (r.Fail? ==> r.code == OutOfCapacity)
    decreases |cids|
  {
    hide Reserve, Loaded, Distinct;
    if cids == [] {
      LoadedNot(t, t, cfg, now);
    } else {
      assert first * cfg.chunk <= (first + |cids| - 1) * cfg.chunk;
      var length := PieceLength(size, cfg.chunk, first);
      var t1 := t.(chunks := t.chunks[cids[0] := Chunk(up, first, length, None, PendingChunk)]);
      LoadedNot(t, t1, cfg, now);
      ReservationFits(t1, cfg, now, cids[0], length, cfg.replicas, orders[0]);
      var placed := Reserve(t1, cfg, now, cids[0], length, cfg.replicas, {}, orders[0]);
      if placed.Ok? {
        PlacementFits(placed.value.0, cfg, now, up, size, first + 1, cids[1..], orders[1..]);
        LoadedOn(t, t1, placed.value.0, cfg, now);
        var r := PlaceChunks(placed.value.0, cfg, now, up, size, first + 1, cids[1..], orders[1..]);
        if r.Ok? {
          LoadedOn(t, placed.value.0, r.value, cfg, now);
        }
      }
    }
  }

  lemma LoadedNot(t: Tables, u: Tables, cfg: Config, now: Time)
    requires u.nodes == t.nodes && u.replicas == t.replicas
    ensures Loaded(t, u, cfg, now)
  {
  }

  /** However the chunks of a new object are spread, no node is ever loaded beyond what it reported free or beyond its
      capacity, and only nodes heard from lately get any. The limits on the size and the room are the only reasons to
      refuse. */
  lemma CreationFits(t: Tables, cfg: Config, now: Time, owner: Id, size: nat, oid: Id, up: Id, cids: seq<Id>,
                     orders: seq<seq<Id>>)
    requires cfg.Valid() && forall i :: 0 <= i < |orders| ==> Distinct(orders[i])
    requires size <= cfg.chunk * cfg.maxChunks ==> |cids| == |orders| == PieceCount(size, cfg.chunk)
    ensures var r := Init(t, cfg, now, owner, size, oid, up, cids, orders);
            && (r.Ok? ==> Loaded(t, r.value, cfg, now))
            && (r.Fail? ==> r.code == if cfg.chunk * cfg.maxChunks < size then Invalid else OutOfCapacity)
  {
    hide PlaceChunks, NewObject, Loaded, Distinct, PieceCount;
    if size <= cfg.chunk * cfg.maxChunks {
      InitIs(t, cfg, now, owner, size, oid, up, cids, orders);
      var t1 := NewObject(t, cfg, now, owner, size, oid, up);
      PlacementFits(t1, cfg, now, up, size, 0, cids, orders);
      NewObjectLoads(t, cfg, now, owner, size, oid, up);
      if PlaceChunks(t1, cfg, now, up, size, 0, cids, orders).Ok? {
        LoadedOn(t, t1, PlaceChunks(t1, cfg, now, up, size, 0, cids, orders).value, cfg, now);
      }
    }
  }

  lemma NewObjectLoads(t: Tables, cfg: Config, now: Time, owner: Id, size: nat, oid: Id, up: Id)
    ensures Loaded(t, NewObject(t, cfg, now, owner, size, oid, up), cfg, now)
  {
  }

  /** What creating an object leaves behind. */
  lemma CreatedIs(cfg: Config, s: State, step: Step, u: State)
    requires cfg.Valid() && Inv(cfg, s) && step.OnInit? && Next(cfg, s, step) == Some(u)
    ensures FreshIds(s.db, step.oid, step.up, step.cids) && OnlyAdds(s.db, u.db, step.oid, step.up, step.cids)
    ensures u.now == s.now && AddsPending(s.db, u.db, step.up) && Loaded(s.db, u.db, cfg, s.now)
    ensures step.oid in u.db.objects
            && u.db.objects[step.oid] == Object(step.owner, step.size, cfg.chunk, cfg.replicas, Staging)
    ensures step.up in u.db.uploads && u.db.uploads[step.up] == Upload(step.oid, Uploading, s.now + cfg.ttl)
  {
    hide Good, Init, Advances, Held, SnapsFit, TicketsWait, TargetsHeld, MarksHeld, Registered, OnlyAdds, Loaded,
      Distinct, PieceCount, AddsPending, FreshIds;
    InitFresh(s, step.oid, step.up, step.cids);
    InitGood(s.db, cfg, s.now, step.owner, step.size, step.oid, step.up, step.cids, step.orders, u.db);
    CreationFits(s.db, cfg, s.now, step.owner, step.size, step.oid, step.up, step.cids, step.orders);
    InitPending(s.db, cfg, s.now, step.owner, step.size, step.oid, step.up, step.cids, step.orders, u.db);
  }

  // ---------------------------------------------------------------- preparing and confirming

  /** Whether a node holds a place for a chunk: a reserved or valid row on its present volume. */
  predicate HoldsPlace(t: Tables, c: Id, n: Id) {
    && n in t.nodes && Key(c, n) in t.replicas && t.replicas[Key(c, n)].volume == t.nodes[n].volume
    && (t.replicas[Key(c, n)].state.Reserved? || t.replicas[Key(c, n)].state.Valid?)
  }

  predicate Lively(node: Node, cfg: Config, now: Time) {
    node.health.Healthy? && now - node.heartbeat < cfg.suspect
  }

  /** Every node that holds a place for the chunk can be written to now. */
  ghost predicate AllLively(t: Tables, cfg: Config, now: Time, c: Id) {
    forall n :: HoldsPlace(t, c, n) ==> Lively(t.nodes[n], cfg, now)
  }

  function Places(t: Tables, c: Id): set<Id> {
    set n | n in t.nodes && HoldsPlace(t, c, n)
  }

  /** One authorization for each place, in the order of the nodes, good for what is asked and for `authTtl`. */
  ghost predicate AuthorizesPlaces(t: Tables, cfg: Config, now: Time, up: Id, c: Id, length: nat, digest: Digest,
                                   ps: seq<Ticket>) {
    && (forall i, j :: 0 <= i < j < |ps| ==> ps[i].node < ps[j].node)
    && (forall n :: HoldsPlace(t, c, n) ==> exists i :: 0 <= i < |ps| && ps[i].node == n)
    && (forall i :: 0 <= i < |ps| ==>
          && HoldsPlace(t, c, ps[i].node) && ps[i].upload == up && ps[i].chunk == c && ps[i].length == length
          && ps[i].digest == digest && ps[i].volume == t.nodes[ps[i].node].volume
          && ps[i].instance == t.nodes[ps[i].node].instance && ps[i].expires == now + cfg.authTtl)
  }

  lemma TicketsAuthorize(t: Tables, cfg: Config, now: Time, up: Id, c: Id, length: nat, digest: Digest, ps: seq<Ticket>)
    requires TicketNodes(ps) == Assigned(t, c) && forall i, j :: 0 <= i < j < |ps| ==> ps[i].node < ps[j].node
    requires forall p :: p in ps ==>
                  p.node in Assigned(t, c) && p == TicketFor(t, cfg, now, up, c, length, digest, p.node)
    ensures AuthorizesPlaces(t, cfg, now, up, c, length, digest, ps)
  {
    PlacesAreAssigned(t, c);
    hide Assigned, HoldsPlace, Places;
    forall n | HoldsPlace(t, c, n) ensures exists i :: 0 <= i < |ps| && ps[i].node == n {
      assert n in TicketNodes(ps);
    }
    forall i | 0 <= i < |ps| ensures ps[i] in ps && HoldsPlace(t, c, ps[i].node) {
      assert ps[i] in ps;
    }
  }

  lemma PlacesAreAuthorized(t: Tables, cfg: Config, now: Time, up: Id, c: Id, length: nat, digest: Digest)
    ensures var r := Positions(t, cfg, now, up, c, length, digest);
            && (r.Ok? <==> AllLively(t, cfg, now, c))
            && (r.Fail? ==> r.code == NodeUnavailable)
            && (r.Ok? ==> AuthorizesPlaces(t, cfg, now, up, c, length, digest, r.value) && |r.value| == |Places(t, c)|)
  {
    PlacesAreAssigned(t, c);
    LivelyIsLive(t, cfg, now, c);
    hide AllLively, AuthorizesPlaces, HoldsPlace, Places, Assigned, Live;
    PositionsFail(t, cfg, now, up, c, length, digest);
    hide Positions;
    if AllLively(t, cfg, now, c) {
      var ps := Positions(t, cfg, now, up, c, length, digest).value;
      PositionsCoverAssigned(t, cfg, now, up, c, length, digest, ps);
      TicketsAuthorize(t, cfg, now, up, c, length, digest, ps);
    }
  }

  lemma PositionsFail(t: Tables, cfg: Config, now: Time, up: Id, c: Id, length: nat, digest: Digest)
    ensures var r := Positions(t, cfg, now, up, c, length, digest);
            && (r.Ok? <==> forall n :: n in Assigned(t, c) ==> Live(t.nodes[n], cfg, now))
            && (r.Fail? ==> r.code == NodeUnavailable)
  {
    hide Live;
  }

  lemma PlacesAreAssigned(t: Tables, c: Id)
    ensures forall n :: n in Assigned(t, c) <==> HoldsPlace(t, c, n)
    ensures Assigned(t, c) == Places(t, c)
  {
  }

  lemma LivelyIsLive(t: Tables, cfg: Config, now: Time, c: Id)
    ensures AllLively(t, cfg, now, c) <==> forall n :: n in Assigned(t, c) ==> Live(t.nodes[n], cfg, now)
  {
    if AllLively(t, cfg, now, c) {
      forall n | n in Assigned(t, c) ensures Live(t.nodes[n], cfg, now) {
        assert HoldsPlace(t, c, n);
      }
    }
    if forall n :: n in Assigned(t, c) ==> Live(t.nodes[n], cfg, now) {
      forall n | HoldsPlace(t, c, n) ensures Lively(t.nodes[n], cfg, now) {
        assert n in Assigned(t, c);
      }
    }
  }

  /** Whether an upload still takes data. */
  predicate TakesData(t: Tables, now: Time, up: Id) {
    up in t.uploads && t.uploads[up].state.Uploading? && now < t.uploads[up].expires
  }

  /** Whether a chunk can be written with this digest now: none or the same was fixed before, and every one of its
      `replicas` places is on a live node. */
  ghost predicate CanWrite(t: Tables, cfg: Config, now: Time, c: Id, digest: Digest)
    requires Linked(t, c)
  {
    && (t.chunks[c].digest.None? || t.chunks[c].digest.value == digest)
    && AllLively(t, cfg, now, c) && |Places(t, c)| == ObjectOf(t, c).replicas
  }

  lemma ChunkIsAt(t: Tables, c: Id)
    requires Good(t) && c in t.chunks
    ensures Linked(t, c) && ChunkAt(t, t.chunks[c].upload, t.chunks[c].seqNo) == Some(c)
  {
    hide Balanced, Rows, Tasks, Counts, Pieces, Pairs;
    var up, i := t.chunks[c].upload, t.chunks[c].seqNo;
    assert c in PiecesAt(t, up, i);
    assert ChunkAt(t, up, i).value in PiecesAt(t, up, i);
  }

  /** What preparing leaves behind: the digest is fixed, nothing else changes, and each place is authorized once. */
  ghost predicate Prepares(t: Tables, u: Tables, cfg: Config, now: Time, c: Id, digest: Digest, ps: seq<Ticket>) {
    && Linked(t, c) && u == t.(chunks := t.chunks[c := t.chunks[c].(digest := Some(digest))])
    && |ps| == ObjectOf(t, c).replicas
    && AuthorizesPlaces(t, cfg, now, t.chunks[c].upload, c, t.chunks[c].length, digest, ps)
  }

  /** A request to prepare a piece is served exactly if the caller's upload still takes data and the piece can be
      written with that digest. */
  lemma PreparedExactlyIf(t: Tables, cfg: Config, now: Time, c: Id, owner: Id, digest: Digest)
    requires Good(t) && c in t.chunks
    ensures Linked(t, c)
    ensures var up := t.chunks[c].upload;
            var r := Prepare(t, cfg, now, up, owner, t.chunks[c].seqNo, digest);
            && (r.Ok? <==> Owns(t, t.uploads[up].oid, owner) && TakesData(t, now, up)
                           && CanWrite(t, cfg, now, c, digest))
            && (r.Fail? ==> r.code == if !Owns(t, t.uploads[up].oid, owner) then Forbidden
                                      else if !TakesData(t, now, up) then NotActive
                                      else if t.chunks[c].digest.Some? && t.chunks[c].digest.value != digest
                                      then ChecksumConflict else NodeUnavailable)
            && (r.Ok? ==> r.value.1 == c && Prepares(t, r.value.0, cfg, now, c, digest, r.value.2))
  {
    hide Good, Prepare, Positions, ChunkAt, AllLively, AuthorizesPlaces, Places, Linked, Owns, TakesData;
    ChunkIsAt(t, c);
    PrepareIs(t, cfg, now, c, owner, digest);
    var t1 := t.(chunks := t.chunks[c := t.chunks[c].(digest := Some(digest))]);
    PlacesAreAuthorized(t1, cfg, now, t.chunks[c].upload, c, t.chunks[c].length, digest);
    SamePlaces(t, t1, cfg, now, t.chunks[c].upload, c, t.chunks[c].length, digest);
  }

  lemma PrepareIs(t: Tables, cfg: Config, now: Time, c: Id, owner: Id, digest: Digest)
    requires Linked(t, c) && ChunkAt(t, t.chunks[c].upload, t.chunks[c].seqNo) == Some(c)
    ensures var up := t.chunks[c].upload;
            var r := Prepare(t, cfg, now, up, owner, t.chunks[c].seqNo, digest);
            var t1 := t.(chunks := t.chunks[c := t.chunks[c].(digest := Some(digest))]);
            var ps := Positions(t1, cfg, now, up, c, t.chunks[c].length, digest);
            r == if !Owns(t, t.uploads[up].oid, owner) then Fail(Forbidden)
                 else if !TakesData(t, now, up) then Fail(NotActive)
                 else if t.chunks[c].digest.Some? && t.chunks[c].digest.value != digest then Fail(ChecksumConflict)
                 else if ps.Fail? then Fail(ps.code)
                 else if |ps.value| != ObjectOf(t, c).replicas then Fail(NodeUnavailable)
                 else Ok((t1, c, ps.value))
  {
    hide Positions, ChunkAt;
  }

  lemma SamePlaces(t: Tables, u: Tables, cfg: Config, now: Time, up: Id, c: Id, length: nat, digest: Digest)
    requires u.nodes == t.nodes && u.replicas == t.replicas
    ensures AllLively(u, cfg, now, c) == AllLively(t, cfg, now, c) && Places(u, c) == Places(t, c)
    ensures forall ps :: AuthorizesPlaces(u, cfg, now, up, c, length, digest, ps)
                         == AuthorizesPlaces(t, cfg, now, up, c, length, digest, ps)
  {
    assert forall n :: HoldsPlace(u, c, n) == HoldsPlace(t, c, n);
  }

  /** What a confirmation is to verify: the prepared content, on every place. */
  ghost predicate AsksAbout(t: Tables, cfg: Config, now: Time, c: Id, asking: Option<Id>, snap: ConfirmSnap) {
    && Linked(t, c) && snap.upload == t.chunks[c].upload && snap.owner == asking && snap.chunk == c
    && snap.length == t.chunks[c].length && Some(snap.digest) == t.chunks[c].digest
    && |snap.positions| == ObjectOf(t, c).replicas
    && AuthorizesPlaces(t, cfg, now, snap.upload, c, snap.length, snap.digest, snap.positions)
  }

  /** A confirmation can be begun exactly if the upload still takes data, its caller may see it, the piece was prepared
      and every place is on a live node. */
  lemma ConfirmableExactlyIf(t: Tables, cfg: Config, now: Time, c: Id, asking: Option<Id>)
    requires Good(t) && c in t.chunks
    ensures Linked(t, c)
    ensures var up := t.chunks[c].upload;
            var r := ConfirmBegin(t, cfg, now, up, asking, t.chunks[c].seqNo);
            && (r.Ok? <==>
                  && (asking.None? || Owns(t, t.uploads[up].oid, asking.value)) && TakesData(t, now, up)
                  && t.chunks[c].digest.Some? && CanWrite(t, cfg, now, c, t.chunks[c].digest.value))
            && (r.Ok? ==> AsksAbout(t, cfg, now, c, asking, r.value))
  {
    hide Good, ConfirmBegin, Positions, ChunkAt, AllLively, AuthorizesPlaces, Places, Linked, Owns, TakesData,
      ObjectOf;
    ChunkIsAt(t, c);
    ConfirmIs(t, cfg, now, c, asking);
    if t.chunks[c].digest.Some? {
      PlacesAreAuthorized(t, cfg, now, t.chunks[c].upload, c, t.chunks[c].length, t.chunks[c].digest.value);
    }
  }

  lemma ConfirmIs(t: Tables, cfg: Config, now: Time, c: Id, asking: Option<Id>)
    requires Good(t) && Linked(t, c) && ChunkAt(t, t.chunks[c].upload, t.chunks[c].seqNo) == Some(c)
    ensures var up := t.chunks[c].upload;
            var r := ConfirmBegin(t, cfg, now, up, asking, t.chunks[c].seqNo);
            if (asking.None? || Owns(t, t.uploads[up].oid, asking.value)) && TakesData(t, now, up)
               && t.chunks[c].digest.Some?
            then var ps := Positions(t, cfg, now, up, c, t.chunks[c].length, t.chunks[c].digest.value);
                 if ps.Fail? then r == Fail(ps.code)
                 else if |ps.value| != ObjectOf(t, c).replicas then r == Fail(Incomplete)
                 else r == Ok(ConfirmSnap(up, asking, c, t.chunks[c].length, t.chunks[c].digest.value, ps.value))
            else r.Fail?
  {
    WritersAre(t, now, t.chunks[c].upload, asking);
    hide Good, Positions, ChunkAt, ActiveUpload, Owns, TakesData;
  }

  lemma WritersAre(t: Tables, now: Time, up: Id, asking: Option<Id>)
    requires Good(t) && up in t.uploads
    ensures var r := ActiveUpload(t, now, up, asking, true);
            && (r.Ok? <==> (asking.None? || Owns(t, t.uploads[up].oid, asking.value)) && TakesData(t, now, up))
            && (r.Ok? ==> r.value == t.uploads[up])
  {
    UploadPair(t, up);
  }

  /** The processes behind a chunk's places now are, node by node, those some authorizations were made out to. */
  ghost predicate SameHosts(t: Tables, c: Id, ps: seq<Ticket>) {
    var ns := Sorted(Places(t, c));
    |ns| == |ps| && forall i :: 0 <= i < |ns| ==> ns[i] in t.nodes && ps[i].instance == t.nodes[ns[i]].instance
  }

  /** What a confirmation leaves behind: the chunk is confirmed, every reservation that was verified is a valid copy
      that counts as used, and nothing else changes but the books of those nodes. */
  ghost predicate Confirms(t: Tables, u: Tables, snap: ConfirmSnap) {
    var c := snap.chunk;
    && c in t.chunks && u == t.(chunks := u.chunks, replicas := u.replicas, nodes := u.nodes)
    && u.chunks == t.chunks[c := t.chunks[c].(state := ConfirmedChunk)]
    && u.replicas.Keys == t.replicas.Keys && u.nodes.Keys == t.nodes.Keys
    && (forall k :: k in t.replicas ==>
          u.replicas[k] == if k.chunk == c && k.node in TicketNodes(snap.positions) && t.replicas[k].state.Reserved?
                           then Replica(t.replicas[k].volume, Valid, UsedCharge) else t.replicas[k])
    && (forall n :: n in t.nodes ==>
          u.nodes[n] == if n in TicketNodes(snap.positions) && Has(t, Key(c, n), Reserved)
                        then t.nodes[n].(reserved := t.nodes[n].reserved - t.chunks[c].length,
                                         used := t.nodes[n].used + t.chunks[c].length)
                        else t.nodes[n])
  }

  lemma InstancesCompared(xs: seq<Ticket>, ys: seq<Ticket>)
    ensures Instances(xs) == Instances(ys)
            <==> |xs| == |ys| && forall i :: 0 <= i < |xs| ==> xs[i].instance == ys[i].instance
  {
    if Instances(xs) == Instances(ys) {
      assert forall i :: 0 <= i < |xs| ==> xs[i].instance == Instances(xs)[i] && ys[i].instance == Instances(ys)[i];
    }
  }

  lemma HostsCompared(t: Tables, cfg: Config, now: Time, up: Id, c: Id, length: nat, digest: Digest, ps: seq<Ticket>)
    ensures var r := Positions(t, cfg, now, up, c, length, digest);
            r.Ok? ==> (Instances(r.value) == Instances(ps) <==> SameHosts(t, c, ps))
  {
    hide Positions, Places, Assigned, HoldsPlace, Instances, Sorted;
    PlacesAreAssigned(t, c);
    PositionsRanked(t, cfg, now, up, c, length, digest);
    var r := Positions(t, cfg, now, up, c, length, digest);
    if r.Ok? {
      InstancesCompared(r.value, ps);
    }
  }

  lemma PositionsRanked(t: Tables, cfg: Config, now: Time, up: Id, c: Id, length: nat, digest: Digest)
    ensures var r, ns := Positions(t, cfg, now, up, c, length, digest), Sorted(Assigned(t, c));
            r.Ok? ==> |r.value| == |ns| && forall i :: 0 <= i < |ns| ==>
                          ns[i] in t.nodes && r.value[i].instance == t.nodes[ns[i]].instance
  {
    hide Live;
    var ns := Sorted(Assigned(t, c));
    forall i | 0 <= i < |ns| ensures ns[i] in t.nodes {
      assert ns[i] in ns;
    }
  }

  lemma CommitIs(t: Tables, cfg: Config, now: Time, snap: ConfirmSnap)
    requires Good(t) && ConfirmSnapFits(t, snap)
    ensures var up := snap.upload;
            var r := ConfirmCommit(t, cfg, now, snap);
            && (r.Ok? <==>
                  && (snap.owner.None? || Owns(t, t.uploads[up].oid, snap.owner.value)) && TakesData(t, now, up)
                  && AllLively(t, cfg, now, snap.chunk) && Places(t, snap.chunk) != {}
                  && SameHosts(t, snap.chunk, snap.positions))
            && (r.Ok? ==> Confirms(t, r.value, snap))
  {
    hide Good, Positions, ActiveUpload, Owns, TakesData, AllLively, AuthorizesPlaces, Places, SameHosts, Confirms,
      TicketNodes, Instances, ConvertRows, Linked;
    FitUpload(t, snap);
    WritersAre(t, now, snap.upload, snap.owner);
    PlacesAreAuthorized(t, cfg, now, snap.upload, snap.chunk, snap.length, snap.digest);
    HostsCompared(t, cfg, now, snap.upload, snap.chunk, snap.length, snap.digest, snap.positions);
    if ConfirmCommit(t, cfg, now, snap).Ok? {
      ConversionConfirms(t, snap, ConfirmCommit(t, cfg, now, snap).value);
    }
  }

  lemma FitUpload(t: Tables, snap: ConfirmSnap)
    requires ConfirmSnapFits(t, snap)
    ensures snap.upload in t.uploads
  {
  }

  lemma ConversionConfirms(t: Tables, snap: ConfirmSnap, u: Tables)
    requires ConfirmSnapFits(t, snap)
    requires var t1 := ConvertRows(t, snap.chunk, snap.length, TicketNodes(snap.positions));
             u == if snap.chunk in t1.chunks
                  then t1.(chunks := t1.chunks[snap.chunk := t1.chunks[snap.chunk].(state := ConfirmedChunk)]) else t1
    ensures Confirms(t, u, snap)
  {
    hide TicketNodes;
  }

  /** The places that are to be verified are all the replicas the chunk has. */
  ghost predicate CoversRows(t: Tables, snap: ConfirmSnap) {
    Linked(t, snap.chunk)
    && (PhaseOf(t, snap.chunk) == Some(Staging) ==>
          forall n :: Key(snap.chunk, n) in t.replicas ==> n in TicketNodes(snap.positions))
  }

  lemma BegunCovers(t: Tables, cfg: Config, now: Time, up: Id, asking: Option<Id>, seqNo: nat, snap: ConfirmSnap)
    requires Good(t) && ConfirmBegin(t, cfg, now, up, asking, seqNo) == Ok(snap)
    ensures CoversRows(t, snap)
  {
    hide Good, PhaseOf, Positions, Assigned, ConfirmBegin, TicketNodes, Linked;
    ConfirmBeginFacts(t, cfg, now, up, asking, seqNo, snap);
    ConfirmFits(t, snap);
    BegunCount(t, cfg, now, up, asking, seqNo, snap);
    PositionsCoverAssigned(t, cfg, now, up, snap.chunk, snap.length, snap.digest, snap.positions);
    StagingCount(t, snap.chunk);
    forall n | Key(snap.chunk, n) in t.replicas ensures n in TicketNodes(snap.positions) {
      AssignedIsAll(t, snap.chunk, n);
    }
  }

  lemma BegunCount(t: Tables, cfg: Config, now: Time, up: Id, asking: Option<Id>, seqNo: nat, snap: ConfirmSnap)
    requires ConfirmBegin(t, cfg, now, up, asking, seqNo) == Ok(snap) && ConfirmSnapFits(t, snap)
    ensures |snap.positions| == ObjectOf(t, snap.chunk).replicas
  {
    hide Positions;
  }

  lemma CoversOn(t: Tables, u: Tables, snap: ConfirmSnap)
    requires Good(t) && Good(u) && Grows(t, u) && CoversRows(t, snap)
    ensures CoversRows(u, snap)
  {
    hide Good, PhaseOf, Linked, Grows;
    LinkKept(t, u, snap.chunk);
    if PhaseOf(u, snap.chunk) == Some(Staging) {
      StagingEarlier(t, u, snap.chunk);
      forall n | Key(snap.chunk, n) in u.replicas ensures n in TicketNodes(snap.positions) {
        StagingRowsStay(t, u, snap.chunk, n);
      }
    }
  }

  lemma {:induction false} ConfirmsCover(cfg: Config, s: State, steps: seq<Step>, u: State)
    requires cfg.Valid() && Inv(cfg, s) && Run(cfg, s, steps) == Some(u)
    requires forall snap :: snap in s.confirms ==> CoversRows(s.db, snap)
    ensures forall snap :: snap in u.confirms ==> CoversRows(u.db, snap)
    decreases |steps|
  {
    hide Inv, Good, Next, CoversRows, Grows, RowMoves, SameFleet, ConfirmBegin;
    if steps != [] {
      var step, after := steps[0], Next(cfg, s, steps[0]).value;
      StepKeeps(cfg, s, step, after);
      InvGood(cfg, s);
      InvGood(cfg, after);
      ConfirmsBegun(cfg, s, step, after);
      forall snap | snap in after.confirms ensures CoversRows(after.db, snap) {
        if snap !in s.confirms {
          BegunCovers(s.db, cfg, s.now, step.up, step.asking, step.seqNo, snap);
        }
        CoversOn(s.db, after.db, snap);
      }
      ConfirmsCover(cfg, after, steps[1..], u);
    }
  }

  /** In every state the service can reach, a confirmation is committed exactly if its upload still takes data and every
      place of the chunk is on a live node and on the process that was asked. Then no replica of the chunk is merely
      reserved any more: each place is a valid copy, and the chunk is confirmed. */
  lemma CommittedConfirmationConverts(cfg: Config, s: State, snap: ConfirmSnap)
    requires cfg.Valid() && Reachable(cfg, s) && snap in s.confirms
    ensures snap.upload in s.db.uploads
    ensures var c, up, after := snap.chunk, snap.upload, Next(cfg, s, OnConfirmCommit(snap));
            && (after.Some? <==>
                  && (snap.owner.None? || Owns(s.db, s.db.uploads[up].oid, snap.owner.value))
                  && TakesData(s.db, s.now, up)
                  && AllLively(s.db, cfg, s.now, c) && Places(s.db, c) != {} && SameHosts(s.db, c, snap.positions))
            && (after.Some? ==>
                  var u := after.value.db;
                  && Confirms(s.db, u, snap) && c in u.chunks && u.chunks[c].state.ConfirmedChunk?
                  && (forall n :: !Has(u, Key(c, n), Reserved))
                  && (forall n :: HoldsPlace(s.db, c, n) ==> Has(u, Key(c, n), Valid)))
  {
    hide Inv, Good, ConfirmCommit, Reachable, Confirms, CoversRows, AllLively, SameHosts, Places, HoldsPlace, Owns,
      TakesData, ConfirmSnapFits;
    ReachableHolds(cfg, s);
    InvGood(cfg, s);
    InvSnaps(cfg, s);
    ReachableCovers(cfg, s);
    FitUpload(s.db, snap);
    CommitIs(s.db, cfg, s.now, snap);
    var r := ConfirmCommit(s.db, cfg, s.now, snap);
    if r.Ok? {
      CommitIsStaging(s.db, cfg, s.now, snap, r.value);
      AllConverted(s.db, r.value, snap);
    }
  }

  lemma ReachableCovers(cfg: Config, s: State)
    requires cfg.Valid() && Reachable(cfg, s)
    ensures forall snap :: snap in s.confirms ==> CoversRows(s.db, snap)
  {
    hide Inv, Run, CoversRows;
    StartHolds(cfg);
    var steps :| Run(cfg, START, steps) == Some(s);
    ConfirmsCover(cfg, START, steps, s);
  }

  lemma AllConverted(t: Tables, u: Tables, snap: ConfirmSnap)
    requires Confirms(t, u, snap) && CoversRows(t, snap) && PhaseOf(t, snap.chunk) == Some(Staging)
    ensures snap.chunk in u.chunks && u.chunks[snap.chunk].state.ConfirmedChunk?
    ensures forall n :: !Has(u, Key(snap.chunk, n), Reserved)
    ensures forall n :: HoldsPlace(t, snap.chunk, n) ==> Has(u, Key(snap.chunk, n), Valid)
  {
    hide TicketNodes, PhaseOf, Linked;
    var c := snap.chunk;
    forall n | Key(c, n) in t.replicas
      ensures u.replicas[Key(c, n)].state == if t.replicas[Key(c, n)].state.Reserved? then Valid
                                             else t.replicas[Key(c, n)].state
    {
      assert n in TicketNodes(snap.positions);
    }
  }

  // ---------------------------------------------------------------- publishing and reporting

  /** What publishing leaves behind: the object is published and its upload completed, and nothing else changes; asked
      again, it changes nothing. */
  predicate Publishes(t: Tables, u: Tables, up: Id) {
    && up in t.uploads && t.uploads[up].oid in t.objects
    && if t.uploads[up].state.Completed? then u == t && t.objects[t.uploads[up].oid].phase.Published?
       else u == t.(objects := t.objects[t.uploads[up].oid := t.objects[t.uploads[up].oid].(phase := Published)],
                    uploads := t.uploads[up := t.uploads[up].(state := Completed)])
  }

  /** A request to publish is refused for these reasons, and served it does just that. */
  lemma PublishingTouches(t: Tables, now: Time, up: Id, owner: Id)
    requires Good(t)
    ensures var r := Complete(t, now, up, owner);
            && (r.Ok? ==> Sees(t, up, owner))
            && (r.Fail? ==> r.code == if up !in t.uploads then NotFound else if !Sees(t, up, owner) then Forbidden
                                      else if TakesData(t, now, up) then Incomplete else NotActive)
            && (r.Ok? ==> (t.uploads[up].state.Completed? || TakesData(t, now, up)) && Publishes(t, r.value, up))
  {
    if up in t.uploads {
      UploadPair(t, up);
    }
    hide Good, PieceReady, ChunksOf;
  }

  /** Whether a caller may read an object. */
  predicate Readable(t: Tables, oid: Id, owner: Id) {
    Owns(t, oid, owner) && t.objects[oid].phase.Published?
  }

  ghost predicate OtherTasksKept(t: Tables, u: Tables, key: TaskKey) {
    forall other :: other != key ==>
      (other in u.tasks <==> other in t.tasks) && (other in t.tasks ==> u.tasks[other] == t.tasks[other])
  }

  /** What reporting a replica leaves behind: the copy, if it was valid, is bad, and a repair of the chunk is open. */
  ghost predicate Reports(t: Tables, u: Tables, c: Id, n: Id) {
    && u == t.(replicas := u.replicas, tasks := u.tasks) && u.replicas.Keys == t.replicas.Keys
    && !Has(u, Key(c, n), Valid)
    && (forall k :: k in t.replicas ==>
          u.replicas[k] == if k == Key(c, n) && t.replicas[k].state.Valid? then t.replicas[k].(state := Bad)
                           else t.replicas[k])
    && Queued(t, u, RepairOf(c), 0.0)
    && OtherTasksKept(t, u, RepairOf(c))
  }

  /** A report is taken exactly from the owner of a published object, about one of its chunks. */
  lemma ReportedExactlyIf(t: Tables, oid: Id, owner: Id, c: Id, n: Id)
    ensures var r := BadReplica(t, oid, owner, c, n);
            && (r.Ok? <==> Readable(t, oid, owner) && OfObject(t, oid, c))
            && (r.Fail? ==> r.code == if oid !in t.objects then NotFound else if !Owns(t, oid, owner) then Forbidden
                                      else if t.objects[oid].phase.Deleted? then ObjectDeleted
                                      else if !t.objects[oid].phase.Published? then NotPublished else Invalid)
            && (r.Ok? ==> Reports(t, r.value, c, n))
  {
    hide Linked, Enqueue;
    var k := Key(c, n);
    var t1 := if k in t.replicas && t.replicas[k].state.Valid? then SetRow(t, k, t.replicas[k].(state := Bad)) else t;
    EnqueueQueues(t1, RepairOf(c), 0.0);
  }

  lemma EnqueueQueues(t: Tables, key: TaskKey, lease: Time)
    ensures var u := Enqueue(t, key, lease);
            && u == t.(tasks := u.tasks) && Queued(t, u, key, lease)
            && OtherTasksKept(t, u, key)
  {
  }

  // ---------------------------------------------------------------- reconciliation

  /** Of every node only the books may differ. */
  ghost predicate OnlyBooks(t: Tables, u: Tables) {
    && u.nodes.Keys == t.nodes.Keys
    && (forall n :: n in t.nodes ==>
          u.nodes[n] == t.nodes[n].(reserved := u.nodes[n].reserved, used := u.nodes[n].used))
  }

  /** Whether a node still is what it was when it was scanned. */
  predicate StillRegistered(t: Tables, n: Id, volume: Id, instance: Id) {
    n in t.nodes && t.nodes[n].volume == volume && t.nodes[n].instance == instance
  }

  /** What the answer to a `stat` leaves behind: if the node still is the one that was asked, an unverified row becomes
      valid or bad on the node's volume as the answer says; a copy that is missing from another volume weighs nothing
      any more; nothing else changes. */
  ghost predicate Settles(t: Tables, u: Tables, n: Id, volume: Id, instance: Id, c: Id, valid: bool) {
    var k, asked := Key(c, n), StillRegistered(t, n, volume, instance);
    && u == t.(nodes := u.nodes, replicas := u.replicas) && OnlyBooks(t, u)
    && u.replicas.Keys == t.replicas.Keys && (forall j :: j in t.replicas && j != k ==> u.replicas[j] == t.replicas[j])
    && (k in t.replicas && asked && t.replicas[k].state.Unverified? ==>
          u.replicas[k].state == (if valid then Valid else Bad) && u.replicas[k].volume == volume)
    && (k in t.replicas && !(asked && t.replicas[k].state.Unverified?) ==>
          u.replicas[k].state == t.replicas[k].state && u.replicas[k].volume == t.replicas[k].volume)
    && (k in t.replicas ==>
          u.replicas[k].charge == if asked && !valid && t.replicas[k].volume != volume then NoCharge
                                  else t.replicas[k].charge)
  }

  lemma AnswerSettles(t: Tables, n: Id, volume: Id, instance: Id, c: Id, length: int, valid: bool)
    ensures Settles(t, SettleRow(t, n, volume, instance, c, length, valid), n, volume, instance, c, valid)
  {
    hide Uncharge, OnlyBooks;
    AnswerBooks(t, n, volume, instance, c, length, valid);
    var k := Key(c, n);
    if k in t.replicas {
      UnchargeIsRow(t, k, length);
      UnchargeIsRow(SetRow(t, k, t.replicas[k].(state := if valid then Valid else Bad, volume := volume)), k, length);
    }
  }

  lemma AnswerBooks(t: Tables, n: Id, volume: Id, instance: Id, c: Id, length: int, valid: bool)
    ensures OnlyBooks(t, SettleRow(t, n, volume, instance, c, length, valid))
  {
    hide Uncharge;
    var k := Key(c, n);
    if k in t.replicas {
      UnchargeIsRow(t, k, length);
      UnchargeIsRow(SetRow(t, k, t.replicas[k].(state := if valid then Valid else Bad, volume := volume)), k, length);
    }
  }

  /** Releasing a row changes its charge and the figures of its node, and nothing else. */
  lemma UnchargeIsRow(t: Tables, k: Key, length: int)
    requires k in t.replicas
    ensures var u := Uncharge(t, k, length);
            && u == t.(nodes := u.nodes, replicas := u.replicas) && OnlyBooks(t, u)
            && u.replicas == t.replicas[k := t.replicas[k].(charge := NoCharge)]
  {
    assert t.replicas[k].charge.NoCharge? ==> t.replicas[k := t.replicas[k].(charge := NoCharge)] == t.replicas;
  }

  /** An unverified copy is decided by the answer of the node it was asked from, as long as that node has not come back
      as another process or with another volume: it is valid if the `stat` succeeded and bad if it did not. In every
      other case no state changes. */
  lemma StatDecides(cfg: Config, s: State, check: Check, valid: bool)
    requires cfg.Valid() && check in s.checks
    ensures var after, k := Next(cfg, s, OnSettleRow(check, valid)), Key(check.chunk, check.scan.node);
            && after.Some? && after.value == s.(db := after.value.db)
            && Settles(s.db, after.value.db, check.scan.node, check.scan.volume, check.scan.instance, check.chunk,
                       valid)
            && (Has(s.db, k, Unverified)
                && StillRegistered(s.db, check.scan.node, check.scan.volume, check.scan.instance) ==>
                  Has(after.value.db, k, if valid then Valid else Bad)
                  && after.value.db.replicas[k].volume == check.scan.volume)
  {
    hide SettleRow, OnlyBooks;
    AnswerSettles(s.db, check.scan.node, check.scan.volume, check.scan.instance, check.chunk, check.length, valid);
  }

  /** Whether a file a node lists is of no use: no object wants it, or enough healthy copies exist elsewhere and no row
      of the node stands for it. */
  predicate Unwanted(t: Tables, cfg: Config, now: Time, n: Id, volume: Id, c: Id) {
    var k := Key(c, n);
    || !Linked(t, c) || ObjectOf(t, c).phase.Deleted?
    || (&& ObjectOf(t, c).phase.Published? && ObjectOf(t, c).replicas <= |HealthyNodes(t, cfg, now, c)|
        && !(k in t.replicas && t.replicas[k].volume == volume
             && (t.replicas[k].state.Reserved? || t.replicas[k].state.Valid? || t.replicas[k].state.Unverified?)))
  }

  /** What listing a file leaves behind: its deletion queued if it is of no use, else nothing. */
  ghost predicate Lists(t: Tables, u: Tables, cfg: Config, now: Time, n: Id, volume: Id, c: Id) {
    if Unwanted(t, cfg, now, n, volume, c)
    then u == t.(tasks := u.tasks) && Queued(t, u, DeleteOf(c, n), now + cfg.authTtl + 30.0)
         && OtherTasksKept(t, u, DeleteOf(c, n))
    else u == t
  }

  /** A listed file is queued for deletion exactly if it is of no use; otherwise the listing changes nothing. */
  lemma ListedIsCleanedIfUnwanted(t: Tables, cfg: Config, now: Time, n: Id, volume: Id, c: Id)
    ensures Lists(t, SettleListed(t, cfg, now, n, volume, c), cfg, now, n, volume, c)
  {
    hide Linked, HealthyNodes, Enqueue;
    EnqueueQueues(t, DeleteOf(c, n), now + cfg.CleanupDelay());
  }

  // ---------------------------------------------------------------- tasks

  /** Whether a worker may still write for a task. */
  predicate HoldsTask(t: Tables, now: Time, key: TaskKey, token: Id) {
    && key in t.tasks && t.tasks[key].state.Running? && t.tasks[key].token == Some(token) && now < t.tasks[key].lease
  }

  /** What claiming leaves behind: the worker may write for the task for `lease` seconds from then on, and no other
      may. */
  ghost predicate Leases(t: Tables, u: Tables, cfg: Config, now: Time, key: TaskKey, token: Id) {
    && u == t.(tasks := u.tasks) && OtherTasksKept(t, u, key)
    && (forall later, other :: HoldsTask(u, later, key, other) <==> later < now + cfg.lease && other == token)
  }

  lemma ClaimLeases(t: Tables, cfg: Config, now: Time, key: TaskKey, token: Id)
    requires key in t.tasks
    ensures Leases(t, Claim(t, cfg, now, key, token), cfg, now, key, token)
  {
  }

  /** Exactly the open tasks whose lease ran out can be claimed. */
  lemma ClaimedExactlyIf(cfg: Config, s: State, key: TaskKey, token: Id)
    requires cfg.Valid()
    ensures var after := Next(cfg, s, OnClaim(key, token));
            && (after.Some? <==> key in s.db.tasks && !s.db.tasks[key].state.Done? && s.db.tasks[key].lease < s.now
                                 && token !in s.ids)
            && (after.Some? ==> Leases(s.db, after.value.db, cfg, s.now, key, token))
  {
    hide Leases;
    if key in s.db.tasks {
      ClaimLeases(s.db, cfg, s.now, key, token);
    }
  }

  /** What giving a job back leaves behind: if it came from the worker that has it, the task can be claimed again two
      seconds later and nobody may write for it until then. */
  ghost predicate GivesBack(t: Tables, u: Tables, now: Time, key: TaskKey, token: Id) {
    if key in t.tasks && t.tasks[key].state.Running? && t.tasks[key].token == Some(token)
    then && u == t.(tasks := u.tasks) && OtherTasksKept(t, u, key)
         && (forall later :: Claimable(u, later, key) <==> now + 2.0 < later)
         && (forall later, other :: !HoldsTask(u, later, key, other))
    else u == t
  }

  lemma ReturnedIsFree(t: Tables, now: Time, key: TaskKey, token: Id)
    ensures GivesBack(t, GiveBack(t, now, key, token), now, key, token)
  {
  }

  // ---------------------------------------------------------------- deletions

  /** Whether nobody relies on a node's copy: no object wants the chunk, or enough healthy copies exist and the node's
      row is not one that may serve. */
  predicate Removable(t: Tables, cfg: Config, now: Time, c: Id, n: Id) {
    var k := Key(c, n);
    || !Linked(t, c) || ObjectOf(t, c).phase.Deleted?
    || (&& ObjectOf(t, c).phase.Published? && ObjectOf(t, c).replicas <= |HealthyNodes(t, cfg, now, c)|
        && !(k in t.replicas && (t.replicas[k].state.Valid? || t.replicas[k].state.Reserved?
                                 || t.replicas[k].state.Unverified?)))
  }

  ghost predicate OneRow(t: Tables, u: Tables, k: Key) {
    u.replicas.Keys == t.replicas.Keys && forall j :: j in t.replicas && j != k ==> u.replicas[j] == t.replicas[j]
  }

  /** What beginning a deletion leaves behind: the row, if there is one, is marked, and the removal is meant for the
      process and volume registered now. */
  ghost predicate Marks(t: Tables, u: Tables, c: Id, n: Id, snap: DeleteSnap) {
    && u == t.(replicas := u.replicas) && OneRow(t, u, Key(c, n))
    && (Key(c, n) in t.replicas ==> u.replicas[Key(c, n)] == t.replicas[Key(c, n)].(state := Deleting))
    && StillRegistered(t, n, snap.volume, snap.instance)
    && snap.length == if Linked(t, c) then Some(t.chunks[c].length) else None
  }

  /** A deletion begins exactly if the worker holds the task, the node is known and nobody relies on the copy. */
  lemma DeletionBegunExactlyIf(t: Tables, cfg: Config, now: Time, c: Id, n: Id, token: Id)
    ensures var r := DeleteBegin(t, cfg, now, c, n, token);
            && (r.Ok? <==> HoldsTask(t, now, DeleteOf(c, n), token) && n in t.nodes && Removable(t, cfg, now, c, n))
            && (r.Fail? ==> r.code == if !HoldsTask(t, now, DeleteOf(c, n), token) then Stale
                                      else if n !in t.nodes then NodeUnavailable else Busy)
            && (r.Ok? ==> Marks(t, r.value.0, c, n, r.value.1))
  {
    hide HealthyNodes, Linked;
  }

  /** What finishing a deletion leaves behind: a row under deletion is gone, the row of a known chunk weighs nothing,
      and the task is done. */
  ghost predicate Removes(t: Tables, u: Tables, c: Id, n: Id, snap: DeleteSnap) {
    var k, key := Key(c, n), DeleteOf(c, n);
    && u == t.(nodes := u.nodes, replicas := u.replicas, tasks := u.tasks)
    && OnlyBooks(t, u) && OneRow(t, u, k) && OtherTasksKept(t, u, key) && key in u.tasks && u.tasks[key].state.Done?
    && (k in t.replicas ==>
          && u.replicas[k].volume == t.replicas[k].volume
          && u.replicas[k].state == (if t.replicas[k].state.Deleting? then Gone else t.replicas[k].state)
          && u.replicas[k].charge == if snap.length.Some? then NoCharge else t.replicas[k].charge)
  }

  /** A deletion is finished exactly if the worker still holds the task and the node is the one that was asked. */
  lemma DeletionFinishedExactlyIf(t: Tables, now: Time, c: Id, n: Id, token: Id, snap: DeleteSnap)
    ensures var r, k := DeleteCommit(t, now, c, n, token, snap), Key(c, n);
            && (r.Ok? <==>
                  HoldsTask(t, now, DeleteOf(c, n), token) && StillRegistered(t, n, snap.volume, snap.instance))
            && (r.Fail? ==> r.code == Stale)
            && (r.Ok? ==> Removes(t, r.value, c, n, snap))
  {
    hide Uncharge;
    if Key(c, n) in t.replicas && snap.length.Some? {
      UnchargeIsRow(t, Key(c, n), snap.length.value);
    } else if snap.length.Some? {
      assert Uncharge(t, Key(c, n), snap.length.value) == t by {
        UnchargeNothing(t, Key(c, n), snap.length.value);
      }
    }
  }

  lemma UnchargeNothing(t: Tables, k: Key, length: int)
    requires k !in t.replicas
    ensures Uncharge(t, k, length) == t
  {
  }

  // ---------------------------------------------------------------- repairs

  /** The nodes a repair may not choose: any row of the chunk there that is not gone. */
  function Taken(t: Tables, c: Id): set<Id> {
    set n | n in t.nodes && Key(c, n) in t.replicas && !t.replicas[Key(c, n)].state.Gone?
  }

  /** A repair has something to do: the worker holds the task, the object is published and some healthy copies are
      left, but too few. */
  predicate MayRepair(t: Tables, cfg: Config, now: Time, c: Id, token: Id) {
    && HoldsTask(t, now, RepairOf(c), token) && Linked(t, c) && ObjectOf(t, c).phase.Published?
    && 0 < |HealthyNodes(t, cfg, now, c)| < ObjectOf(t, c).replicas
  }

  /** Where a repair may go: to the reservation an earlier attempt left, if its node is live, else to a node that has
      room and no row of the chunk. */
  predicate MayTarget(t: Tables, cfg: Config, now: Time, c: Id, pending: Option<Id>, n: Id)
    requires c in t.chunks
  {
    match pending
    case Some(left) => n == left && n in t.nodes && Lively(t.nodes[n], cfg, now)
    case None => n in WithRoom(t, cfg, now, t.chunks[c].length, Taken(t, c))
  }

  /** What a worker remembers of the repair it began. */
  ghost predicate Remembers(t: Tables, cfg: Config, now: Time, c: Id, snap: RepairSnap)
    requires Linked(t, c)
  {
    && snap.chunk == c && snap.length == t.chunks[c].length && snap.digest == t.chunks[c].digest
    && snap.upload == t.chunks[c].upload && snap.oid == t.uploads[t.chunks[c].upload].oid
    && snap.required == t.objects[snap.oid].replicas && snap.sources == HealthyNodes(t, cfg, now, c)
    && StillRegistered(t, snap.target, snap.volume, snap.instance)
  }

  /** A chunk of a published object with fewer healthy copies than the object asks for. */
  predicate IsShort(t: Tables, cfg: Config, now: Time, c: Id) {
    && Linked(t, c) && ObjectOf(t, c).phase.Published?
    && |HealthyNodes(t, cfg, now, c)| < ObjectOf(t, c).replicas
  }

  /** The scan queues a repair exactly for the chunks that are short, to be claimed at once. */
  lemma RepairQueuedExactlyIf(cfg: Config, s: State, c: Id)
    requires cfg.Valid()
    ensures var after := Next(cfg, s, OnNeedsRepair(c));
            && (after.Some? <==> IsShort(s.db, cfg, s.now, c))
            && (after.Some? ==>
                  && after.value.db == s.db.(tasks := after.value.db.tasks)
                  && Queued(s.db, after.value.db, RepairOf(c), 0.0)
                  && OtherTasksKept(s.db, after.value.db, RepairOf(c)))
  {
    hide Enqueue, HealthyNodes, Queued, OtherTasksKept;
    EnqueueQueues(s.db, RepairOf(c), 0.0);
  }

  /** Whether a repair finds nothing left to do. */
  predicate NothingToRepair(t: Tables, cfg: Config, now: Time, c: Id, token: Id) {
    && HoldsTask(t, now, RepairOf(c), token) && Linked(t, c) && ObjectOf(t, c).phase.Published?
    && ObjectOf(t, c).replicas <= |HealthyNodes(t, cfg, now, c)|
  }

  /** What beginning a repair leaves behind: its task done if there was nothing to do, else a reservation at the
      place it goes to. It reads from the healthy copies. */
  ghost predicate BeginsRepair(t: Tables, u: Tables, cfg: Config, now: Time, c: Id, pending: Option<Id>,
                               begun: Option<RepairSnap>) {
    && Linked(t, c)
    && match begun
       case None =>
         && u == t.(tasks := u.tasks) && OtherTasksKept(t, u, RepairOf(c))
         && RepairOf(c) in u.tasks && u.tasks[RepairOf(c)].state.Done?
       case Some(snap) =>
         && Remembers(t, cfg, now, c, snap) && MayTarget(t, cfg, now, c, pending, snap.target)
         && if pending.Some? then u == t else Placed(t, u, c, t.chunks[c].length, [snap.target])
  }

  /** A repair begins exactly if it has something to do and somewhere to go. */
  lemma RepairBegunExactlyIf(t: Tables, cfg: Config, now: Time, c: Id, token: Id, pending: Option<Id>, order: seq<Id>)
    requires PendingChoice(t, c, pending) && (pending.None? ==> ByLoad(t, order))
    ensures var r := RepairBegin(t, cfg, now, c, token, pending, order);
            && (r.Ok? && r.value.1.Some? <==>
                  MayRepair(t, cfg, now, c, token) && exists n :: MayTarget(t, cfg, now, c, pending, n))
            && (r.Ok? && r.value.1.Some? ==> BeginsRepair(t, r.value.0, cfg, now, c, pending, r.value.1))
  {
    hide Reserve, ByLoad, HealthyNodes, Placed, MayTarget, RepairTarget, Linked, ReservedNodes, Live;
    if Linked(t, c) {
      LinkedChunk(t, c);
      TargetFound(t, cfg, now, c, pending, order);
    }
  }

  /** It ends its task at once exactly if enough healthy copies are there. */
  lemma RepairEndsExactlyIf(t: Tables, cfg: Config, now: Time, c: Id, token: Id, pending: Option<Id>, order: seq<Id>)
    requires PendingChoice(t, c, pending)
    ensures var r := RepairBegin(t, cfg, now, c, token, pending, order);
            && (r.Ok? && r.value.1.None? <==> NothingToRepair(t, cfg, now, c, token))
            && (r.Ok? && r.value.1.None? ==> BeginsRepair(t, r.value.0, cfg, now, c, pending, r.value.1))
  {
    hide HealthyNodes, RepairTarget, Linked, ReservedNodes, Live;
  }

  /** The place a repair chooses is one it may go to, and it finds one exactly if there is one. */
  lemma TargetFound(t: Tables, cfg: Config, now: Time, c: Id, pending: Option<Id>, order: seq<Id>)
    requires PendingChoice(t, c, pending) && (pending.None? ==> ByLoad(t, order)) && c in t.chunks
    ensures var r := RepairTarget(t, cfg, now, c, t.chunks[c].length, pending, order);
            var found := r.Ok? && r.value.1 in r.value.0.nodes && Live(r.value.0.nodes[r.value.1], cfg, now);
            && (found <==> exists n :: MayTarget(t, cfg, now, c, pending, n))
            && (found ==>
                  && MayTarget(t, cfg, now, c, pending, r.value.1)
                  && StillRegistered(t, r.value.1, r.value.0.nodes[r.value.1].volume,
                                     r.value.0.nodes[r.value.1].instance)
                  && (if pending.Some? then r.value.0 == t
                      else Placed(t, r.value.0, c, t.chunks[c].length, [r.value.1])))
  {
    hide Reserve, ByLoad;
    match pending
    case Some(left) => assert MayTarget(t, cfg, now, c, pending, left) <==> Lively(t.nodes[left], cfg, now);
    case None =>
      TakenIsOccupied(t, c);
      var length, room := t.chunks[c].length, WithRoom(t, cfg, now, t.chunks[c].length, Taken(t, c));
      PlacementFindsRoom(t, cfg, now, c, length, 1, Taken(t, c), order);
      var r := Reserve(t, cfg, now, c, length, 1, Taken(t, c), order);
      if r.Ok? {
        assert r.value.1 == [r.value.1[0]] && r.value.1[0] in room;
        assert MayTarget(t, cfg, now, c, pending, r.value.1[0]);
      } else {
        assert room == {};
      }
  }

  lemma TakenIsOccupied(t: Tables, c: Id)
    ensures Taken(t, c) == Occupied(t, c)
  {
  }

  /** Whether a repair can be committed: the worker holds the task, the object is still published, the target still is
      the process and volume the copy was written to, and its reservation is intact. */
  predicate MayCommit(t: Tables, now: Time, token: Id, snap: RepairSnap) {
    var k := Key(snap.chunk, snap.target);
    && HoldsTask(t, now, RepairOf(snap.chunk), token)
    && snap.oid in t.objects && t.objects[snap.oid].phase.Published?
    && StillRegistered(t, snap.target, snap.volume, snap.instance)
    && k in t.replicas && t.replicas[k].state.Reserved? && t.replicas[k].charge.ReservedCharge?
  }

  /** Whether the copy is still needed: fewer than the required number of nodes hold a healthy one. */
  predicate Short(t: Tables, cfg: Config, now: Time, snap: RepairSnap) {
    |HealthyNodes(t, cfg, now, snap.chunk)| < snap.required
  }

  /** What committing a repair leaves behind. A needed copy is valid and counts as used; one that is not needed any
      more is bad, weighs nothing and is queued for deletion. Either way the task is done, and nothing else changes. */
  ghost predicate Records(t: Tables, u: Tables, cfg: Config, now: Time, snap: RepairSnap) {
    var k, n, short := Key(snap.chunk, snap.target), snap.target, Short(t, cfg, now, snap);
    && k in t.replicas && n in t.nodes
    && u == t.(nodes := u.nodes, replicas := u.replicas, tasks := u.tasks) && OneRow(t, u, k)
    && u.replicas[k] == Replica(t.replicas[k].volume, if short then Valid else Bad,
                                if short then UsedCharge else NoCharge)
    && u.nodes == t.nodes[n := t.nodes[n].(reserved := t.nodes[n].reserved - snap.length,
                                           used := t.nodes[n].used + if short then snap.length else 0)]
    && RepairOf(snap.chunk) in u.tasks && u.tasks[RepairOf(snap.chunk)].state.Done?
    && (!short ==> Queued(t, u, DeleteOf(snap.chunk, n), now + cfg.authTtl + 30.0))
    && (forall key :: key != RepairOf(snap.chunk) && (short || key != DeleteOf(snap.chunk, n)) ==>
          (key in u.tasks <==> key in t.tasks) && (key in t.tasks ==> u.tasks[key] == t.tasks[key]))
  }

  lemma RepairRecords(t: Tables, cfg: Config, now: Time, token: Id, snap: RepairSnap)
    ensures var r := RepairCommit(t, cfg, now, token, snap);
            && (r.Ok? <==> MayCommit(t, now, token, snap))
            && (r.Fail? ==> r.code == if HoldsTask(t, now, RepairOf(snap.chunk), token)
                                         && !(snap.oid in t.objects && t.objects[snap.oid].phase.Published?)
                                      then ObjectDeleted else Stale)
            && (r.Ok? ==> Records(t, r.value, cfg, now, snap))
  {
    hide HealthyNodes, Uncharge, Enqueue, AddToNode;
    var k, n := Key(snap.chunk, snap.target), snap.target;
    if MayCommit(t, now, token, snap) {
      ReleasedReservation(t, k, snap.length);
      Recharged(SetRow(t, k, t.replicas[k].(state := Valid, charge := UsedCharge)), n, snap.length);
      var t1 := Uncharge(t, k, snap.length);
      EnqueueQueues(SetRow(t1, k, t1.replicas[k].(state := Bad)), DeleteOf(snap.chunk, n), now + cfg.CleanupDelay());
    }
  }

  lemma ReleasedReservation(t: Tables, k: Key, length: int)
    requires k in t.replicas && t.replicas[k].charge.ReservedCharge? && k.node in t.nodes
    ensures Uncharge(t, k, length)
            == t.(nodes := t.nodes[k.node := t.nodes[k.node].(reserved := t.nodes[k.node].reserved - length)],
                  replicas := t.replicas[k := t.replicas[k].(charge := NoCharge)])
  {
  }

  lemma Recharged(t: Tables, n: Id, length: int)
    requires n in t.nodes
    ensures AddToNode(t, n, -length, length)
            == t.(nodes := t.nodes[n := t.nodes[n].(reserved := t.nodes[n].reserved - length,
                                                    used := t.nodes[n].used + length)])
  {
  }

  /** Who can be read from afterwards: the new copy joins the healthy ones exactly if it was needed and its node is
      live. */
  lemma RecordedIsHealthy(t: Tables, u: Tables, cfg: Config, now: Time, snap: RepairSnap)
    requires Records(t, u, cfg, now, snap) && Has(t, Key(snap.chunk, snap.target), Reserved)
    requires t.replicas[Key(snap.chunk, snap.target)].volume == t.nodes[snap.target].volume
    ensures HealthyNodes(u, cfg, now, snap.chunk)
            == HealthyNodes(t, cfg, now, snap.chunk)
               + if Short(t, cfg, now, snap) && Lively(t.nodes[snap.target], cfg, now) then {snap.target} else {}
  {
    var short := Short(t, cfg, now, snap);
    hide Short, Queued;
    forall n | n in t.nodes
      ensures n in HealthyNodes(u, cfg, now, snap.chunk) <==>
                n in HealthyNodes(t, cfg, now, snap.chunk)
                || (n == snap.target && short && Lively(t.nodes[snap.target], cfg, now))
    {
    }
  }

  /** In every state the service can reach, a repair that is committed while fewer nodes than the object asks for hold
      a healthy copy makes its copy valid and charged as used, and its node, if live, joins the healthy ones; one that
      comes too late makes it bad and uncharged, with its deletion open. */
  lemma CommittedRepairIsRecorded(cfg: Config, s: State, copy: Copy, u: State)
    requires cfg.Valid() && Reachable(cfg, s) && Next(cfg, s, OnRepairCommit(copy)) == Some(u)
    ensures Linked(s.db, copy.snap.chunk) && copy.snap.target in s.db.nodes
    ensures var c, n := copy.snap.chunk, copy.snap.target;
            var healthy, healthyAfter := HealthyNodes(s.db, cfg, s.now, c), HealthyNodes(u.db, cfg, u.now, c);
            var short := |healthy| < ObjectOf(s.db, c).replicas;
            && Key(c, n) in u.db.replicas && Records(s.db, u.db, cfg, s.now, copy.snap)
            && (u.db.replicas[Key(c, n)].state.Valid? <==> short)
            && (u.db.replicas[Key(c, n)].charge.UsedCharge? <==> short)
            && (short ==> healthyAfter == healthy + if Lively(s.db.nodes[n], cfg, s.now) then {n} else {})
            && (!short ==>
                  && healthyAfter == healthy && Open(u.db, DeleteOf(c, n))
                  && u.db.replicas[Key(c, n)] == Replica(copy.snap.volume, Bad, NoCharge))
  {
    hide Inv, Good, RepairCommit, Records, Run, Reachable, HealthyNodes, Linked, MayCommit;
    ReachableHolds(cfg, s);
    InvGood(cfg, s);
    InvSnaps(cfg, s);
    CommittedCopy(cfg, s, copy, u);
    RepairRecords(s.db, cfg, s.now, copy.token, copy.snap);
    RecordedFacts(s.db, u.db, cfg, s.now, copy.token, copy.snap);
    RowsCarryTheVolume(cfg, s, Key(copy.snap.chunk, copy.snap.target));
    RecordedIsHealthy(s.db, u.db, cfg, s.now, copy.snap);
  }

  lemma CommittedCopy(cfg: Config, s: State, copy: Copy, u: State)
    requires cfg.Valid() && Next(cfg, s, OnRepairCommit(copy)) == Some(u)
    ensures copy in s.copies && u == s.(db := u.db)
    ensures RepairCommit(s.db, cfg, s.now, copy.token, copy.snap) == Ok(u.db)
  {
    hide RepairCommit;
  }

  lemma RecordedFacts(t: Tables, u: Tables, cfg: Config, now: Time, token: Id, snap: RepairSnap)
    requires MayCommit(t, now, token, snap) && Records(t, u, cfg, now, snap)
    ensures var k, short := Key(snap.chunk, snap.target), Short(t, cfg, now, snap);
            && Has(t, k, Reserved) && k in u.replicas && StillRegistered(t, snap.target, snap.volume, snap.instance)
            && u.replicas[k].volume == t.replicas[k].volume
            && u.replicas[k].state == (if short then Valid else Bad)
            && u.replicas[k].charge == (if short then UsedCharge else NoCharge)
            && (!short ==> Open(u, DeleteOf(snap.chunk, snap.target)))
  {
    hide Short;
  }
}
