/** Every database transaction of the metadata service, as a function from tables to tables.
    `Fail` stands for a failed check: the transaction rolls back and the tables stay as they were.
    The clock is read once per transaction. */
module Transactions {
  import opened Schema
  import opened Sums

  // ---------------------------------------------------------------- row updates

  function SetRow(t: Tables, k: Key, r: Replica): Tables {
    t.(replicas := t.replicas[k := r])
  }

  function AddToNode(t: Tables, n: Id, reserved: int, used: int): Tables {
    if n in t.nodes then
      t.(nodes := t.nodes[n := t.nodes[n].(reserved := t.nodes[n].reserved + reserved, used := t.nodes[n].used + used)])
    else t
  }

  /** Create a task, or wake a finished one; a task that is still open is left alone. */
  function Enqueue(t: Tables, key: TaskKey, lease: Time): Tables {
    if key !in t.tasks then t.(tasks := t.tasks[key := Task(Pending, lease, None)])
    else if t.tasks[key].state.Done? then
      t.(tasks := t.tasks[key := t.tasks[key].(state := Pending, lease := lease)])
    else t
  }

  /** Take a row's bytes off its node's books. */
  function Uncharge(t: Tables, k: Key, length: int): Tables {
    if k !in t.replicas || t.replicas[k].charge.NoCharge? then t
    else
      var t1 := if t.replicas[k].charge.ReservedCharge? then AddToNode(t, k.node, -length, 0)
                else AddToNode(t, k.node, 0, -length);
      SetRow(t1, k, t.replicas[k].(charge := NoCharge))
  }

  // ---------------------------------------------------------------- placement

  function Smaller(x: int, y: int): int {
    if x < y then x else y
  }

  predicate Eligible(node: Node, cfg: Config, now: Time, length: int) {
    && Live(node, cfg, now)
    && length <= Smaller(node.capacity - node.used - node.reserved, node.free - node.reserved)
  }

  function Place(t: Tables, c: Id, n: Id, length: int): Tables
    requires n in t.nodes
  {
    AddToNode(SetRow(t, Key(c, n), Replica(t.nodes[n].volume, Reserved, ReservedCharge)), n, length, 0)
  }

  /** Walk the nodes in the given order and reserve the first `count` that can take the chunk. */
  function Reserve(t: Tables, cfg: Config, now: Time, c: Id, length: int, count: nat,
                   excluded: set<Id>, order: seq<Id>): Result<(Tables, seq<Id>)>
    decreases |order|
  {
    if count == 0 then Ok((t, []))
    else if order == [] then Fail(OutOfCapacity)
    else
      var n := order[0];
      if n !in t.nodes || n in excluded || !Eligible(t.nodes[n], cfg, now, length) then
        Reserve(t, cfg, now, c, length, count, excluded, order[1..])
      else
        var rest :- Reserve(Place(t, c, n, length), cfg, now, c, length, count - 1, excluded, order[1..]);
        Ok((rest.0, [n] + rest.1))
  }

  ghost predicate InLoadOrder(t: Tables, order: seq<Id>) {
    && (forall n :: n in order ==> n in t.nodes)
    && (forall i, j :: 0 <= i < j < |order| ==> LighterThan(t, order[i], order[j]))
  }

  predicate LighterThan(t: Tables, m: Id, n: Id) {
    && m in t.nodes && n in t.nodes
    && var x, y := t.nodes[m].reserved + t.nodes[m].used, t.nodes[n].reserved + t.nodes[n].used;
       x < y || (x == y && m < n)
  }

  /** The order of the placement query: every node, least loaded first, ties by node id. */
  ghost predicate ByLoad(t: Tables, order: seq<Id>) {
    InLoadOrder(t, order) && forall n :: n in t.nodes ==> n in order
  }

  function TicketFor(t: Tables, cfg: Config, now: Time, up: Id, c: Id, length: nat, digest: Digest, n: Id): Ticket
    requires n in t.nodes
  {
    Ticket(up, c, length, digest, n, t.nodes[n].volume, t.nodes[n].instance, now + cfg.authTtl)
  }

  /** Write authorizations for every node assigned to a chunk, in node order. */
  function Positions(t: Tables, cfg: Config, now: Time, up: Id, c: Id, length: nat, digest: Digest)
    : Result<seq<Ticket>> {
    if exists n :: n in Assigned(t, c) && !Live(t.nodes[n], cfg, now) then Fail(NodeUnavailable)
    else
      var nodes := Sorted(Assigned(t, c));
      Ok(seq(|nodes|, i requires 0 <= i < |nodes| =>
        assert nodes[i] in nodes; TicketFor(t, cfg, now, up, c, length, digest, nodes[i])))
  }

  // ---------------------------------------------------------------- uploads

  function PlaceChunks(t: Tables, cfg: Config, now: Time, up: Id, size: nat, first: nat,
                       cids: seq<Id>, orders: seq<seq<Id>>): Result<Tables>
    requires |orders| == |cids| && (cids == [] || (first + |cids| - 1) * cfg.chunk < size)
    decreases |cids|
  {
    if cids == [] then Ok(t)
    else
      assert first * cfg.chunk <= (first + |cids| - 1) * cfg.chunk;
      var length := PieceLength(size, cfg.chunk, first);
      var t1 := t.(chunks := t.chunks[cids[0] := Chunk(up, first, length, None, PendingChunk)]);
      var placed :- Reserve(t1, cfg, now, cids[0], length, cfg.replicas, {}, orders[0]);
      PlaceChunks(placed.0, cfg, now, up, size, first + 1, cids[1..], orders[1..])
  }

  /** Create an object, its upload and all its chunks, with every replica reserved. */
  function Init(t: Tables, cfg: Config, now: Time, owner: Id, size: nat, oid: Id, up: Id,
                cids: seq<Id>, orders: seq<seq<Id>>): Result<Tables>
    requires cfg.Valid()
    requires size <= cfg.chunk * cfg.maxChunks ==> |cids| == |orders| == PieceCount(size, cfg.chunk)
  {
    if size > cfg.chunk * cfg.maxChunks then Fail(Invalid)
    else
      LastPieceStarts(size, cfg.chunk);
      var t1 := t.(objects := t.objects[oid := Object(owner, size, cfg.chunk, cfg.replicas, Staging)],
                   uploads := t.uploads[up := Upload(oid, Uploading, now + cfg.ttl)]);
      PlaceChunks(t1, cfg, now, up, size, 0, cids, orders)
  }

  lemma LastPieceStarts(size: nat, chunk: nat)
    requires chunk > 0
    ensures size > 0 ==> PieceCount(size, chunk) > 0 && (PieceCount(size, chunk) - 1) * chunk < size
    ensures size <= PieceCount(size, chunk) * chunk
    ensures size == 0 ==> PieceCount(size, chunk) == 0
  {
  }

  /** The checks every upload request starts with. */
  function ActiveUpload(t: Tables, now: Time, up: Id, owner: Option<Id>, writing: bool): Result<Upload> {
    if up !in t.uploads || t.uploads[up].oid !in t.objects then Fail(NotFound)
    else if owner.Some? && t.objects[t.uploads[up].oid].owner != owner.value then Fail(Forbidden)
    else if writing && t.objects[t.uploads[up].oid].phase.Deleted? then Fail(ObjectDeleted)
    else if writing && !(t.uploads[up].state.Uploading? && now < t.uploads[up].expires) then Fail(NotActive)
    else Ok(t.uploads[up])
  }

  /** Fix the digest of a chunk and hand out write authorizations for its reserved nodes. */
  ghost function Prepare(t: Tables, cfg: Config, now: Time, up: Id, owner: Id, seqNo: nat, digest: Digest)
    : Result<(Tables, Id, seq<Ticket>)>
  {
    var row :- ActiveUpload(t, now, up, Some(owner), false);
    if !(row.state.Uploading? && now < row.expires) then Fail(NotActive)
    else match ChunkAt(t, up, seqNo)
      case None => Fail(NotFound)
      case Some(c) =>
        var chunk := t.chunks[c];
        if chunk.digest.Some? && chunk.digest.value != digest then Fail(ChecksumConflict)
        else
          var t1 := t.(chunks := t.chunks[c := chunk.(digest := Some(digest))]);
          var positions :- Positions(t1, cfg, now, up, c, chunk.length, digest);
          if row.oid !in t.objects || |positions| != t.objects[row.oid].replicas then Fail(NodeUnavailable)
          else Ok((t1, c, positions))
  }

  /** What `Complete` demands of the chunk at position `i`. */
  ghost predicate PieceReady(t: Tables, up: Id, size: nat, chunkSize: nat, replicas: nat, i: nat) {
    var at := ChunkAt(t, up, i);
    && at.Some?
    && t.chunks[at.value].length == PieceLength(size, chunkSize, i)
    && t.chunks[at.value].state.ConfirmedChunk?
    && replicas <= |ValidRows(t, at.value)|
  }

  function PublishObject(t: Tables, up: Id): Tables
    requires up in t.uploads && t.uploads[up].oid in t.objects
  {
    var oid := t.uploads[up].oid;
    t.(objects := if t.objects[oid].phase.Staging? then t.objects[oid := t.objects[oid].(phase := Published)]
       else t.objects,
       uploads := t.uploads[up := t.uploads[up].(state := Completed)])
  }

  /** Publish an object whose chunks are all confirmed and sufficiently replicated. */
  ghost function Complete(t: Tables, now: Time, up: Id, owner: Id): Result<Tables> {
    var row :- ActiveUpload(t, now, up, Some(owner), false);
    var object_ := t.objects[row.oid];
    if row.state.Completed? && object_.phase.Published? then Ok(t)
    else if !(row.state.Uploading? && now < row.expires) then Fail(NotActive)
    else if object_.chunkSize == 0 || |ChunksOf(t, up)| != PieceCount(object_.size, object_.chunkSize)
        then Fail(Incomplete)
    else if exists i: nat :: i < |ChunksOf(t, up)|
              && !PieceReady(t, up, object_.size, object_.chunkSize, object_.replicas, i) then Fail(Incomplete)
    else Ok(PublishObject(t, up))
  }

  // ---------------------------------------------------------------- retiring

  /** What one row contributes to a node's `reserved` or `used` figure. */
  ghost function Weight(t: Tables, n: Id, charge: Charge, k: Key): int {
    if k in t.replicas && k.node == n && t.replicas[k].charge == charge && k.chunk in t.chunks
    then t.chunks[k.chunk].length else 0
  }

  ghost function Weigher(t: Tables, n: Id, charge: Charge): Key -> int {
    k => Weight(t, n, charge, k)
  }

  /** The bytes some rows still have reserved on a node. */
  ghost function ReservedFor(t: Tables, rows: set<Key>, n: Id): int {
    Total(rows, Weigher(t, n, ReservedCharge))
  }

  function RetiredRow(r: Replica): Replica {
    r.(state := if r.state.Gone? then Gone else Deleting,
       charge := if r.charge.ReservedCharge? then NoCharge else r.charge)
  }

  function WokenDelete(t: Tables, key: TaskKey, lease: Time): Task {
    if key !in t.tasks then Task(Pending, lease, None)
    else if t.tasks[key].state.Done? then t.tasks[key].(state := Pending, lease := lease)
    else t.tasks[key]
  }

  /** The effect of retiring on a set of rows: reservations go back, every row is marked, its cleanup queued. */
  ghost function RetireRows(t: Tables, rows: set<Key>, lease: Time): Tables {
    t.(nodes := map n | n in t.nodes :: t.nodes[n].(reserved := t.nodes[n].reserved - ReservedFor(t, rows, n)),
       replicas := map k | k in t.replicas :: if k in rows then RetiredRow(t.replicas[k]) else t.replicas[k],
       tasks := map key | key in t.tasks.Keys + (set k | k in rows :: DeleteOf(k.chunk, k.node)) ::
                  if key.DeleteOf? && Key(key.chunk, key.node) in rows then WokenDelete(t, key, lease)
                      else t.tasks[key])
  }

  predicate RepairsUpload(t: Tables, up: Id, key: TaskKey) {
    key.RepairOf? && key.chunk in t.chunks && t.chunks[key.chunk].upload == up
  }

  /** Fence off every outstanding repair of an upload's chunks. */
  function KillRepairs(t: Tables, up: Id): Tables {
    t.(tasks := map key | key in t.tasks :: if RepairsUpload(t, up, key) then Task(Done, 0.0, None) else t.tasks[key])
  }

  function MarkDeleted(t: Tables, up: Id, state: UploadState): Tables
    requires up in t.uploads
  {
    var oid := t.uploads[up].oid;
    t.(uploads := t.uploads[up := t.uploads[up].(state := state)],
       objects := if oid in t.objects then t.objects[oid := t.objects[oid].(phase := Deleted)] else t.objects)
  }

  /** Delete an object logically and hand all its replicas to cleanup. */
  ghost function Retire(t: Tables, cfg: Config, now: Time, up: Id, state: UploadState): Tables
    requires up in t.uploads
  {
    KillRepairs(RetireRows(MarkDeleted(t, up, state), RowsOf(t, up), now + cfg.CleanupDelay()), up)
  }

  ghost function Cancel(t: Tables, cfg: Config, now: Time, up: Id, owner: Id): Result<Tables> {
    var row :- ActiveUpload(t, now, up, Some(owner), false);
    if row.state.Cancelled? || row.state.Expired? then Ok(t)
    else if !(row.state.Uploading? && now < row.expires) then Fail(NotActive)
    else Ok(Retire(t, cfg, now, up, Cancelled))
  }

  ghost function Delete(t: Tables, cfg: Config, now: Time, oid: Id, owner: Id): Result<Tables> {
    if oid !in t.objects then Fail(NotFound)
    else if t.objects[oid].owner != owner then Fail(Forbidden)
    else if t.objects[oid].phase.Deleted? then Ok(t)
    else match UploadOf(t, oid)
      case None => Fail(NotFound)
      case Some(up) => Ok(Retire(t, cfg, now, up, Cancelled))
  }

  function PublishedObject(t: Tables, oid: Id, owner: Id): Result<Object> {
    if oid !in t.objects then Fail(NotFound)
    else if t.objects[oid].owner != owner then Fail(Forbidden)
    else if t.objects[oid].phase.Deleted? then Fail(ObjectDeleted)
    else if !t.objects[oid].phase.Published? then Fail(NotPublished)
    else Ok(t.objects[oid])
  }

  /** A reader reports a replica it could not use. */
  function BadReplica(t: Tables, oid: Id, owner: Id, c: Id, n: Id): Result<Tables> {
    var _ :- PublishedObject(t, oid, owner);
    if !(Linked(t, c) && ObjectIdOf(t, c) == oid) then Fail(Invalid)
    else
      var k := Key(c, n);
      var t1 := if k in t.replicas && t.replicas[k].state.Valid? then SetRow(t, k, t.replicas[k].(state := Bad)) else t;
      Ok(Enqueue(t1, RepairOf(c), 0.0))
  }

  // ---------------------------------------------------------------- confirmation

  datatype ConfirmSnap = ConfirmSnap(
    upload: Id, owner: Option<Id>, chunk: Id, length: nat, digest: Digest, positions: seq<Ticket>)

  ghost function ConfirmBegin(t: Tables, cfg: Config, now: Time, up: Id, owner: Option<Id>, seqNo: nat)
    : Result<ConfirmSnap> {
    var row :- ActiveUpload(t, now, up, owner, true);
    match ChunkAt(t, up, seqNo)
    case None => Fail(NotFound)
    case Some(c) =>
      if t.chunks[c].digest.None? then Fail(Invalid)
      else
        var digest := t.chunks[c].digest.value;
        var positions :- Positions(t, cfg, now, up, c, t.chunks[c].length, digest);
        if |positions| != t.objects[row.oid].replicas then Fail(Incomplete)
        else Ok(ConfirmSnap(up, owner, c, t.chunks[c].length, digest, positions))
  }

  function Instances(positions: seq<Ticket>): seq<Id> {
    seq(|positions|, i requires 0 <= i < |positions| => positions[i].instance)
  }

  function TicketNodes(positions: seq<Ticket>): set<Id> {
    set p | p in positions :: p.node
  }

  predicate Converts(t: Tables, c: Id, nodes: set<Id>, n: Id) {
    n in nodes && Key(c, n) in t.replicas && t.replicas[Key(c, n)].state.Reserved?
  }

  /** Every still reserved replica on the verified nodes becomes valid, its reservation becomes use. */
  function ConvertRows(t: Tables, c: Id, length: int, nodes: set<Id>): Tables {
    t.(replicas := map k | k in t.replicas ::
                     if k.chunk == c && Converts(t, c, nodes, k.node)
                     then t.replicas[k].(state := Valid, charge := UsedCharge) else t.replicas[k],
       nodes := map n | n in t.nodes ::
                     if Converts(t, c, nodes, n)
                     then t.nodes[n].(reserved := t.nodes[n].reserved - length, used := t.nodes[n].used + length)
                     else t.nodes[n])
  }

  function ConfirmCommit(t: Tables, cfg: Config, now: Time, snap: ConfirmSnap): Result<Tables> {
    var _ :- ActiveUpload(t, now, snap.upload, snap.owner, true);
    var current :- Positions(t, cfg, now, snap.upload, snap.chunk, snap.length, snap.digest);
    if current == [] || Instances(current) != Instances(snap.positions) then Fail(Stale)
    else
      var t1 := ConvertRows(t, snap.chunk, snap.length, TicketNodes(snap.positions));
      Ok(if snap.chunk in t1.chunks
         then t1.(chunks := t1.chunks[snap.chunk := t1.chunks[snap.chunk].(state := ConfirmedChunk)]) else t1)
  }

  // ---------------------------------------------------------------- nodes

  datatype Beat = Beat(node: Id, instance: Id, volume: Id, capacity: int, free: int, readAt: Time)

  const MAX_CAPACITY: int := 0x1000_0000_0000_0000

  function MovedRow(r: Replica, volume: Id): Replica {
    match r.state
    case Valid => r.(state := Unverified)
    case Bad => r.(state := Unverified)
    case Reserved => r.(volume := volume)
    case _ => r
  }

  /** Register a heartbeat. Its clock reading is taken before the transaction begins. */
  function Heartbeat(t: Tables, cfg: Config, b: Beat): Result<Tables> {
    if b.node !in cfg.nodes then Fail(Invalid)
    else if !(0 <= b.free <= b.capacity <= MAX_CAPACITY) then Fail(Invalid)
    else
      var known := b.node in t.nodes;
      var restarted := known && t.nodes[b.node].instance != b.instance;
      if restarted && (b.node, b.instance) in t.retired then Fail(Stale)
      else if restarted && b.readAt - t.nodes[b.node].heartbeat < cfg.dead then Fail(DuplicateNode)
      else
        var changed := restarted || (known && t.nodes[b.node].volume != b.volume);
        var row := Node(b.instance, b.volume, b.readAt, b.capacity, b.free,
                        if known then t.nodes[b.node].reserved else 0,
                        if known then t.nodes[b.node].used else 0, Healthy);
        Ok(t.(retired := if restarted then t.retired + {(b.node, t.nodes[b.node].instance)} else t.retired,
              nodes := t.nodes[b.node := row],
              replicas := if changed
                          then map k | k in t.replicas :: if k.node == b.node then MovedRow(t.replicas[k], b.volume)
                              else t.replicas[k]
                          else t.replicas))
  }

  function AgedHealth(heartbeat: Time, cfg: Config, now: Time): Health {
    if heartbeat < now - cfg.dead then Unavailable
    else if heartbeat < now - cfg.suspect then Suspect
    else Healthy
  }

  /** First part of the maintenance scan: grade every node by the age of its heartbeat. */
  function GradeNodes(t: Tables, cfg: Config, now: Time): Tables {
    t.(nodes := map n | n in t.nodes :: t.nodes[n].(health := AgedHealth(t.nodes[n].heartbeat, cfg, now)))
  }

  predicate Overdue(t: Tables, now: Time, up: Id) {
    up in t.uploads && t.uploads[up].state.Uploading? && t.uploads[up].expires < now
  }

  predicate NeedsRepair(t: Tables, cfg: Config, now: Time, c: Id) {
    && PhaseOf(t, c) == Some(Published)
    && |HealthyNodes(t, cfg, now, c)| < ObjectOf(t, c).replicas
  }

  // ---------------------------------------------------------------- reconciliation

  /** Settle one unverified row after its node answered, or failed to answer, a `stat`. */
  function SettleRow(t: Tables, n: Id, volume: Id, instance: Id, c: Id, length: int, valid: bool): Tables {
    var k := Key(c, n);
    if k !in t.replicas || n !in t.nodes then t
    else if t.nodes[n].volume != volume || t.nodes[n].instance != instance then t
    else
      var oldVolume := t.replicas[k].volume;
      var t1 := if t.replicas[k].state.Unverified?
                then SetRow(t, k, t.replicas[k].(state := if valid then Valid else Bad, volume := volume)) else t;
      if !valid && oldVolume != volume then Uncharge(t1, k, length) else t1
  }

  /** Decide what to do about one chunk id a node lists in its inventory. */
  function SettleListed(t: Tables, cfg: Config, now: Time, n: Id, volume: Id, c: Id): Tables {
    var k := Key(c, n);
    var cleanup := Enqueue(t, DeleteOf(c, n), now + cfg.CleanupDelay());
    if PhaseOf(t, c).None? || PhaseOf(t, c) == Some(Deleted) then cleanup
    else if k in t.replicas && t.replicas[k].volume == volume
            && (t.replicas[k].state.Reserved? || t.replicas[k].state.Valid? || t.replicas[k].state.Unverified?) then t
    else if PhaseOf(t, c) == Some(Published) && ObjectOf(t, c).replicas <= |HealthyNodes(t, cfg, now, c)| then cleanup
    else t
  }

  // ---------------------------------------------------------------- tasks

  predicate Claimable(t: Tables, now: Time, key: TaskKey) {
    key in t.tasks && !t.tasks[key].state.Done? && t.tasks[key].lease < now
  }

  function Claim(t: Tables, cfg: Config, now: Time, key: TaskKey, token: Id): Tables
    requires key in t.tasks
  {
    t.(tasks := t.tasks[key := Task(Running, now + cfg.lease, Some(token))])
  }

  /** A worker may only write while it holds the task. */
  predicate Fenced(t: Tables, now: Time, key: TaskKey, token: Id) {
    key in t.tasks && t.tasks[key].token == Some(token) && t.tasks[key].state.Running? && now < t.tasks[key].lease
  }

  function FinishTask(t: Tables, key: TaskKey): Tables
    requires key in t.tasks
  {
    t.(tasks := t.tasks[key := t.tasks[key].(state := Done, lease := 0.0)])
  }

  /** A failed job goes back to the queue. */
  function GiveBack(t: Tables, now: Time, key: TaskKey, token: Id): Tables {
    if key in t.tasks && t.tasks[key].token == Some(token) && t.tasks[key].state.Running? then
      t.(tasks := t.tasks[key := t.tasks[key].(state := Pending, lease := now + 2.0)])
    else t
  }

  /** `length` is the chunk's length if the chunk was known when the deletion began. */
  datatype DeleteSnap = DeleteSnap(instance: Id, volume: Id, length: Option<nat>)

  predicate Protected(t: Tables, cfg: Config, now: Time, c: Id, n: Id) {
    var k := Key(c, n);
    && Linked(t, c) && !ObjectOf(t, c).phase.Deleted?
    && !(&& ObjectOf(t, c).phase.Published?
         && !(k in t.replicas && (t.replicas[k].state.Valid? || t.replicas[k].state.Reserved?
                                  || t.replicas[k].state.Unverified?))
         && ObjectOf(t, c).replicas <= |HealthyNodes(t, cfg, now, c)|)
  }

  function DeleteBegin(t: Tables, cfg: Config, now: Time, c: Id, n: Id, token: Id): Result<(Tables, DeleteSnap)> {
    var k := Key(c, n);
    if !Fenced(t, now, DeleteOf(c, n), token) then Fail(Stale)
    else if n !in t.nodes then Fail(NodeUnavailable)
    else if Protected(t, cfg, now, c, n) then Fail(Busy)
    else
      var snap := DeleteSnap(t.nodes[n].instance, t.nodes[n].volume, if Linked(t, c) then Some(t.chunks[c].length)
                             else None);
      Ok((if k in t.replicas then SetRow(t, k, t.replicas[k].(state := Deleting)) else t, snap))
  }

  function DeleteCommit(t: Tables, now: Time, c: Id, n: Id, token: Id, snap: DeleteSnap): Result<Tables> {
    var key, k := DeleteOf(c, n), Key(c, n);
    if !Fenced(t, now, key, token) then Fail(Stale)
    else if n !in t.nodes || t.nodes[n].instance != snap.instance || t.nodes[n].volume != snap.volume then Fail(Stale)
    else
      var t1 := if snap.length.Some? then Uncharge(t, k, snap.length.value) else t;
      var t2 := if k in t1.replicas && t1.replicas[k].state.Deleting?
          then SetRow(t1, k, t1.replicas[k].(state := Gone)) else t1;
      Ok(FinishTask(t2, key))
  }

  datatype RepairSnap = RepairSnap(
    chunk: Id, length: nat, digest: Option<Digest>, upload: Id, oid: Id, required: nat,
    sources: set<Id>, target: Id, volume: Id, instance: Id)

  function ReservedNodes(t: Tables, c: Id): set<Id> {
    set n | n in t.nodes && Key(c, n) in t.replicas && t.replicas[Key(c, n)].state.Reserved?
  }

  /** Nodes a repair may not choose: any row of the chunk that is not gone. */
  function Occupied(t: Tables, c: Id): set<Id> {
    set n | n in t.nodes && Key(c, n) in t.replicas && !t.replicas[Key(c, n)].state.Gone?
  }

  /** Choose the repair's target: a reservation left by an earlier attempt, or a new one. */
  function RepairTarget(t: Tables, cfg: Config, now: Time, c: Id, length: int,
                        pending: Option<Id>, order: seq<Id>): Result<(Tables, Id)>
    requires pending.Some? ==> pending.value in ReservedNodes(t, c)
  {
    if pending.Some? then Ok((t, pending.value))
    else
      var placed :- Reserve(t, cfg, now, c, length, 1, Occupied(t, c), order);
      if placed.1 == [] then Fail(OutOfCapacity) else Ok((placed.0, placed.1[0]))
  }

  /** Begin a repair. `None` in the result means the chunk has enough replicas and the task is done. */
  function RepairBegin(t: Tables, cfg: Config, now: Time, c: Id, token: Id,
                       pending: Option<Id>, order: seq<Id>): Result<(Tables, Option<RepairSnap>)>
    requires pending.Some? ==> pending.value in ReservedNodes(t, c)
  {
    if !Fenced(t, now, RepairOf(c), token) then Fail(Stale)
    else if !Linked(t, c) then Fail(NotFound)
    else
      var chunk, object_ := t.chunks[c], ObjectOf(t, c);
      if !object_.phase.Published? then Fail(ObjectDeleted)
      else
        var sources := HealthyNodes(t, cfg, now, c);
        if object_.replicas <= |sources| then Ok((FinishTask(t, RepairOf(c)), None))
        else if sources == {} then Fail(DataUnavailable)
        else
          var chosen :- RepairTarget(t, cfg, now, c, chunk.length, pending, order);
          var t1, n := chosen.0, chosen.1;
          if n !in t1.nodes || !Live(t1.nodes[n], cfg, now) then Fail(NodeUnavailable)
          else Ok((t1, Some(RepairSnap(c, chunk.length, chunk.digest, chunk.upload, ObjectIdOf(t, c), object_.replicas,
                                       sources, n, t1.nodes[n].volume, t1.nodes[n].instance))))
  }

  /** Record a finished repair, or throw the copy away if it is no longer needed. */
  function RepairCommit(t: Tables, cfg: Config, now: Time, token: Id, snap: RepairSnap): Result<Tables> {
    var c, n := snap.chunk, snap.target;
    var key, k := RepairOf(c), Key(c, n);
    if !Fenced(t, now, key, token) then Fail(Stale)
    else if snap.oid !in t.objects || !t.objects[snap.oid].phase.Published? then Fail(ObjectDeleted)
    else if n !in t.nodes || t.nodes[n].volume != snap.volume || t.nodes[n].instance != snap.instance then Fail(Stale)
    else if k !in t.replicas || !(t.replicas[k].state.Reserved? && t.replicas[k].charge.ReservedCharge?)
        then Fail(Stale)
    else if snap.required <= |HealthyNodes(t, cfg, now, c)| then
      var t1 := Uncharge(t, k, snap.length);
      var t2 := SetRow(t1, k, t1.replicas[k].(state := Bad));
      Ok(FinishTask(Enqueue(t2, DeleteOf(c, n), now + cfg.CleanupDelay()), key))
    else
      var t1 := SetRow(t, k, t.replicas[k].(state := Valid, charge := UsedCharge));
      Ok(FinishTask(AddToNode(t1, n, -(snap.length as int), snap.length), key))
  }
}
