/** The metadata tables of the object store, their rows, and the lookups every transaction shares. */
module Schema {
  import opened Octets

  type Id = nat
  type Time = real

  datatype Option<+T> = None | Some(value: T)

  /** The error codes of the service, the storage nodes and the connections between them. */
  datatype Code =
    | NotFound | Forbidden | ObjectDeleted | NotActive | NotPublished | OutOfCapacity | NodeUnavailable
    | ChecksumConflict | Incomplete | Invalid | Stale | DuplicateNode | Busy | DataUnavailable
    | Unauthorized | TicketExpired | ChecksumMismatch | IoError | Missing | Corrupt
    | Truncated | Protocol | LimitExceeded

  datatype Result<+T> = Ok(value: T) | Fail(code: Code) {
    predicate IsFailure() {
      Fail?
    }
    function PropagateFailure<U>(): Result<U>
      requires Fail?
    {
      Fail(code)
    }
    function Extract(): T
      requires Ok?
    {
      value
    }
  }

  /** A collision-free digest: the digest of some content, or a string no content is known for. */
  datatype Digest = Sha(content: Bytes) | Unmatched(tag: nat)

  datatype Config = Config(
    chunk: nat, maxChunks: nat, replicas: nat, nodes: set<Id>,
    ttl: Time, authTtl: Time, suspect: Time, dead: Time, lease: Time)
  {
    predicate Valid() {
      && 1 <= chunk && 1 <= maxChunks && 2 <= replicas
      && 5.0 <= ttl && 2.0 <= authTtl && 2.0 <= suspect && suspect + 1.0 <= dead && 40.0 <= lease
    }
    /** How long a cleanup waits, so that every upload ticket has run out before it starts. */
    function CleanupDelay(): Time {
      authTtl + 30.0
    }
  }

  // ---------------------------------------------------------------- rows

  datatype Health = Healthy | Suspect | Unavailable
  datatype Node = Node(
    instance: Id, volume: Id, heartbeat: Time, capacity: int, free: int,
    reserved: int, used: int, health: Health)

  datatype Phase = Staging | Published | Deleted
  datatype Object = Object(owner: Id, size: nat, chunkSize: nat, replicas: nat, phase: Phase)

  datatype UploadState = Uploading | Completed | Cancelled | Expired
  datatype Upload = Upload(oid: Id, state: UploadState, expires: Time)

  datatype ChunkState = PendingChunk | ConfirmedChunk
  datatype Chunk = Chunk(upload: Id, seqNo: nat, length: nat, digest: Option<Digest>, state: ChunkState)

  datatype ReplicaState = Reserved | Valid | Bad | Unverified | Deleting | Gone
  datatype Charge = NoCharge | ReservedCharge | UsedCharge
  datatype Key = Key(chunk: Id, node: Id)
  datatype Replica = Replica(volume: Id, state: ReplicaState, charge: Charge)

  datatype TaskKey = RepairOf(chunk: Id) | DeleteOf(chunk: Id, node: Id)
  datatype TaskState = Pending | Running | Done
  datatype Task = Task(state: TaskState, lease: Time, token: Option<Id>)

  datatype Tables = Tables(
    nodes: map<Id, Node>,
    retired: set<(Id, Id)>,
    objects: map<Id, Object>,
    uploads: map<Id, Upload>,
    chunks: map<Id, Chunk>,
    replicas: map<Key, Replica>,
    tasks: map<TaskKey, Task>)

  const EMPTY := Tables(map[], {}, map[], map[], map[], map[], map[])

  /** A signed write authorization. */
  datatype Ticket = Ticket(
    upload: Id, chunk: Id, length: nat, digest: Digest,
    node: Id, volume: Id, instance: Id, expires: Time)

  // ---------------------------------------------------------------- joins

  predicate Linked(t: Tables, c: Id) {
    && c in t.chunks
    && t.chunks[c].upload in t.uploads
    && t.uploads[t.chunks[c].upload].oid in t.objects
  }

  function ObjectIdOf(t: Tables, c: Id): Id
    requires Linked(t, c)
  {
    t.uploads[t.chunks[c].upload].oid
  }

  function ObjectOf(t: Tables, c: Id): Object
    requires Linked(t, c)
  {
    t.objects[ObjectIdOf(t, c)]
  }

  /** The phase of the object a chunk belongs to, if the chunk is known. */
  function PhaseOf(t: Tables, c: Id): Option<Phase> {
    if Linked(t, c) then Some(ObjectOf(t, c).phase) else None
  }

  predicate Live(node: Node, cfg: Config, now: Time) {
    node.health.Healthy? && now - node.heartbeat < cfg.suspect
  }

  /** The nodes assigned to a chunk: reserved or valid rows on the node's present volume. */
  function Assigned(t: Tables, c: Id): set<Id> {
    set n | n in t.nodes && Key(c, n) in t.replicas
            && t.replicas[Key(c, n)].volume == t.nodes[n].volume
            && (t.replicas[Key(c, n)].state.Reserved? || t.replicas[Key(c, n)].state.Valid?)
  }

  /** The nodes that hold a healthy valid replica. */
  function HealthyNodes(t: Tables, cfg: Config, now: Time, c: Id): set<Id> {
    set n | n in t.nodes && Key(c, n) in t.replicas
            && t.replicas[Key(c, n)].volume == t.nodes[n].volume
            && t.replicas[Key(c, n)].state.Valid? && Live(t.nodes[n], cfg, now)
  }

  function ValidRows(t: Tables, c: Id): set<Key> {
    set k | k in t.replicas && k.chunk == c && t.replicas[k].state.Valid?
  }

  function ChunksOf(t: Tables, up: Id): set<Id> {
    set c | c in t.chunks && t.chunks[c].upload == up
  }

  function RowsOf(t: Tables, up: Id): set<Key> {
    set k | k in t.replicas && k.chunk in t.chunks && t.chunks[k.chunk].upload == up
  }

  function PiecesAt(t: Tables, up: Id, seqNo: nat): set<Id> {
    set c | c in t.chunks && t.chunks[c].upload == up && t.chunks[c].seqNo == seqNo
  }

  /** The chunk at a position of an upload; positions are unique per upload. */
  ghost function ChunkAt(t: Tables, up: Id, seqNo: nat): Option<Id> {
    if PiecesAt(t, up, seqNo) == {} then None
    else var c :| c in PiecesAt(t, up, seqNo); Some(c)
  }

  function UploadsOf(t: Tables, oid: Id): set<Id> {
    set up | up in t.uploads && t.uploads[up].oid == oid
  }

  /** The upload of an object; every object has exactly one. */
  ghost function UploadOf(t: Tables, oid: Id): Option<Id> {
    if UploadsOf(t, oid) == {} then None
    else var up :| up in UploadsOf(t, oid); Some(up)
  }

  // ---------------------------------------------------------------- pieces and order

  function PieceCount(size: nat, chunk: nat): nat
    requires chunk > 0
  {
    (size + chunk - 1) / chunk
  }

  function PieceLength(size: nat, chunk: nat, i: nat): int {
    if size - i * chunk < chunk then size - i * chunk else chunk
  }

  lemma SmallestExists(s: set<nat>) returns (m: nat)
    requires s != {}
    ensures m in s && forall x :: x in s ==> m <= x
  {
    var first :| first in s;
    m := first;
    if s != {first} {
      var rest := SmallestExists(s - {first});
      m := if rest < first then rest else first;
      assert forall x :: x in s ==> x == first || x in s - {first};
    }
  }

  function Smallest(s: set<nat>): (m: nat)
    requires s != {}
    ensures m in s && forall x :: x in s ==> m <= x
  {
    assert exists m :: m in s && forall x :: x in s ==> m <= x by {
      var _ := SmallestExists(s);
    }
    var m :| m in s && forall x :: x in s ==> m <= x;
    m
  }

  ghost predicate Increasing(r: seq<nat>) {
    forall i, j :: 0 <= i < j < |r| ==> r[i] < r[j]
  }

  /** The members of a set in increasing order. */
  function Sorted(s: set<nat>): (r: seq<nat>)
    ensures Increasing(r)
    ensures forall x :: x in r <==> x in s
    ensures |r| == |s|
  {
    if s == {} then []
    else
      var m := Smallest(s);
      [m] + Sorted(s - {m})
  }

  // ---------------------------------------------------------------- pages

  const PAGE: nat := 256

  /** One page of a listing: the first entries from the cursor on, and the next cursor if there are more. */
  function Page(s: set<nat>, cursor: nat): (seq<nat>, Option<nat>) {
    var all := Sorted(set x | x in s && cursor <= x);
    if |all| > PAGE then (all[..PAGE], Some(all[PAGE - 1] + 1)) else (all, None)
  }

  lemma BeforeTheCut(all: seq<nat>, m: nat, x: nat)
    requires Increasing(all) && 0 < m < |all|
    ensures x in all[..m] <==> x in all && x < all[m - 1] + 1
  {
    assert forall j :: m <= j < |all| ==> all[m - 1] < all[j];
    assert forall j :: 0 <= j < m ==> all[j] <= all[m - 1];
    assert forall j :: 0 <= j < m ==> all[j] == all[..m][j];
  }

  /** A page lists everything between its cursor and the next, in order, and the cursor moves on past the last one
      listed exactly as long as something lies beyond. */
  lemma PageIsExact(s: set<nat>, cursor: nat)
    ensures var (page, next) := Page(s, cursor);
            && Increasing(page) && |page| <= PAGE
            && (forall x :: x in page <==> x in s && cursor <= x && (next.Some? ==> x < next.value))
            && (next.Some? ==> cursor < next.value && |page| == PAGE && page[PAGE - 1] + 1 == next.value)
            && (next.Some? <==> exists x :: x in s && cursor <= x && x !in page)
  {
    var all := Sorted(set x | x in s && cursor <= x);
    hide Sorted;
    if |all| > PAGE {
      assert all[PAGE - 1] in all && all[PAGE] in all;
      forall x ensures x in all[..PAGE] <==> x in s && cursor <= x && x < all[PAGE - 1] + 1 {
        BeforeTheCut(all, PAGE, x);
      }
    }
  }
}
