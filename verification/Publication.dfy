/** An upload is an exact partition of its object, and is published exactly when every piece is in place. */
module Publication {
  import opened Schema
  import opened Sums
  import opened Transactions
  import opened Accounting
  import opened Invariants
  import opened Preservation
  import opened Lifecycle
  import opened Creation

  function LengthOf(t: Tables): Id -> int {
    c => if c in t.chunks then t.chunks[c].length else 0
  }

  function FirstPieces(t: Tables, up: Id, m: nat): set<Id> {
    set c | c in t.chunks && t.chunks[c].upload == up && t.chunks[c].seqNo < m
  }

  function SizeOf(t: Tables, up: Id): nat
    requires up in t.uploads && t.uploads[up].oid in t.objects
  {
    t.objects[t.uploads[up].oid].size
  }

  function ChunkSizeOf(t: Tables, up: Id): nat
    requires up in t.uploads && t.uploads[up].oid in t.objects
  {
    t.objects[t.uploads[up].oid].chunkSize
  }

  /** Everything partitioning needs to know about one upload. */
  ghost predicate Cut(t: Tables, up: Id) {
    && up in t.uploads && t.uploads[up].oid in t.objects && ChunkSizeOf(t, up) > 0
    && (forall c, d | c in t.chunks && d in t.chunks ::
          t.chunks[c].upload == up && t.chunks[d].upload == up && t.chunks[c].seqNo == t.chunks[d].seqNo ==> c == d)
    && (forall i: nat :: i < PieceCount(SizeOf(t, up), ChunkSizeOf(t, up)) ==> PiecesAt(t, up, i) != {})
    && (forall c :: c in ChunksOf(t, up) ==>
          && t.chunks[c].seqNo < PieceCount(SizeOf(t, up), ChunkSizeOf(t, up))
          && t.chunks[c].length == PieceLength(SizeOf(t, up), ChunkSizeOf(t, up), t.chunks[c].seqNo))
  }

  lemma GoodIsCut(t: Tables, up: Id)
    requires Good(t) && up in t.uploads
    ensures Cut(t, up)
  {
    hide Balanced, Rows, Tasks, Counts, Pairs, PiecesAt;
    assert WholeUpload(t, up);
    forall c | c in ChunksOf(t, up)
      ensures t.chunks[c].seqNo < PieceCount(SizeOf(t, up), ChunkSizeOf(t, up))
      ensures t.chunks[c].length == PieceLength(SizeOf(t, up), ChunkSizeOf(t, up), t.chunks[c].seqNo)
    {
      assert PieceOk(t, c);
    }
  }

  /** How many bytes the first `m` pieces hold. */
  function Covered(size: nat, chunk: nat, m: nat): int {
    if m * chunk < size then m * chunk else size
  }

  lemma NextPieceCovers(size: nat, chunk: nat, m: nat)
    requires chunk > 0 && m < PieceCount(size, chunk)
    ensures Covered(size, chunk, m + 1) == Covered(size, chunk, m) + PieceLength(size, chunk, m)
  {
    assert (m + 1) * chunk == m * chunk + chunk;
    LastPieceStarts(size, chunk);
    assert m * chunk <= (PieceCount(size, chunk) - 1) * chunk;
  }

  lemma NoPieces(t: Tables, up: Id)
    requires Cut(t, up)
    ensures FirstPieces(t, up, 0) == {} && Covered(SizeOf(t, up), ChunkSizeOf(t, up), 0) == 0
  {
  }

  lemma {:induction false} FirstPiecesCover(t: Tables, up: Id, m: nat)
    requires Cut(t, up) && up in t.uploads && t.uploads[up].oid in t.objects && ChunkSizeOf(t, up) > 0
    requires m <= PieceCount(SizeOf(t, up), ChunkSizeOf(t, up))
    ensures |FirstPieces(t, up, m)| == m
    ensures Total(FirstPieces(t, up, m), LengthOf(t)) == Covered(SizeOf(t, up), ChunkSizeOf(t, up), m)
  {
    hide PieceCount, Covered, PieceLength, FirstPieces, Cut;
    if m == 0 {
      NoPieces(t, up);
    } else {
      FirstPiecesCover(t, up, m - 1);
      LastPiece(t, up, m);
      NextPieceCovers(SizeOf(t, up), ChunkSizeOf(t, up), m - 1);
    }
  }

  lemma LastPiece(t: Tables, up: Id, m: nat)
    requires Cut(t, up) && up in t.uploads && t.uploads[up].oid in t.objects && ChunkSizeOf(t, up) > 0
    requires 0 < m <= PieceCount(SizeOf(t, up), ChunkSizeOf(t, up))
    ensures |FirstPieces(t, up, m)| == |FirstPieces(t, up, m - 1)| + 1
    ensures Total(FirstPieces(t, up, m), LengthOf(t))
            == Total(FirstPieces(t, up, m - 1), LengthOf(t)) + PieceLength(SizeOf(t, up), ChunkSizeOf(t, up), m - 1)
  {
    hide Cut, FirstPieces, PieceCount, PieceLength;
    var c := LastOne(t, up, m);
    TotalTakeOut(FirstPieces(t, up, m), LengthOf(t), c);
    assert FirstPieces(t, up, m) - {c} == FirstPieces(t, up, m - 1);
  }

  lemma LastOne(t: Tables, up: Id, m: nat) returns (c: Id)
    requires Cut(t, up) && 0 < m <= PieceCount(SizeOf(t, up), ChunkSizeOf(t, up))
    ensures FirstPieces(t, up, m) == FirstPieces(t, up, m - 1) + {c} && c !in FirstPieces(t, up, m - 1)
    ensures LengthOf(t)(c) == PieceLength(SizeOf(t, up), ChunkSizeOf(t, up), m - 1)
  {
    hide PieceCount, PieceLength;
    c :| c in PiecesAt(t, up, m - 1);
    assert c in ChunksOf(t, up);
  }

  /** The chunks of an upload are exactly its pieces, one for each position, and add up to the object. */
  lemma PiecesPartitionTheObject(t: Tables, up: Id)
    requires Good(t) && up in t.uploads && t.uploads[up].oid in t.objects
    ensures ChunkSizeOf(t, up) > 0
    ensures |ChunksOf(t, up)| == PieceCount(SizeOf(t, up), ChunkSizeOf(t, up))
    ensures Total(ChunksOf(t, up), LengthOf(t)) == SizeOf(t, up)
    ensures forall i: nat :: i < PieceCount(SizeOf(t, up), ChunkSizeOf(t, up)) <==> PiecesAt(t, up, i) != {}
  {
    hide Good;
    GoodIsCut(t, up);
    var count := PieceCount(SizeOf(t, up), ChunkSizeOf(t, up));
    FirstPiecesCover(t, up, count);
    LastPieceStarts(SizeOf(t, up), ChunkSizeOf(t, up));
    assert ChunksOf(t, up) == FirstPieces(t, up, count);
    forall i: nat | PiecesAt(t, up, i) != {} ensures i < count {
      var c :| c in PiecesAt(t, up, i);
      assert c in ChunksOf(t, up);
    }
  }

  /** A new object has ceil(size / chunk) pieces of positive length that add up to its size,
      each reserved on exactly `replicas` distinct nodes. */
  lemma InitPartitions(t: Tables, cfg: Config, now: Time, owner: Id, size: nat, oid: Id, up: Id,
                       cids: seq<Id>, orders: seq<seq<Id>>, u: Tables)
    requires cfg.Valid() && Good(t) && FreshIds(t, oid, up, cids)
    requires size <= cfg.chunk * cfg.maxChunks ==> |cids| == |orders| == PieceCount(size, cfg.chunk)
    requires forall i :: 0 <= i < |orders| ==> Distinct(orders[i])
    requires Init(t, cfg, now, owner, size, oid, up, cids, orders) == Ok(u)
    ensures |ChunksOf(u, up)| == PieceCount(size, cfg.chunk) && Total(ChunksOf(u, up), LengthOf(u)) == size
    ensures forall c :: c in ChunksOf(u, up) ==>
              && u.chunks[c].length > 0 && |RowKeys(u, c)| == cfg.replicas
              && forall k :: k in RowKeys(u, c)
                    ==> u.replicas[k].state.Reserved? && u.replicas[k].charge.ReservedCharge?
  {
    hide Good, Init, Advances, FreshIds;
    InitGood(t, cfg, now, owner, size, oid, up, cids, orders, u);
    PiecesPartitionTheObject(u, up);
    NewUploadIsNew(t, oid, up, cids);
    forall c | c in ChunksOf(u, up)
      ensures u.chunks[c].length > 0 && |RowKeys(u, c)| == cfg.replicas
      ensures forall k :: k in RowKeys(u, c) ==> u.replicas[k].state.Reserved? && u.replicas[k].charge.ReservedCharge?
    {
      NewPiece(t, u, oid, up, cids, c);
    }
  }

  lemma NewUploadIsNew(t: Tables, oid: Id, up: Id, cids: seq<Id>)
    requires Good(t) && FreshIds(t, oid, up, cids)
    ensures forall c :: c in t.chunks ==> t.chunks[c].upload != up
    ensures forall k :: k in t.replicas ==> k.chunk in t.chunks
  {
    hide Balanced;
    GoodRows(t);
  }

  lemma NewPiece(t: Tables, u: Tables, oid: Id, up: Id, cids: seq<Id>, c: Id)
    requires Good(u) && OnlyAdds(t, u, oid, up, cids) && c in ChunksOf(u, up)
    requires up in u.uploads && u.uploads[up].oid == oid && u.objects[oid].phase.Staging?
    requires forall d :: d in t.chunks ==> t.chunks[d].upload != up
    requires forall k :: k in t.replicas ==> k.chunk in t.chunks
    ensures u.chunks[c].length > 0 && |RowKeys(u, c)| == u.objects[oid].replicas
    ensures forall k :: k in RowKeys(u, c) ==> u.replicas[k].state.Reserved? && u.replicas[k].charge.ReservedCharge?
  {
    hide Balanced, Tasks;
    GoodRows(u);
    assert CountOk(u, c) && PieceOk(u, c);
    assert c !in t.chunks;
    forall k | k in RowKeys(u, c) ensures u.replicas[k].state.Reserved? && u.replicas[k].charge.ReservedCharge? {
      assert k !in t.replicas;
      assert RowOk(u, k);
    }
  }

  // ---------------------------------------------------------------- completing

  /** What publishing takes, in the caller's terms. */
  ghost predicate EveryPieceConfirmed(t: Tables, up: Id, replicas: nat) {
    forall c :: c in ChunksOf(t, up) ==> t.chunks[c].state.ConfirmedChunk? && replicas <= |ValidRows(t, c)|
  }

  lemma ReadyPiece(t: Tables, up: Id, i: nat, replicas: nat)
    requires Cut(t, up) && i < PieceCount(SizeOf(t, up), ChunkSizeOf(t, up))
    ensures ChunkAt(t, up, i).Some? && ChunkAt(t, up, i).value in ChunksOf(t, up)
    ensures t.chunks[ChunkAt(t, up, i).value].seqNo == i
    ensures var c := ChunkAt(t, up, i).value;
            PieceReady(t, up, SizeOf(t, up), ChunkSizeOf(t, up), replicas, i)
            <==> t.chunks[c].state.ConfirmedChunk? && replicas <= |ValidRows(t, c)|
  {
    hide ValidRows;
    var c := ChunkAt(t, up, i).value;
    assert c in PiecesAt(t, up, i);
  }

  lemma ReadyExactlyWhenConfirmed(t: Tables, up: Id, replicas: nat)
    requires Cut(t, up)
    ensures (forall i: nat :: i < PieceCount(SizeOf(t, up), ChunkSizeOf(t, up))
              ==> PieceReady(t, up, SizeOf(t, up), ChunkSizeOf(t, up), replicas, i))
            <==> EveryPieceConfirmed(t, up, replicas)
  {
    hide PieceReady, ValidRows, ChunkAt, PiecesAt;
    var count := PieceCount(SizeOf(t, up), ChunkSizeOf(t, up));
    if forall i: nat :: i < count ==> PieceReady(t, up, SizeOf(t, up), ChunkSizeOf(t, up), replicas, i) {
      forall c | c in ChunksOf(t, up) ensures t.chunks[c].state.ConfirmedChunk? && replicas <= |ValidRows(t, c)| {
        ReadyPiece(t, up, t.chunks[c].seqNo, replicas);
      }
    }
    if EveryPieceConfirmed(t, up, replicas) {
      forall i: nat | i < count ensures PieceReady(t, up, SizeOf(t, up), ChunkSizeOf(t, up), replicas, i) {
        ReadyPiece(t, up, i, replicas);
      }
    }
  }

  /** A request to publish succeeds exactly if the upload is already published, or is still active with
      every piece confirmed and fully replicated; afterwards the object is published. */
  lemma PublishedExactlyWhenWhole(t: Tables, now: Time, up: Id, owner: Id)
    requires Good(t) && up in t.uploads && t.uploads[up].oid in t.objects && t.objects[t.uploads[up].oid].owner == owner
    ensures var row, object_ := t.uploads[up], t.objects[t.uploads[up].oid];
            && (Complete(t, now, up, owner).Ok? <==>
                  || row.state.Completed?
                  || (row.state.Uploading? && now < row.expires && EveryPieceConfirmed(t, up, object_.replicas)))
            && (Complete(t, now, up, owner).Ok? ==>
                PhaseOfUpload(Complete(t, now, up, owner).value, up) == Some(Published))
  {
    hide Good, PieceReady, ChunksOf, PublishObject, EveryPieceConfirmed;
    UploadPairs(t, up);
    GoodIsCut(t, up);
    PiecesPartitionTheObject(t, up);
    ReadyExactlyWhenConfirmed(t, up, t.objects[t.uploads[up].oid].replicas);
    if Complete(t, now, up, owner).Ok? {
      PublishGood(t, now, up, owner, Complete(t, now, up, owner).value);
    }
  }

  lemma UploadPairs(t: Tables, up: Id)
    requires Good(t) && up in t.uploads
    ensures t.uploads[up].oid in t.objects && PairOk(t.uploads[up].state, t.objects[t.uploads[up].oid].phase)
  {
    UploadPair(t, up);
  }

  // ---------------------------------------------------------------- progress

  function Confirmed(t: Tables, up: Id): set<Id> {
    set c | c in t.chunks && t.chunks[c].upload == up && t.chunks[c].state.ConfirmedChunk?
  }

  /** The progress figure of a status reply. */
  ghost function ConfirmedBytes(t: Tables, up: Id): int {
    Total(Confirmed(t, up), LengthOf(t))
  }

  /** The positions a client still has to send. */
  function MissingPositions(t: Tables, up: Id): set<nat> {
    set c | c in t.chunks && t.chunks[c].upload == up && !t.chunks[c].state.ConfirmedChunk? :: t.chunks[c].seqNo
  }

  lemma MissingIsTheRest(t: Tables, up: Id)
    ensures MissingPositions(t, up) == {} <==> ChunksOf(t, up) <= Confirmed(t, up)
  {
    if !(ChunksOf(t, up) <= Confirmed(t, up)) {
      var c :| c in ChunksOf(t, up) && c !in Confirmed(t, up);
      assert t.chunks[c].seqNo in MissingPositions(t, up);
    }
    if MissingPositions(t, up) != {} {
      var x :| x in MissingPositions(t, up);
      var c :| c in t.chunks && t.chunks[c].upload == up && !t.chunks[c].state.ConfirmedChunk?
          && t.chunks[c].seqNo == x;
      assert c in ChunksOf(t, up) && c !in Confirmed(t, up);
    }
  }

  /** The progress figure never exceeds the object's size, and reaches it exactly when nothing is missing. */
  lemma ProgressIsExact(t: Tables, up: Id)
    requires Good(t) && up in t.uploads && t.uploads[up].oid in t.objects
    ensures 0 <= ConfirmedBytes(t, up) <= SizeOf(t, up)
    ensures ConfirmedBytes(t, up) == SizeOf(t, up) <==> MissingPositions(t, up) == {}
  {
    hide Good, MissingPositions;
    PiecesPartitionTheObject(t, up);
    var rest := ChunksOf(t, up) - Confirmed(t, up);
    assert ChunksOf(t, up) == Confirmed(t, up) + rest;
    TotalOfUnion(Confirmed(t, up), rest, LengthOf(t));
    TotalNonNegative(Confirmed(t, up), LengthOf(t));
    TotalNonNegative(rest, LengthOf(t));
    MissingIsTheRest(t, up);
    if rest != {} {
      var c :| c in rest;
      PiecesArePositive(t, up, c);
      TotalTakeOut(rest, LengthOf(t), c);
      TotalNonNegative(rest - {c}, LengthOf(t));
    }
  }

  lemma PiecesArePositive(t: Tables, up: Id, c: Id)
    requires Good(t) && c in ChunksOf(t, up)
    ensures t.chunks[c].length > 0
  {
    hide Balanced, Rows, Tasks, Counts, Pairs;
    assert PieceOk(t, c);
  }
}
