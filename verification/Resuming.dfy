/** What a client that resumes an upload may rely on: the service keeps the promises that module Transfer's loops
    build on, over every run and whatever other clients do meanwhile. */
module Resuming {
  import opened Schema
  import opened Transactions
  import opened Accounting
  import opened Invariants
  import opened Preservation
  import opened Lifecycle
  import opened Moves
  import opened Protocol
  import opened Runs
  import opened Safety
  import opened Publication
  import opened Confirmations

  /** The digest fixed for a position of an upload, if any. */
  ghost function DigestAt(t: Tables, up: Id, i: nat): Option<Digest> {
    match ChunkAt(t, up, i)
    case None => None
    case Some(c) => t.chunks[c].digest
  }

  lemma ChunkAtIs(t: Tables, up: Id, i: nat, c: Id)
    requires Good(t) && c in PiecesAt(t, up, i)
    ensures ChunkAt(t, up, i) == Some(c) && DigestAt(t, up, i) == t.chunks[c].digest
  {
    hide Balanced, Rows, Tasks, Counts, Pieces, Pairs;
    var d := ChunkAt(t, up, i).value;
    assert d in PiecesAt(t, up, i);
  }

  /** No upload ever gains, loses or moves a chunk. */
  lemma ChunksAreFixed(t: Tables, u: Tables, up: Id)
    requires Good(t) && Good(u) && Grows(t, u) && up in t.uploads
    ensures ChunksOf(u, up) == ChunksOf(t, up)
  {
    hide Good;
    UploadPairs(t, up);
    UploadPairs(u, up);
    GrownUpload(t, u, up);
    PiecesPartitionTheObject(t, up);
    PiecesPartitionTheObject(u, up);
    hide Grows;
    forall c | c in ChunksOf(t, up) ensures c in ChunksOf(u, up) {
      GrownChunk(t, u, c);
    }
    SubsetOfSameSize(ChunksOf(t, up), ChunksOf(u, up));
  }

  lemma GrownUpload(t: Tables, u: Tables, up: Id)
    requires Grows(t, u) && up in t.uploads && t.uploads[up].oid in t.objects && up in u.uploads
    requires u.uploads[up].oid in u.objects
    ensures SizeOf(u, up) == SizeOf(t, up) && ChunkSizeOf(u, up) == ChunkSizeOf(t, up)
  {
  }

  lemma GrownChunk(t: Tables, u: Tables, c: Id)
    requires Grows(t, u) && c in t.chunks
    ensures c in u.chunks && ChunkEdge(t.chunks[c], u.chunks[c])
  {
  }

  lemma GrownUploadOnlyFills(t: Tables, u: Tables, up: Id)
    requires Good(t) && Good(u) && Grows(t, u) && up in t.uploads
    ensures MissingPositions(u, up) <= MissingPositions(t, up)
    ensures forall i :: DigestAt(t, up, i).Some? ==> DigestAt(u, up, i) == DigestAt(t, up, i)
  {
    hide Good, DigestAt, Grows;
    ChunksAreFixed(t, u, up);
    forall i | i in MissingPositions(u, up) ensures i in MissingPositions(t, up) {
      var c :| c in ChunksOf(u, up) && u.chunks[c].seqNo == i && !u.chunks[c].state.ConfirmedChunk?;
      assert c in ChunksOf(t, up);
      GrownChunk(t, u, c);
    }
    forall i | DigestAt(t, up, i).Some? ensures DigestAt(u, up, i) == DigestAt(t, up, i) {
      DigestHasChunk(t, up, i);
      var c := ChunkAt(t, up, i).value;
      GrownChunk(t, u, c);
      ChunkAtIs(t, up, i, c);
      ChunkAtIs(u, up, i, c);
    }
  }

  lemma DigestHasChunk(t: Tables, up: Id, i: nat)
    requires DigestAt(t, up, i).Some?
    ensures ChunkAt(t, up, i).Some? && ChunkAt(t, up, i).value in PiecesAt(t, up, i)
  {
  }

  /** However long a client stays away, positions that were confirmed stay confirmed and digests that were fixed stay
      fixed. */
  lemma UploadOnlyFills(cfg: Config, s: State, steps: seq<Step>, u: State, up: Id)
    requires cfg.Valid() && Reachable(cfg, s) && Run(cfg, s, steps) == Some(u) && up in s.db.uploads
    ensures MissingPositions(u.db, up) <= MissingPositions(s.db, up)
    ensures forall i :: DigestAt(s.db, up, i).Some? ==> DigestAt(u.db, up, i) == DigestAt(s.db, up, i)
  {
    hide Inv, Good, Run, Grows, DigestAt, MissingPositions;
    ReachableHolds(cfg, s);
    RunGrows(cfg, s, steps, u);
    RunKeeps(cfg, s, steps, u);
    InvGood(cfg, s);
    InvGood(cfg, u);
    GrownUploadOnlyFills(s.db, u.db, up);
  }

  /** A position whose chunk is confirmed is not missing. */
  lemma ConfirmedIsNotMissing(t: Tables, up: Id, i: nat, c: Id)
    requires Good(t) && c in PiecesAt(t, up, i) && t.chunks[c].state.ConfirmedChunk?
    ensures i !in MissingPositions(t, up)
  {
    hide Good;
    if i in MissingPositions(t, up) {
      var d :| d in PiecesAt(t, up, i) && !t.chunks[d].state.ConfirmedChunk?;
      ChunkAtIs(t, up, i, c);
      ChunkAtIs(t, up, i, d);
    }
  }

  lemma PrepareFixesPiece(t: Tables, cfg: Config, now: Time, up: Id, owner: Id, i: nat, digest: Digest,
                          out: (Tables, Id, seq<Ticket>))
    requires Prepare(t, cfg, now, up, owner, i, digest) == Ok(out)
    ensures out.1 in PiecesAt(out.0, up, i) && out.0.chunks[out.1].digest == Some(digest)
  {
    hide Positions;
  }

  lemma PieceStays(t: Tables, u: Tables, up: Id, i: nat, c: Id)
    requires Grows(t, u) && c in PiecesAt(t, up, i)
    ensures c in PiecesAt(u, up, i) && ChunkEdge(t.chunks[c], u.chunks[c])
  {
  }

  lemma CommitConfirms(t: Tables, cfg: Config, now: Time, snap: ConfirmSnap, u: Tables)
    requires ConfirmCommit(t, cfg, now, snap) == Ok(u) && snap.chunk in t.chunks
    ensures snap.chunk in u.chunks && u.chunks[snap.chunk].state.ConfirmedChunk?
  {
    hide Positions;
  }

  /** One piece sent: once its prepare request was served and, any time later, a confirmation of its chunk was
      committed, the position is not missing and has the digest that was prepared. */
  lemma SentIsConfirmed(cfg: Config, s: State, up: Id, owner: Id, i: nat, digest: Digest, a: State, steps: seq<Step>,
                        b: State,
                        snap: ConfirmSnap, u: State)
    requires cfg.Valid() && Reachable(cfg, s) && Next(cfg, s, OnPrepare(up, owner, i, digest)) == Some(a)
    requires Run(cfg, a, steps) == Some(b) && Next(cfg, b, OnConfirmCommit(snap)) == Some(u)
    requires snap.chunk in PiecesAt(b.db, up, i)
    ensures i !in MissingPositions(u.db, up) && DigestAt(u.db, up, i) == Some(digest)
  {
    hide Inv, Good, Run, Grows, RowMoves, SameFleet, DigestAt, MissingPositions, Prepare, ConfirmCommit, PiecesAt;
    ReachableHolds(cfg, s);
    StepKeeps(cfg, s, OnPrepare(up, owner, i, digest), a);
    RunKeeps(cfg, a, steps, b);
    RunGrows(cfg, a, steps, b);
    StepKeeps(cfg, b, OnConfirmCommit(snap), u);
    InvGood(cfg, b);
    InvGood(cfg, u);
    var out := Prepare(s.db, cfg, s.now, up, owner, i, digest).value;
    PrepareFixesPiece(s.db, cfg, s.now, up, owner, i, digest, out);
    var c := out.1;
    PieceStays(a.db, b.db, up, i, c);
    ChunkAtIs(b.db, up, i, c);
    ChunkAtIs(b.db, up, i, snap.chunk);
    PieceStays(b.db, u.db, up, i, c);
    ChunkAtIs(u.db, up, i, c);
    PieceIsChunk(b.db, up, i, c);
    CommitConfirms(b.db, cfg, b.now, snap, u.db);
    ConfirmedIsNotMissing(u.db, up, i, c);
  }

  lemma PieceIsChunk(t: Tables, up: Id, i: nat, c: Id)
    requires c in PiecesAt(t, up, i)
    ensures c in t.chunks
  {
  }

  /** A piece is refused for its content exactly if the position already has another digest. */
  lemma ConflictIsOtherDigest(t: Tables, cfg: Config, now: Time, up: Id, owner: Id, i: nat, digest: Digest)
    requires Good(t)
    ensures Prepare(t, cfg, now, up, owner, i, digest) == Fail(ChecksumConflict) <==>
              && ActiveUpload(t, now, up, Some(owner), true).Ok?
              && DigestAt(t, up, i).Some? && DigestAt(t, up, i).value != digest
  {
    hide Good, Positions, ActiveUpload;
    WritingNeedsAnOpenUpload(t, now, up, owner);
    if ChunkAt(t, up, i).Some? {
      var c := ChunkAt(t, up, i).value;
      var t1 := t.(chunks := t.chunks[c := t.chunks[c].(digest := Some(digest))]);
      TicketsOrUnavailable(t1, cfg, now, up, c, t.chunks[c].length, digest);
    }
  }

  /** To write, an upload must be visible to its owner, open and not overdue; its object then is staging. */
  lemma WritingNeedsAnOpenUpload(t: Tables, now: Time, up: Id, owner: Id)
    requires Good(t)
    ensures var seen := ActiveUpload(t, now, up, Some(owner), false);
            && (seen.Fail? ==> seen.code != ChecksumConflict)
            && (ActiveUpload(t, now, up, Some(owner), true).Ok? <==>
                  seen.Ok? && seen.value.state.Uploading? && now < seen.value.expires)
  {
    hide Good;
    OneUploadEach(t);
  }

  lemma TicketsOrUnavailable(t: Tables, cfg: Config, now: Time, up: Id, c: Id, length: nat, digest: Digest)
    ensures Positions(t, cfg, now, up, c, length, digest).Fail? ==>
              Positions(t, cfg, now, up, c, length, digest).code == NodeUnavailable
  {
  }
}
