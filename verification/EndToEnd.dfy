/** From the first authorization of a chunk to its last download: one digest per chunk, fixed once; and an object
    that is published and read back is the file that was uploaded. This holds of every run of the service, whatever
    its nodes do. */
module EndToEnd {
  import opened Octets
  import opened Schema
  import opened Transactions
  import opened Accounting
  import opened Invariants
  import opened Preservation
  import opened Lifecycle
  import opened Moves
  import opened Protocol
  import opened Runs
  import opened Safety
  import opened Confirmations
  import opened Publication
  import opened Resuming
  import Transfer

  // ---------------------------------------------------------------- where digests come from

  /** A step that gives a chunk its digest is a served prepare request for the chunk's upload and position. */
  lemma StepGivesDigest(cfg: Config, s: State, step: Step, u: State, c: Id, digest: Digest)
    requires cfg.Valid() && Inv(cfg, s) && Next(cfg, s, step) == Some(u) && FixedTo(u.db, c, digest)
    requires !FixedTo(s.db, c, digest)
    ensures step.OnPrepare? && step.up == u.db.chunks[c].upload && step.seqNo == u.db.chunks[c].seqNo
    ensures step.digest == digest
  {
    hide Inv, Next, SameChunks, Prepare, ConfirmCommit, InitStep;
    if !Writes(step) || step.OnComplete? {
      ChunksStay(cfg, s, step, u);
    } else if step.OnInit? {
      NewChunksAreBlank(cfg, s, step, u);
    } else if step.OnConfirmCommit? {
      ConfirmGivesNoDigest(cfg, s, step, u);
    } else {
      PrepareGivesDigest(cfg, s, step, u, c, digest);
    }
  }

  lemma ChunksStay(cfg: Config, s: State, step: Step, u: State)
    requires cfg.Valid() && Next(cfg, s, step) == Some(u) && (!Writes(step) || step.OnComplete?)
    ensures u.db.chunks == s.db.chunks
  {
    if step.OnComplete? {
      hide PieceReady;
    } else {
      StepChunks(cfg, s, step, u);
    }
  }

  lemma NewChunksAreBlank(cfg: Config, s: State, step: Step, u: State)
    requires cfg.Valid() && step.OnInit? && Next(cfg, s, step) == Some(u)
    ensures AddsPending(s.db, u.db, step.up)
  {
    hide Init;
    InitPending(s.db, cfg, s.now, step.owner, step.size, step.oid, step.up, step.cids, step.orders, u.db);
  }

  lemma ConfirmGivesNoDigest(cfg: Config, s: State, step: Step, u: State)
    requires cfg.Valid() && Inv(cfg, s) && step.OnConfirmCommit? && Next(cfg, s, step) == Some(u)
    ensures forall c :: c in u.db.chunks ==> c in s.db.chunks && u.db.chunks[c].digest == s.db.chunks[c].digest
  {
    hide Inv, ConfirmCommit, Linked;
    InvSnaps(cfg, s);
    assert ConfirmSnapFits(s.db, step.confirm);
    LinkedChunk(s.db, step.confirm.chunk);
    ConfirmWrites(s.db, cfg, s.now, step.confirm, u.db);
  }

  lemma PrepareGivesDigest(cfg: Config, s: State, step: Step, u: State, c: Id, digest: Digest)
    requires cfg.Valid() && step.OnPrepare? && Next(cfg, s, step) == Some(u) && FixedTo(u.db, c, digest)
    requires !FixedTo(s.db, c, digest)
    ensures step.up == u.db.chunks[c].upload && step.seqNo == u.db.chunks[c].seqNo && step.digest == digest
  {
    hide Prepare;
    var out := Prepare(s.db, cfg, s.now, step.up, step.owner, step.seqNo, step.digest).value;
    PrepareWrites(s.db, cfg, s.now, step.up, step.owner, step.seqNo, step.digest, out);
    PrepareChoosesPiece(s.db, cfg, s.now, step.up, step.owner, step.seqNo, step.digest, out);
  }

  lemma PrepareChoosesPiece(t: Tables, cfg: Config, now: Time, up: Id, owner: Id, seqNo: nat, digest: Digest,
                            out: (Tables, Id, seq<Ticket>))
    requires Prepare(t, cfg, now, up, owner, seqNo, digest) == Ok(out)
    ensures out.1 in PiecesAt(t, up, seqNo)
  {
    hide Positions;
  }

  /** A prepare request of a run, which was served as the run went on. */
  predicate ServedPrepare(step: Step, up: Id, seqNo: nat, digest: Digest) {
    step.OnPrepare? && step.up == up && step.seqNo == seqNo && step.digest == digest
  }

  /** Every digest goes back to a served prepare request with this digest, for this position of this upload. */
  lemma {:induction false} DigestHasOrigin(cfg: Config, s: State, steps: seq<Step>, u: State, c: Id, digest: Digest)
    returns (i: nat)
    requires cfg.Valid() && Inv(cfg, s) && Run(cfg, s, steps) == Some(u)
    requires FixedTo(u.db, c, digest) && !FixedTo(s.db, c, digest)
    ensures i < |steps| && ServedPrepare(steps[i], u.db.chunks[c].upload, u.db.chunks[c].seqNo, digest)
    decreases |steps|
  {
    hide Inv, Next, Grows, RowMoves, SameFleet;
    if steps == [] {
      assert false;
    } else {
      var after := Next(cfg, s, steps[0]).value;
      StepKeeps(cfg, s, steps[0], after);
      if FixedTo(after.db, c, digest) {
        StepGivesDigest(cfg, s, steps[0], after, c, digest);
        RunGrows(cfg, after, steps[1..], u);
        PlaceStays(after.db, u.db, c);
        i := 0;
      } else {
        var j := DigestHasOrigin(cfg, after, steps[1..], u, c, digest);
        i := j + 1;
      }
    }
  }

  lemma PlaceStays(t: Tables, u: Tables, c: Id)
    requires Grows(t, u) && c in t.chunks
    ensures c in u.chunks && u.chunks[c].upload == t.chunks[c].upload && u.chunks[c].seqNo == t.chunks[c].seqNo
    ensures u.chunks[c].length == t.chunks[c].length
    ensures t.chunks[c].digest.Some? ==> u.chunks[c].digest == t.chunks[c].digest
  {
  }

  /** A served prepare request has fixed the chunk at its position for good. */
  lemma {:induction false} PrepareLasts(cfg: Config, s: State, steps: seq<Step>, u: State, j: nat, up: Id, i: nat,
                                        digest: Digest)
    returns (c: Id)
    requires cfg.Valid() && Inv(cfg, s) && Run(cfg, s, steps) == Some(u)
    requires j < |steps| && ServedPrepare(steps[j], up, i, digest)
    ensures c in PiecesAt(u.db, up, i) && FixedTo(u.db, c, digest)
    decreases |steps|
  {
    hide Inv, Next, Grows, RowMoves, SameFleet;
    var after := Next(cfg, s, steps[0]).value;
    StepKeeps(cfg, s, steps[0], after);
    if j == 0 {
      c := ServedFixes(cfg, s, steps[0], after, up, i, digest);
      RunGrows(cfg, after, steps[1..], u);
      PlaceStays(after.db, u.db, c);
    } else {
      c := PrepareLasts(cfg, after, steps[1..], u, j - 1, up, i, digest);
    }
  }

  lemma ServedFixes(cfg: Config, s: State, step: Step, after: State, up: Id, i: nat, digest: Digest) returns (c: Id)
    requires cfg.Valid() && Next(cfg, s, step) == Some(after) && ServedPrepare(step, up, i, digest)
    ensures c in PiecesAt(after.db, up, i) && FixedTo(after.db, c, digest)
  {
    hide Prepare;
    var out := Prepare(s.db, cfg, s.now, up, step.owner, i, digest).value;
    PrepareWrites(s.db, cfg, s.now, up, step.owner, i, digest, out);
    PrepareChoosesPiece(s.db, cfg, s.now, up, step.owner, i, digest, out);
    c := out.1;
  }

  /** A piece of an open upload is refused for its content exactly if some earlier request, served at any time before,
      prepared other content for the position. */
  lemma RefusedExactlyForOtherContent(cfg: Config, steps: seq<Step>, s: State, up: Id, owner: Id, i: nat,
                                      digest: Digest)
    requires cfg.Valid() && Run(cfg, START, steps) == Some(s) && ActiveUpload(s.db, s.now, up, Some(owner), true).Ok?
    ensures Prepare(s.db, cfg, s.now, up, owner, i, digest) == Fail(ChecksumConflict) <==>
              exists j, other :: 0 <= j < |steps| && ServedPrepare(steps[j], up, i, other) && other != digest
  {
    hide Inv, Good, Run, Prepare, ActiveUpload, PiecesAt;
    StartHolds(cfg);
    RunKeeps(cfg, START, steps, s);
    InvGood(cfg, s);
    ConflictIsOtherDigest(s.db, cfg, s.now, up, owner, i, digest);
    if j, other :| 0 <= j < |steps| && ServedPrepare(steps[j], up, i, other) && other != digest {
      var c := PrepareLasts(cfg, START, steps, s, j, up, i, other);
      ChunkAtIs(s.db, up, i, c);
    }
    if DigestAt(s.db, up, i).Some? {
      DigestHasChunk(s.db, up, i);
      var c := ChunkAt(s.db, up, i).value;
      PieceHasPlace(s.db, up, i, c);
      var j := DigestHasOrigin(cfg, START, steps, s, c, DigestAt(s.db, up, i).value);
      assert ServedPrepare(steps[j], up, i, DigestAt(s.db, up, i).value);
    }
  }

  lemma PieceHasPlace(t: Tables, up: Id, i: nat, c: Id)
    requires c in PiecesAt(t, up, i)
    ensures c in t.chunks && t.chunks[c].upload == up && t.chunks[c].seqNo == i
  {
  }

  // ---------------------------------------------------------------- what is published is what was sent

  function DigestOfPiece(t: Tables, up: Id, file: Bytes, i: nat): Digest
    requires up in t.uploads && t.uploads[up].oid in t.objects
  {
    Sha(Transfer.Piece(file, ChunkSizeOf(t, up), i))
  }

  /** Every chunk of the upload has the digest of the piece of the file at its position. */
  ghost predicate MadeOf(t: Tables, up: Id, file: Bytes)
    requires up in t.uploads && t.uploads[up].oid in t.objects
  {
    forall c :: c in ChunksOf(t, up) ==> FixedTo(t, c, DigestOfPiece(t, up, file, t.chunks[c].seqNo))
  }

  lemma OneChunkPerPosition(t: Tables, c: Id, d: Id)
    requires Good(t) && c in t.chunks && d in t.chunks
    requires t.chunks[c].upload == t.chunks[d].upload && t.chunks[c].seqNo == t.chunks[d].seqNo
    ensures c == d
  {
    hide Pieces, Pairs, Rows, Tasks, Counts, Balanced;
  }

  /** Whoever else prepared something: if at some time each piece of the file was prepared at its position, the upload
      consists of the file. */
  lemma PreparedIsMadeOf(cfg: Config, steps: seq<Step>, s: State, up: Id, file: Bytes)
    requires cfg.Valid() && Run(cfg, START, steps) == Some(s)
    requires up in s.db.uploads && s.db.uploads[up].oid in s.db.objects
    requires forall c :: c in ChunksOf(s.db, up) ==>
               exists j :: 0 <= j < |steps|
                 && ServedPrepare(steps[j], up, s.db.chunks[c].seqNo,
                                  DigestOfPiece(s.db, up, file, s.db.chunks[c].seqNo))
    ensures MadeOf(s.db, up, file)
  {
    hide Inv, Good, Run, Transfer.Piece, ServedPrepare;
    StartHolds(cfg);
    RunKeeps(cfg, START, steps, s);
    InvGood(cfg, s);
    forall c | c in ChunksOf(s.db, up) ensures FixedTo(s.db, c, DigestOfPiece(s.db, up, file, s.db.chunks[c].seqNo)) {
      var i := s.db.chunks[c].seqNo;
      var j :| 0 <= j < |steps| && ServedPrepare(steps[j], up, i, DigestOfPiece(s.db, up, file, i));
      var d := PrepareLasts(cfg, START, steps, s, j, up, i, DigestOfPiece(s.db, up, file, i));
      OneChunkPerPosition(s.db, c, d);
    }
  }

  /** Whatever was prepared for the upload was a piece of the file, at its position. */
  ghost predicate OnlyPrepared(steps: seq<Step>, t: Tables, up: Id, file: Bytes)
    requires up in t.uploads && t.uploads[up].oid in t.objects
  {
    forall j, i: nat, digest | 0 <= j < |steps|
        && ServedPrepare(steps[j], up, i, digest) :: digest == DigestOfPiece(t, up, file, i)
  }

  /** A published upload consists of the file if and only if nothing but the file's pieces was ever prepared for it:
      no piece can be missing, and no other content can have come in between. */
  lemma PublishedIsMadeOf(cfg: Config, steps: seq<Step>, s: State, up: Id, file: Bytes)
    requires cfg.Valid() && Run(cfg, START, steps) == Some(s)
    requires up in s.db.uploads && s.db.uploads[up].oid in s.db.objects
    requires s.db.objects[s.db.uploads[up].oid].phase.Published?
    ensures MadeOf(s.db, up, file) <==> OnlyPrepared(steps, s.db, up, file)
  {
    hide Inv, Good, Run, Transfer.Piece, ServedPrepare, PiecesAt;
    StartHolds(cfg);
    RunKeeps(cfg, START, steps, s);
    InvGood(cfg, s);
    if OnlyPrepared(steps, s.db, up, file) {
      forall c | c in ChunksOf(s.db, up) ensures FixedTo(s.db, c, DigestOfPiece(s.db, up, file, s.db.chunks[c].seqNo)) {
        PublishedIsConfirmed(cfg, s, c);
        var digest := s.db.chunks[c].digest.value;
        var j := DigestHasOrigin(cfg, START, steps, s, c, digest);
        assert ServedPrepare(steps[j], up, s.db.chunks[c].seqNo, digest);
      }
    }
    if MadeOf(s.db, up, file) {
      forall j, i: nat, digest | 0 <= j < |steps| && ServedPrepare(steps[j], up, i, digest)
        ensures digest == DigestOfPiece(s.db, up, file, i)
      {
        var c := PrepareLasts(cfg, START, steps, s, j, up, i, digest);
        PieceHasPlace(s.db, up, i, c);
        assert c in ChunksOf(s.db, up);
      }
    }
  }

  // ---------------------------------------------------------------- reading back

  /** How many positions the manifest tells a reader to ask for. */
  function ManifestCount(t: Tables, up: Id): nat
    requires up in t.uploads && t.uploads[up].oid in t.objects
  {
    if ChunkSizeOf(t, up) == 0 then 0 else PieceCount(SizeOf(t, up), ChunkSizeOf(t, up))
  }

  /** What the service answers a reader about one position, of which the reply carries length and digest. */
  ghost predicate Located(t: Tables, oid: Id, i: nat, reply: Transfer.Reply) {
    exists c :: && PhaseOf(t, c) == Some(Published) && ObjectIdOf(t, c) == oid && t.chunks[c].seqNo == i
                && reply.length == t.chunks[c].length && t.chunks[c].digest == Some(reply.digest)
  }

  lemma UploadStays(t: Tables, u: Tables, up: Id)
    requires Grows(t, u) && up in t.uploads
    ensures up in u.uploads && u.uploads[up].oid == t.uploads[up].oid
  {
  }

  /** The chunk at a position, as it is when the upload is looked at. */
  lemma PieceThere(t: Tables, up: Id, i: nat) returns (d: Id)
    requires Good(t) && up in t.uploads && t.uploads[up].oid in t.objects
    requires i < PieceCount(SizeOf(t, up), ChunkSizeOf(t, up))
    ensures d in t.chunks && t.chunks[d].upload == up && t.chunks[d].seqNo == i
    ensures t.chunks[d].length == PieceLength(SizeOf(t, up), ChunkSizeOf(t, up), i)
  {
    GoodIsCut(t, up);
    d :| d in PiecesAt(t, up, i);
  }

  lemma LocatedIsThePiece(cfg: Config, s: State, more: seq<Step>, u: State, up: Id, file: Bytes, i: nat,
                          reply: Transfer.Reply)
    requires cfg.Valid() && Inv(cfg, s) && Run(cfg, s, more) == Some(u)
    requires up in s.db.uploads && s.db.uploads[up].oid in s.db.objects && MadeOf(s.db, up, file)
    requires i < PieceCount(SizeOf(s.db, up), ChunkSizeOf(s.db, up)) && Located(u.db, s.db.uploads[up].oid, i, reply)
    ensures reply.digest == DigestOfPiece(s.db, up, file, i)
    ensures reply.length == PieceLength(SizeOf(s.db, up), ChunkSizeOf(s.db, up), i)
  {
    hide Inv, Run, Transfer.Piece, Good, Grows, PieceCount, Located, PhaseOf;
    RunKeeps(cfg, s, more, u);
    RunGrows(cfg, s, more, u);
    InvGood(cfg, s);
    InvGood(cfg, u);
    var d := PieceThere(s.db, up, i);
    assert d in ChunksOf(s.db, up);
    PlaceStays(s.db, u.db, d);
    UploadStays(s.db, u.db, up);
    var c := LocatedChunk(u.db, up, s.db.uploads[up].oid, i, reply);
    OneChunkPerPosition(u.db, c, d);
  }

  lemma LocatedChunk(t: Tables, up: Id, oid: Id, i: nat, reply: Transfer.Reply) returns (c: Id)
    requires Good(t) && up in t.uploads && t.uploads[up].oid == oid && Located(t, oid, i, reply)
    ensures c in t.chunks && t.chunks[c].upload == up && t.chunks[c].seqNo == i
    ensures reply.length == t.chunks[c].length && t.chunks[c].digest == Some(reply.digest)
  {
    OneUploadEach(t);
    hide Good;
    c :| && PhaseOf(t, c) == Some(Published) && ObjectIdOf(t, c) == oid && t.chunks[c].seqNo == i
         && reply.length == t.chunks[c].length && t.chunks[c].digest == Some(reply.digest);
  }

  /** The replies to a reader who asks for each position at a moment of its own, any time later and whatever happens in
      between: each carries the length and the digest the service answers with, and any bytes. */
  ghost predicate Answers(cfg: Config, s: State, up: Id, later: seq<seq<Step>>, replies: seq<Transfer.Reply>)
    requires cfg.Valid() && up in s.db.uploads && s.db.uploads[up].oid in s.db.objects
  {
    && |replies| == |later| == ManifestCount(s.db, up)
    && forall i :: 0 <= i < |replies| ==>
         Run(cfg, s, later[i]).Some? && Located(Run(cfg, s, later[i]).value.db, s.db.uploads[up].oid, i, replies[i])
  }

  /** All replies pass the client's checks. */
  predicate Accepted(replies: seq<Transfer.Reply>, size: nat, chunk: nat) {
    forall i: nat :: i < |replies| ==> Transfer.Checks(replies[i], size, chunk, i)
  }

  /** Reading back an upload that consists of a file: a download that passes the client's checks is the file, whatever
      bytes the replicas sent; and if they sent the pieces, it passes. */
  lemma ReadsBack(cfg: Config, s: State, up: Id, file: Bytes, later: seq<seq<Step>>, replies: seq<Transfer.Reply>)
    requires cfg.Valid() && Inv(cfg, s) && up in s.db.uploads && s.db.uploads[up].oid in s.db.objects
    requires MadeOf(s.db, up, file) && |file| == SizeOf(s.db, up) && Answers(cfg, s, up, later, replies)
    ensures Accepted(replies, |file|, ChunkSizeOf(s.db, up)) ==> Transfer.AllData(replies) == file
    ensures (forall i: nat :: i < |replies| ==> replies[i].data == Transfer.Piece(file, ChunkSizeOf(s.db, up), i))
            ==> Accepted(replies, |file|, ChunkSizeOf(s.db, up)) && Transfer.TotalLength(replies) == |file|
  {
    hide Inv, Run, Transfer.Piece, PieceCount, PieceLength, Located, MadeOf, Good;
    InvGood(cfg, s);
    PiecesPartitionTheObject(s.db, up);
    var chunk := ChunkSizeOf(s.db, up);
    forall i: nat | i < |replies|
      ensures replies[i].digest == Sha(Transfer.Piece(file, chunk, i))
      ensures replies[i].length == PieceLength(|file|, chunk, i)
    {
      LocatedIsThePiece(cfg, s, later[i], Run(cfg, s, later[i]).value, up, file, i, replies[i]);
    }
    Transfer.DownloadedIsUploaded(file, chunk, replies);
  }

  /** From upload to download. A file is sent piece by piece for an upload, and nothing else is prepared for it; its
      object is published. Whenever it is then read, position by position, a download that passes the client's checks
      yields exactly the file, and honest replicas do pass. */
  lemma ReadBackIsTheFile(cfg: Config, steps: seq<Step>, s: State, up: Id, file: Bytes,
                          later: seq<seq<Step>>, replies: seq<Transfer.Reply>)
    requires cfg.Valid() && Run(cfg, START, steps) == Some(s)
    requires up in s.db.uploads && s.db.uploads[up].oid in s.db.objects
    requires s.db.objects[s.db.uploads[up].oid].phase.Published?
    requires |file| == SizeOf(s.db, up) && OnlyPrepared(steps, s.db, up, file) && Answers(cfg, s, up, later, replies)
    ensures Accepted(replies, |file|, ChunkSizeOf(s.db, up)) ==> Transfer.AllData(replies) == file
    ensures (forall i: nat :: i < |replies| ==> replies[i].data == Transfer.Piece(file, ChunkSizeOf(s.db, up), i))
            ==> Accepted(replies, |file|, ChunkSizeOf(s.db, up)) && Transfer.TotalLength(replies) == |file|
  {
    hide Inv, Run, Transfer.Piece, MadeOf, OnlyPrepared, Answers, Accepted;
    StartHolds(cfg);
    RunKeeps(cfg, START, steps, s);
    PublishedIsMadeOf(cfg, steps, s, up, file);
    ReadsBack(cfg, s, up, file, later, replies);
  }
}
