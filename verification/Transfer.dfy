/** Files in pieces: what a client sends, what a gateway relays, what a client puts together again. */
module Transfer {
  import opened Octets
  import opened Schema

  // ---------------------------------------------------------------- pieces of a file

  /** The slice a client reads for one position. */
  function Piece(file: Bytes, chunk: nat, i: nat): Bytes {
    var start := if i * chunk < |file| then i * chunk else |file|;
    var end := if start + chunk < |file| then start + chunk else |file|;
    file[start..end]
  }

  function FirstPieces(file: Bytes, chunk: nat, n: nat): Bytes {
    if n == 0 then [] else FirstPieces(file, chunk, n - 1) + Piece(file, chunk, n - 1)
  }

  /** What lies before a position of the file. */
  function Before(file: Bytes, end: nat): Bytes {
    file[..if end < |file| then end else |file|]
  }

  lemma OnePieceMore(file: Bytes, chunk: nat, i: nat)
    ensures Before(file, i * chunk) + Piece(file, chunk, i) == Before(file, i * chunk + chunk)
  {
  }

  lemma NextStart(chunk: nat, n: nat)
    requires n > 0
    ensures n * chunk == (n - 1) * chunk + chunk
  {
  }

  lemma {:induction false} FirstPiecesAre(file: Bytes, chunk: nat, n: nat)
    requires chunk > 0
    ensures FirstPieces(file, chunk, n) == Before(file, n * chunk)
  {
    hide Before, Piece;
    if n == 0 {
      NothingBefore(file, 0 * chunk);
    } else {
      FirstPiecesAre(file, chunk, n - 1);
      OnePieceMore(file, chunk, n - 1);
      NextStart(chunk, n);
    }
  }

  lemma NothingBefore(file: Bytes, end: nat)
    requires end == 0
    ensures Before(file, end) == []
  {
  }

  lemma LastPieceEnds(size: nat, chunk: nat)
    requires chunk > 0
    ensures size <= PieceCount(size, chunk) * chunk
    ensures forall i: nat :: i < PieceCount(size, chunk) ==> i * chunk < size
  {
    forall i: nat | i < PieceCount(size, chunk) ensures i * chunk < size {
      assert i * chunk <= (PieceCount(size, chunk) - 1) * chunk;
    }
  }

  /** The pieces of a file, in order, are the file, and have the lengths the service expects. */
  lemma PiecesAreTheFile(file: Bytes, chunk: nat)
    requires chunk > 0
    ensures FirstPieces(file, chunk, PieceCount(|file|, chunk)) == file
    ensures forall i: nat :: i < PieceCount(|file|, chunk) ==>
                  |Piece(file, chunk, i)| == PieceLength(|file|, chunk, i) > 0
  {
    var n := PieceCount(|file|, chunk);
    LastPieceEnds(|file|, chunk);
    FirstPiecesAre(file, chunk, n);
    hide PieceCount, FirstPieces;
    assert file[..|file|] == file;
    forall i: nat | i < n ensures |Piece(file, chunk, i)| == PieceLength(|file|, chunk, i) > 0 {
      LengthOfPiece(file, chunk, i);
    }
  }

  lemma LengthOfPiece(file: Bytes, chunk: nat, i: nat)
    requires chunk > 0 && i * chunk < |file|
    ensures |Piece(file, chunk, i)| == PieceLength(|file|, chunk, i) > 0
  {
  }

  // ---------------------------------------------------------------- the client's loops

  /** An upload as the service keeps it: positions still to be confirmed, and the digests fixed so far. Other clients
      may confirm positions at any time. That the service keeps these promises is shown in module Resuming. */
  class Upload {
    var missing: set<nat>
    var digests: map<nat, Digest>

    constructor (missing: set<nat>)
      ensures this.missing == missing && digests == map[]
    {
      this.missing, digests := missing, map[];
    }

    method Elapse()
      modifies this
      ensures missing <= old(missing)
      ensures forall i :: i in old(digests) ==> i in digests && digests[i] == old(digests)[i]
    {
      var confirmed: set<nat> :| confirmed <= missing;
      var digest: Digest :| true;
      var i: nat :| true;
      missing := missing - confirmed;
      if i !in digests {
        digests := digests[i := digest];
      }
    }

    method Status(cursor: nat) returns (page: seq<nat>, next: Option<nat>)
      modifies this
      ensures missing <= old(missing) && (page, next) == Page(missing, cursor)
      ensures forall i :: i in old(digests) ==> i in digests && digests[i] == old(digests)[i]
    {
      Elapse();
      var answer := Page(missing, cursor);
      page, next := answer.0, answer.1;
    }

    /** Prepare, put to every node, confirm; `works` tells whether the nodes and the service cooperate. */
    method Send(seqNo: nat, data: Bytes, works: bool) returns (ok: bool)
      modifies this
      ensures missing <= old(missing) && (ok ==> seqNo !in missing && seqNo in digests && digests[seqNo] == Sha(data))
      ensures works && !ok ==> seqNo in digests && digests[seqNo] != Sha(data)
      ensures forall i :: i in old(digests) ==> i in digests && digests[i] == old(digests)[i]
    {
      Elapse();
      if !works || (seqNo in digests && digests[seqNo] != Sha(data)) {
        return false;
      }
      digests := digests[seqNo := Sha(data)];
      missing := missing - {seqNo};
      ok := true;
    }
  }

  /** Position `i` has the digest of its piece. */
  predicate Fixed(digests: map<nat, Digest>, file: Bytes, chunk: nat, i: nat) {
    i in digests && digests[i] == Sha(Piece(file, chunk, i))
  }

  /** Position `i` has some other digest. */
  predicate Taken(digests: map<nat, Digest>, file: Bytes, chunk: nat, i: nat) {
    i in digests && digests[i] != Sha(Piece(file, chunk, i))
  }

  /** Send every position of one page. */
  method SendPage(upload: Upload, file: Bytes, chunk: nat, page: seq<nat>, works: nat -> bool) returns (ok: bool)
    modifies upload
    ensures upload.missing <= old(upload.missing)
    ensures forall i :: i in old(upload.digests) ==> i in upload.digests && upload.digests[i] == old(upload.digests)[i]
    ensures ok ==> forall i :: i in page ==> i !in upload.missing && Fixed(upload.digests, file, chunk, i)
    ensures !ok ==> exists i :: i in page && (!works(i) || Taken(upload.digests, file, chunk, i))
  {
    hide Piece;
    for j := 0 to |page|
      invariant upload.missing <= old(upload.missing)
      invariant forall i :: i in old(upload.digests) ==>
                    i in upload.digests && upload.digests[i] == old(upload.digests)[i]
      invariant forall k :: 0 <= k < j ==> page[k] !in upload.missing && Fixed(upload.digests, file, chunk, page[k])
    {
      var done := upload.Send(page[j], Piece(file, chunk, page[j]), works(page[j]));
      if !done {
        assert page[j] in page;
        return false;
      }
    }
    ok := true;
  }

  /** The resumable upload loop: page by page, send what is missing. It ends with nothing missing and every sent
      position fixed to its piece, or at a position that could not be sent or belongs to other content. */
  method SendAll(upload: Upload, file: Bytes, chunk: nat, count: nat, works: nat -> bool)
    returns (ok: bool, sent: set<nat>)
    requires forall i :: i in upload.missing ==> i < count
    modifies upload
    ensures ok ==> upload.missing == {} && forall i :: i in sent ==> Fixed(upload.digests, file, chunk, i)
    ensures !ok ==> exists i: nat :: i < count && (!works(i) || Taken(upload.digests, file, chunk, i))
  {
    hide Piece, Page;
    var cursor := 0;
    sent := {};
    while true
      invariant upload.missing <= old(upload.missing) && cursor <= count
      invariant forall i :: i in upload.missing ==> cursor <= i < count
      invariant forall i :: i in sent ==> Fixed(upload.digests, file, chunk, i)
      decreases count - cursor
    {
      var page, next := upload.Status(cursor);
      PageIsExact(upload.missing, cursor);
      if next.Some? {
        assert page[|page| - 1] in page;
        NextIsWithin(upload.missing, cursor, count);
      }
      ok := SendPage(upload, file, chunk, page, works);
      if !ok {
        return;
      }
      sent := sent + set i | i in page;
      if next.None? {
        return;
      }
      cursor := next.value;
    }
  }

  lemma NextIsWithin(missing: set<nat>, cursor: nat, count: nat)
    requires forall i :: i in missing ==> i < count
    ensures Page(missing, cursor).1.Some? ==> Page(missing, cursor).1.value <= count
  {
    var all := Sorted(set x | x in missing && cursor <= x);
    if |all| > PAGE {
      assert all[PAGE - 1] in all;
    }
  }

  // ---------------------------------------------------------------- the reconciler's scan

  /** The inventory loop over a directory that changes underneath it: `view(k)` is what the node holds at the k-th
      request. Ids come in increasing order, each was there when asked, and no id that stays is missed. */
  method ScanInventory(view: nat -> set<Id>, bound: Id) returns (ids: seq<Id>, requests: nat)
    requires forall k: nat, x :: x in view(k) ==> x < bound
    ensures Increasing(ids) && (forall x :: x in ids ==> exists k: nat :: k < requests && x in view(k))
    ensures forall x: Id :: (forall k: nat :: k < requests ==> x in view(k)) ==> x in ids
  {
    hide Page;
    ids, requests := [], 0;
    var start := 0;
    while true
      invariant start <= bound && Increasing(ids) && forall x :: x in ids ==> x < start
      invariant forall x :: x in ids ==> exists k: nat :: k < requests && x in view(k)
      invariant forall x: Id :: (forall k: nat :: k < requests ==> x in view(k)) && x < start ==> x in ids
      decreases bound - start
    {
      var answer := Page(view(requests), start);
      var page, next := answer.0, answer.1;
      PageIsExact(view(requests), start);
      NextIsWithin(view(requests), start, bound);
      ghost var before := ids;
      IncreasingOn(ids, page, start);
      ids := ids + page;
      requests := requests + 1;
      if next.None? {
        return;
      }
      start := next.value;
    }
  }

  lemma IncreasingOn(a: seq<nat>, b: seq<nat>, m: nat)
    requires Increasing(a) && Increasing(b) && (forall x :: x in a ==> x < m) && (forall x :: x in b ==> m <= x)
    ensures Increasing(a + b)
  {
    forall i, j | 0 <= i < j < |a + b| ensures (a + b)[i] < (a + b)[j] {
      if i < |a| <= j {
        assert a[i] in a && b[j - |a|] in b;
      }
    }
  }

  // ---------------------------------------------------------------- download

  /** What the gateway answers for one position: the chunk's recorded length and digest, and some bytes. */
  datatype Reply = Reply(length: int, digest: Digest, data: Bytes)

  /** Put the pieces together, checking each one. */
  method Download(size: nat, chunk: nat, count: nat, replies: seq<Reply>) returns (r: Result<Bytes>)
    requires |replies| == count
    ensures r.Ok? <==> TotalLength(replies) == size && forall i: nat :: i < count ==> Checks(replies[i], size, chunk, i)
    ensures r.Ok? ==> r.value == AllData(replies)
    ensures r.Fail? ==> r.code == Corrupt
  {
    var out := [];
    var total := 0;
    for i := 0 to count
      invariant out == AllData(replies[..i]) && total == TotalLength(replies[..i])
      invariant forall j: nat :: j < i ==> Checks(replies[j], size, chunk, j)
    {
      if !Checks(replies[i], size, chunk, i) {
        return Fail(Corrupt);
      }
      assert replies[..i + 1][..i] == replies[..i];
      out := out + replies[i].data;
      total := total + |replies[i].data|;
    }
    assert replies[..count] == replies;
    if total != size {
      return Fail(Corrupt);
    }
    r := Ok(out);
  }

  predicate Checks(reply: Reply, size: nat, chunk: nat, i: nat) {
    |reply.data| == PieceLength(size, chunk, i) && reply.length == PieceLength(size, chunk, i)
        && Sha(reply.data) == reply.digest
  }

  function AllData(replies: seq<Reply>): Bytes {
    if replies == [] then [] else AllData(replies[..|replies| - 1]) + replies[|replies| - 1].data
  }

  function TotalLength(replies: seq<Reply>): int {
    if replies == [] then 0 else TotalLength(replies[..|replies| - 1]) + |replies[|replies| - 1].data|
  }

  lemma {:induction false} RepliesAreTheFile(file: Bytes, chunk: nat, replies: seq<Reply>)
    requires forall i :: 0 <= i < |replies| ==> Sha(replies[i].data) == Sha(Piece(file, chunk, i))
    ensures AllData(replies) == FirstPieces(file, chunk, |replies|)
  {
    if replies != [] {
      RepliesAreTheFile(file, chunk, replies[..|replies| - 1]);
    }
  }

  /** If the service answers with the digests fixed at upload, a download that passes the client's checks is the
      uploaded file, whatever bytes the replicas sent; and honest replicas do pass. */
  lemma DownloadedIsUploaded(file: Bytes, chunk: nat, replies: seq<Reply>)
    requires chunk > 0 && |replies| == PieceCount(|file|, chunk)
    requires forall i: nat :: i < |replies| ==>
                  replies[i].digest == Sha(Piece(file, chunk, i)) && replies[i].length == PieceLength(|file|, chunk, i)
    ensures (forall i: nat :: i < |replies| ==> Checks(replies[i], |file|, chunk, i)) ==> AllData(replies) == file
    ensures (forall i: nat :: i < |replies| ==> replies[i].data == Piece(file, chunk, i))
            ==> (forall i: nat :: i < |replies| ==> Checks(replies[i], |file|, chunk, i))
                && TotalLength(replies) == |file|
  {
    hide Piece, PieceCount;
    PiecesAreTheFile(file, chunk);
    if forall i: nat :: i < |replies| ==> Sha(replies[i].data) == Sha(Piece(file, chunk, i)) {
      RepliesAreTheFile(file, chunk, replies);
      LengthOfData(replies);
    }
  }

  lemma {:induction false} LengthOfData(replies: seq<Reply>)
    ensures |AllData(replies)| == TotalLength(replies)
  {
    if replies != [] {
      LengthOfData(replies[..|replies| - 1]);
    }
  }

  // ---------------------------------------------------------------- the gateway

  datatype Call = Prepare | Put(node: Id) | Confirm

  /** The writes for the first `n` positions. */
  function PutsOf(positions: seq<Ticket>, n: nat): seq<Call>
    requires n <= |positions|
  {
    seq(n, i requires 0 <= i < n => Put(positions[i].node))
  }

  /** Relay one chunk: fix its digest, write every position, confirm. The answers of the other parties are given. */
  method RelayUpload(data: Bytes, digest: Digest, prepared: Result<(nat, seq<Ticket>)>, puts: seq<Result<()>>,
                     confirmed: Result<int>)
      returns (r: Result<int>, calls: seq<Call>)
    requires prepared.Ok? ==> |puts| == |prepared.value.1|
    ensures Sha(data) != digest ==> r == Fail(ChecksumMismatch) && calls == []
    ensures r.Ok? <==>
              Sha(data) == digest && prepared.Ok? && |data| == prepared.value.0 && (forall p :: p in puts ==> p.Ok?)
                  && confirmed.Ok?
    ensures Sha(data) == digest && prepared.Fail? ==> r == Fail(prepared.code) && calls == [Prepare]
    ensures Sha(data) == digest && prepared.Ok? && |data| != prepared.value.0 ==>
              r == Fail(Invalid) && calls == [Prepare]
    ensures Sha(data) == digest && prepared.Ok? && |data| == prepared.value.0 ==>
              if forall p :: p in puts ==> p.Ok?
              then r == confirmed && calls == [Prepare] + PutsOf(prepared.value.1, |puts|) + [Confirm]
              else exists i :: 0 <= i < |puts| && puts[i].Fail? && (forall j :: 0 <= j < i ==> puts[j].Ok?)
                               && r == Fail(puts[i].code) && calls == [Prepare] + PutsOf(prepared.value.1, i + 1)
    ensures Confirm in calls ==>
              && prepared.Ok? && (forall p :: p in puts ==> p.Ok?) && r == confirmed
              && forall p :: p in prepared.value.1 ==> Put(p.node) in calls
  {
    calls := [];
    if Sha(data) != digest {
      return Fail(ChecksumMismatch), calls;
    }
    calls := [Prepare];
    if prepared.Fail? {
      return Fail(prepared.code), calls;
    }
    if |data| != prepared.value.0 {
      return Fail(Invalid), calls;
    }
    var positions := prepared.value.1;
    for i := 0 to |positions|
      invariant calls == [Prepare] + PutsOf(positions, i)
      invariant Confirm !in calls && forall j :: 0 <= j < i ==> puts[j].Ok? && Put(positions[j].node) in calls
    {
      assert PutsOf(positions, i + 1) == PutsOf(positions, i) + [Put(positions[i].node)];
      calls := calls + [Put(positions[i].node)];
      if puts[i].Fail? {
        assert puts[i] in puts;
        return Fail(puts[i].code), calls;
      }
    }
    calls := calls + [Confirm];
    r := confirmed;
  }

  predicate Verified(answer: Result<Bytes>, length: nat, digest: Digest) {
    answer.Ok? && |answer.value| == length && Sha(answer.value) == digest
  }

  /** What a gateway hears while it serves one download: for each replica, its answer, the answer to the manifest
      request that follows a verified one, and the answer to the report that follows any failure. */
  datatype Heard = Heard(answer: Result<Bytes>, manifest: Result<()>, report: Result<()>)

  /** The chunk was read, passed the checks, and its object is still published. */
  predicate Served(heard: Heard, length: nat, digest: Digest) {
    Verified(heard.answer, length, digest) && heard.manifest.Ok?
  }

  /** The handler turned to the replica and its report went through, so the next one is tried. */
  predicate PassedOver(heard: Heard, length: nat, digest: Digest) {
    !Served(heard, length, digest) && heard.report.Ok?
  }

  /** How many replicas are reported: all up to the first that serves or whose report fails. */
  function ReportedCount(heard: seq<Heard>, length: nat, digest: Digest): (n: nat)
    ensures n <= |heard| && (forall j :: 0 <= j < n ==> PassedOver(heard[j], length, digest))
    ensures n < |heard| ==> !PassedOver(heard[n], length, digest)
  {
    if heard == [] || !PassedOver(heard[0], length, digest) then 0 else 1 + ReportedCount(heard[1..], length, digest)
  }

  /** Try the replicas in order until one serves the chunk. Whatever goes wrong with one, be it the read, the check
      or the manifest request, it is reported and the next one is tried; a report that fails ends the download. */
  method RelayDownload(nodes: seq<Id>, length: nat, digest: Digest, heard: seq<Heard>)
      returns (r: Result<Bytes>, reported: seq<Id>)
    requires |heard| == |nodes|
    ensures reported == nodes[..ReportedCount(heard, length, digest)]
    ensures r.Ok? <==> |reported| < |nodes| && Served(heard[|reported|], length, digest)
    ensures r.Ok? ==> r == heard[|reported|].answer && |r.value| == length && Sha(r.value) == digest
    ensures |reported| == |nodes| ==> r == Fail(DataUnavailable)
    ensures r.Fail? && |reported| < |nodes| ==>
              heard[|reported|].report.Fail? && r.code == heard[|reported|].report.code
  {
    reported := [];
    for i := 0 to |nodes|
      invariant reported == nodes[..i] && forall j :: 0 <= j < i ==> PassedOver(heard[j], length, digest)
    {
      if Verified(heard[i].answer, length, digest) && heard[i].manifest.Ok? {
        StopsAt(heard, length, digest, i);
        return heard[i].answer, reported;
      }
      if heard[i].report.Fail? {
        StopsAt(heard, length, digest, i);
        return Fail(heard[i].report.code), reported;
      }
      reported := reported + [nodes[i]];
    }
    StopsAt(heard, length, digest, |nodes|);
    r := Fail(DataUnavailable);
  }

  lemma StopsAt(heard: seq<Heard>, length: nat, digest: Digest, i: nat)
    requires i <= |heard| && forall j :: 0 <= j < i ==> PassedOver(heard[j], length, digest)
    requires i < |heard| ==> !PassedOver(heard[i], length, digest)
    ensures ReportedCount(heard, length, digest) == i
  {
    hide PassedOver;
  }

  /** A verified replica whose manifest request failed is reported like a bad one if the report goes through. */
  predicate Wronged(heard: Heard, length: nat, digest: Digest) {
    Verified(heard.answer, length, digest) && heard.manifest.Fail? && heard.report.Ok?
  }

  /** Every replica reported has failed verification, exactly unless some replica is wronged before any serves or any
      report fails. */
  lemma OnlyBadReplicasReportedIff(heard: seq<Heard>, length: nat, digest: Digest)
    ensures var n := ReportedCount(heard, length, digest);
            (forall k :: 0 <= k < n ==> !Verified(heard[k].answer, length, digest))
            <==> !exists k :: 0 <= k < |heard| && Wronged(heard[k], length, digest)
                              && forall j :: 0 <= j < k ==> PassedOver(heard[j], length, digest)
  {
    var n := ReportedCount(heard, length, digest);
    if k :| 0 <= k < n && Verified(heard[k].answer, length, digest) {
      assert PassedOver(heard[k], length, digest);
      assert Wronged(heard[k], length, digest);
    }
    if k :| 0 <= k < |heard| && Wronged(heard[k], length, digest) && forall j :: 0 <= j < k ==>
        PassedOver(heard[j], length, digest) {
      assert PassedOver(heard[k], length, digest);
      assert k < n;
    }
  }

  /** It happens: the first replica is good, the manifest request after it fails, its report goes through, and the
      second replica serves the download. */
  lemma GoodReplicaMayBeReported(data: Bytes, code: Code)
    ensures var heard := [Heard(Ok(data), Fail(code), Ok(())), Heard(Ok(data), Ok(()), Ok(()))];
            && Verified(heard[0].answer, |data|, Sha(data)) && Served(heard[1], |data|, Sha(data))
            && ReportedCount(heard, |data|, Sha(data)) == 1
  {
    var heard := [Heard(Ok(data), Fail(code), Ok(())), Heard(Ok(data), Ok(()), Ok(()))];
    StopsAt(heard, |data|, Sha(data), 1);
  }
}
