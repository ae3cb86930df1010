/** Placement chooses exactly enough distinct eligible nodes, and creating an object cuts it into
    fully reserved pieces. */
module Creation {
  import opened Schema
  import opened Transactions
  import opened Accounting
  import opened Invariants
  import opened Preservation

  // ---------------------------------------------------------------- what placement does

  /** `u` is `t` with the chunk reserved on the nodes `ns`. */
  ghost predicate Placed(t: Tables, u: Tables, c: Id, length: int, ns: seq<Id>) {
    && u == t.(nodes := u.nodes, replicas := u.replicas)
    && u.nodes.Keys == t.nodes.Keys
    && (forall n :: n in t.nodes ==>
          u.nodes[n] == if n in ns then t.nodes[n].(reserved := t.nodes[n].reserved + length) else t.nodes[n])
    && (forall k :: k in u.replicas <==> (k in t.replicas || (k.chunk == c && k.node in ns && k.node in t.nodes)))
    && (forall k :: k in u.replicas ==>
          u.replicas[k] == if k.chunk == c && k.node in ns && k.node in t.nodes
                           then Replica(t.nodes[k.node].volume, Reserved, ReservedCharge) else t.replicas[k])
  }

  predicate Candidate(t: Tables, cfg: Config, now: Time, length: int, excluded: set<Id>, n: Id) {
    n in t.nodes && n !in excluded && Eligible(t.nodes[n], cfg, now, length)
  }

  /** The candidates, in the order given. */
  function Candidates(t: Tables, cfg: Config, now: Time, length: int, excluded: set<Id>, order: seq<Id>): seq<Id> {
    if order == [] then []
    else if Candidate(t, cfg, now, length, excluded, order[0])
    then [order[0]] + Candidates(t, cfg, now, length, excluded, order[1..])
    else Candidates(t, cfg, now, length, excluded, order[1..])
  }

  lemma {:induction false} CandidatesAgree(t: Tables, u: Tables, cfg: Config, now: Time, length: int,
                                           excluded: set<Id>, order: seq<Id>)
    requires forall n :: n in order ==> (n in t.nodes <==> n in u.nodes) && (n in t.nodes ==> t.nodes[n] == u.nodes[n])
    ensures Candidates(t, cfg, now, length, excluded, order) == Candidates(u, cfg, now, length, excluded, order)
  {
    if order != [] {
      CandidatesAgree(t, u, cfg, now, length, excluded, order[1..]);
    }
  }

  lemma {:induction false} CandidatesQualify(t: Tables, cfg: Config, now: Time, length: int, excluded: set<Id>,
                                             order: seq<Id>)
    requires Distinct(order)
    ensures var ns := Candidates(t, cfg, now, length, excluded, order);
            Distinct(ns) && forall n :: n in ns <==> n in order && Candidate(t, cfg, now, length, excluded, n)
  {
    if order != [] {
      CandidatesQualify(t, cfg, now, length, excluded, order[1..]);
      assert order[0] !in order[1..];
    }
  }

  /** Placement takes the first `count` candidates, and fails exactly when there are fewer. */
  lemma {:induction false} ReserveTakesFirst(t: Tables, cfg: Config, now: Time, c: Id, length: int, count: nat,
                                             excluded: set<Id>, order: seq<Id>)
    requires Distinct(order)
    ensures var r, ns := Reserve(t, cfg, now, c, length, count, excluded, order),
        Candidates(t, cfg, now, length, excluded, order);
            && (r.Ok? <==> count <= |ns|)
            && (r.Ok? ==> r.value.1 == ns[..count] && Placed(t, r.value.0, c, length, ns[..count]))
            && (r.Fail? ==> r.code == OutOfCapacity)
    decreases |order|
  {
    hide Eligible;
    if count > 0 && order != [] {
      var n, rest := order[0], order[1..];
      assert Distinct(rest) && n !in rest;
      if Candidate(t, cfg, now, length, excluded, n) {
        var t1 := Place(t, c, n, length);
        CandidatesAgree(t, t1, cfg, now, length, excluded, rest);
        CandidatesQualify(t, cfg, now, length, excluded, rest);
        ReserveTakesFirst(t1, cfg, now, c, length, count - 1, excluded, rest);
        var ns := Candidates(t, cfg, now, length, excluded, rest);
        if count - 1 <= |ns| {
          assert ([n] + ns)[..count] == [n] + ns[..count - 1];
          PlacedStep(t, t1, Reserve(t1, cfg, now, c, length, count - 1, excluded, rest).value.0, c, n, length,
                     ns[..count - 1]);
        }
      } else {
        ReserveTakesFirst(t, cfg, now, c, length, count, excluded, rest);
      }
    }
  }

  lemma PlacedStep(t: Tables, t1: Tables, u: Tables, c: Id, n: Id, length: int, ns: seq<Id>)
    requires n in t.nodes && n !in ns && t1 == Place(t, c, n, length) && Placed(t1, u, c, length, ns)
    ensures Placed(t, u, c, length, [n] + ns)
  {
    assert forall m :: m in [n] + ns <==> m == n || m in ns;
  }

  /** With the nodes listed by load, every node chosen is lighter than every candidate left out. */
  lemma {:induction false} LightestChosen(t: Tables, cfg: Config, now: Time, length: int, excluded: set<Id>,
                                          order: seq<Id>, count: nat, m: Id)
    requires InLoadOrder(t, order) && m in order && Candidate(t, cfg, now, length, excluded, m)
    requires count <= |Candidates(t, cfg, now, length, excluded, order)|
    requires m !in Candidates(t, cfg, now, length, excluded, order)[..count]
    ensures forall n :: n in Candidates(t, cfg, now, length, excluded, order)[..count] ==> LighterThan(t, n, m)
  {
    hide Eligible, LighterThan;
    if count > 0 {
      var o, rest := order[0], order[1..];
      var ns := Candidates(t, cfg, now, length, excluded, rest);
      if Candidate(t, cfg, now, length, excluded, o) {
        assert ([o] + ns)[..count] == [o] + ns[..count - 1];
        assert m in rest;
        LightestChosen(t, cfg, now, length, excluded, rest, count - 1, m);
        var j :| 0 <= j < |rest| && rest[j] == m;
        assert LighterThan(t, order[0], order[j + 1]);
      } else {
        LightestChosen(t, cfg, now, length, excluded, rest, count, m);
      }
    }
  }

  /** A candidate that every other candidate is heavier than. */
  ghost predicate IsLightest(t: Tables, cfg: Config, now: Time, length: int, excluded: set<Id>, n: Id) {
    && Candidate(t, cfg, now, length, excluded, n)
    && forall m :: m != n && Candidate(t, cfg, now, length, excluded, m) ==> LighterThan(t, n, m)
  }

  /** A single reservation goes to the lightest candidate, and fails exactly when there is none. */
  lemma LightestReserved(t: Tables, cfg: Config, now: Time, c: Id, length: int, excluded: set<Id>, order: seq<Id>)
    requires ByLoad(t, order)
    ensures var r := Reserve(t, cfg, now, c, length, 1, excluded, order);
            && (r.Fail? <==> forall m :: !Candidate(t, cfg, now, length, excluded, m))
            && (r.Fail? ==> r.code == OutOfCapacity)
            && (r.Ok? ==> |r.value.1| == 1 && IsLightest(t, cfg, now, length, excluded, r.value.1[0]))
  {
    assert Distinct(order);
    ReserveTakesFirst(t, cfg, now, c, length, 1, excluded, order);
    CandidatesQualify(t, cfg, now, length, excluded, order);
    var ns := Candidates(t, cfg, now, length, excluded, order);
    hide Reserve, Candidates, Eligible;
    assert forall m :: Candidate(t, cfg, now, length, excluded, m) ==> m in ns;
    if ns != [] {
      assert ns[..1] == [ns[0]];
      forall m | m != ns[0] && Candidate(t, cfg, now, length, excluded, m) ensures LighterThan(t, ns[0], m) {
        LightestChosen(t, cfg, now, length, excluded, order, 1, m);
      }
      assert Candidate(t, cfg, now, length, excluded, ns[0]);
    }
  }

  lemma LoadOrderIsDistinct(t: Tables, order: seq<Id>)
    requires InLoadOrder(t, order)
    ensures Distinct(order)
  {
    forall i, j | 0 <= i < j < |order| ensures order[i] != order[j] {
      assert LighterThan(t, order[i], order[j]);
    }
  }

  // ---------------------------------------------------------------- creating an object

  /** Sound, except that upload `up` so far has only its first `first` pieces. */
  ghost predicate Growing(t: Tables, up: Id, first: nat) {
    && Refs(t) && Pairs(t) && Rows(t) && Tasks(t) && Counts(t)
    && (forall c :: c in t.chunks ==> PieceOk(t, c))
    && (forall v :: v in t.uploads && v != up ==> WholeUpload(t, v))
    && up in t.uploads && t.objects[t.uploads[up].oid].phase.Staging? && t.objects[t.uploads[up].oid].chunkSize > 0
    && (forall i: nat :: i < first ==> PiecesAt(t, up, i) != {})
    && (forall c :: c in t.chunks && t.chunks[c].upload == up ==> t.chunks[c].seqNo < first)
  }

  ghost predicate FreshChunk(t: Tables, c: Id) {
    c !in t.chunks && forall key :: key in t.tasks ==> key.chunk != c
  }

  /** `u` is `t` plus one chunk with its replicas reserved. */
  ghost predicate PieceAdded(t: Tables, u: Tables, up: Id, first: nat, c: Id, length: nat, ns: seq<Id>) {
    Placed(t.(chunks := t.chunks[c := Chunk(up, first, length, None, PendingChunk)]), u, c, length, ns)
  }

  lemma PieceAddedShape(t: Tables, u: Tables, up: Id, first: nat, c: Id, length: nat, ns: seq<Id>)
    requires PieceAdded(t, u, up, first, c, length, ns)
    requires c !in t.chunks && RowsPlaced(t)
    ensures u.objects == t.objects && u.uploads == t.uploads && u.tasks == t.tasks && u.nodes.Keys == t.nodes.Keys
    ensures u.chunks == t.chunks[c := Chunk(up, first, length, None, PendingChunk)] && u.retired == t.retired
    ensures RowsPlaced(u) && forall n :: n in t.nodes ==> u.nodes[n].volume == t.nodes[n].volume
    ensures forall k :: k in u.replicas && k.chunk != c ==> k in t.replicas && u.replicas[k] == t.replicas[k]
    ensures forall k :: k in t.replicas ==> k in u.replicas && k.chunk != c
    ensures forall k :: k in u.replicas && k.chunk == c ==>
                  k.node in ns && u.replicas[k] == Replica(t.nodes[k.node].volume, Reserved, ReservedCharge)
    ensures forall n :: n in ns && n in t.nodes ==> Key(c, n) in u.replicas
  {
  }

  lemma PieceAddedPhases(t: Tables, u: Tables, up: Id, first: nat, c: Id, length: nat)
    requires u.objects == t.objects && u.uploads == t.uploads && c !in t.chunks
    requires u.chunks == t.chunks[c := Chunk(up, first, length, None, PendingChunk)]
    requires up in t.uploads && t.uploads[up].oid in t.objects
    ensures forall d :: d != c ==> Linked(u, d) == Linked(t, d) && PhaseOf(u, d) == PhaseOf(t, d)
    ensures forall d :: d != c && Linked(t, d) ==> ObjectOf(u, d) == ObjectOf(t, d)
    ensures Linked(u, c) && PhaseOf(u, c) == Some(t.objects[t.uploads[up].oid].phase)
    ensures ObjectOf(u, c) == t.objects[t.uploads[up].oid]
  {
  }

  lemma PieceAddedRefs(t: Tables, u: Tables, up: Id, first: nat, c: Id, length: nat)
    requires Growing(t, up, first) && u.objects == t.objects && u.uploads == t.uploads && c !in t.chunks
    requires RowsPlaced(u)
    requires u.chunks == t.chunks[c := Chunk(up, first, length, None, PendingChunk)]
    requires first < PieceCount(t.objects[t.uploads[up].oid].size, t.objects[t.uploads[up].oid].chunkSize)
    requires length == PieceLength(t.objects[t.uploads[up].oid].size, t.objects[t.uploads[up].oid].chunkSize, first) > 0
    ensures Refs(u) && Pairs(u)
    ensures forall d :: d in u.chunks ==> PieceOk(u, d)
  {
    hide Rows, Tasks, Counts, PairOk, WholeUpload, PieceOk, PiecesAt;
    PieceAddedPhases(t, u, up, first, c, length);
    forall o | o in u.objects ensures UploadsOf(u, o) != {} {
      assert UploadsOf(u, o) == UploadsOf(t, o);
    }
    PieceAddedOk(t, u, up, first, c, length);
  }

  lemma PieceAddedOk(t: Tables, u: Tables, up: Id, first: nat, c: Id, length: nat)
    requires u.objects == t.objects && u.uploads == t.uploads && c !in t.chunks
    requires u.chunks == t.chunks[c := Chunk(up, first, length, None, PendingChunk)]
    requires up in t.uploads && t.uploads[up].oid in t.objects && t.objects[t.uploads[up].oid].chunkSize > 0
    requires forall d :: d in t.chunks ==> Linked(t, d) && PieceOk(t, d)
    requires first < PieceCount(t.objects[t.uploads[up].oid].size, t.objects[t.uploads[up].oid].chunkSize)
    requires length == PieceLength(t.objects[t.uploads[up].oid].size, t.objects[t.uploads[up].oid].chunkSize, first) > 0
    ensures forall d :: d in u.chunks ==> Linked(u, d) && PieceOk(u, d)
  {
    hide Linked, ObjectOf;
    PieceAddedPhases(t, u, up, first, c, length);
    forall d | d in u.chunks ensures Linked(u, d) && PieceOk(u, d) {
      if d != c {
        assert PieceOk(t, d);
      }
    }
  }

  lemma PieceAddedWhole(t: Tables, u: Tables, up: Id, first: nat, c: Id, length: nat)
    requires Growing(t, up, first) && u.objects == t.objects && u.uploads == t.uploads && c !in t.chunks
    requires u.chunks == t.chunks[c := Chunk(up, first, length, None, PendingChunk)]
    ensures forall v :: v in u.uploads && v != up ==> WholeUpload(u, v)
    ensures forall i: nat :: i < first + 1 ==> PiecesAt(u, up, i) != {}
  {
    hide Rows, Tasks, Counts, Pairs, PieceOk, PiecesAt, UploadsOf;
    MorePieces(t, u, up, first, c, length);
    forall v | v in u.uploads && v != up ensures WholeUpload(u, v) {
      assert WholeUpload(t, v);
    }
  }

  lemma MorePieces(t: Tables, u: Tables, up: Id, first: nat, c: Id, length: nat)
    requires c !in t.chunks && u.chunks == t.chunks[c := Chunk(up, first, length, None, PendingChunk)]
    ensures forall v, i: nat :: PiecesAt(t, v, i) != {} ==> PiecesAt(u, v, i) != {}
    ensures PiecesAt(u, up, first) != {}
  {
    forall v, i: nat | PiecesAt(t, v, i) != {} ensures PiecesAt(u, v, i) != {} {
      var d :| d in PiecesAt(t, v, i);
      assert d in PiecesAt(u, v, i);
    }
    assert c in PiecesAt(u, up, first);
  }

  lemma PieceAddedRows(t: Tables, u: Tables, up: Id, first: nat, c: Id, length: nat, ns: seq<Id>)
    requires Growing(t, up, first) && PieceAdded(t, u, up, first, c, length, ns) && FreshChunk(t, c)
    ensures RowsPlaced(u) && Rows(u) && Tasks(u)
  {
    hide Counts, Pairs, PieceOk, WholeUpload, PieceAdded, PhaseOf, Linked;
    PieceAddedShape(t, u, up, first, c, length, ns);
    PieceAddedPhases(t, u, up, first, c, length);
    forall k | k in u.replicas ensures RowOk(u, k) {
      if k.chunk != c {
        assert RowOk(t, k);
      }
    }
    forall key | key in u.tasks ensures TaskOk(u, key) {
      assert TaskOk(t, key);
    }
  }

  lemma KeysOfPlacement(c: Id, ns: seq<Id>, keys: set<Key>)
    requires Distinct(ns) && forall k :: k in keys <==> k.chunk == c && k.node in ns
    ensures |keys| == |ns|
    decreases |ns|
  {
    if ns == [] {
      assert keys == {};
    } else {
      var k := Key(c, ns[0]);
      assert ns[0] !in ns[1..];
      KeysOfPlacement(c, ns[1..], keys - {k});
      assert k in keys;
    }
  }

  lemma PieceAddedCounts(t: Tables, u: Tables, up: Id, first: nat, c: Id, length: nat, ns: seq<Id>)
    requires Growing(t, up, first) && PieceAdded(t, u, up, first, c, length, ns) && c !in t.chunks && Refs(u)
    requires Distinct(ns) && |ns| == t.objects[t.uploads[up].oid].replicas && forall n :: n in ns ==> n in t.nodes
    ensures Counts(u)
  {
    hide Rows, Tasks, Pairs, PieceOk, WholeUpload, PieceAdded, PhaseOf, Linked, CountOk;
    PieceAddedShape(t, u, up, first, c, length, ns);
    PieceAddedPhases(t, u, up, first, c, length);
    forall d | d in u.chunks ensures CountOk(u, d) {
      if d == c {
        NewPieceCount(u, c, ns);
      } else {
        assert CountOk(t, d);
        OldPieceCount(t, u, d);
      }
    }
  }

  lemma NewPieceCount(u: Tables, c: Id, ns: seq<Id>)
    requires Linked(u, c) && PhaseOf(u, c) == Some(Staging) && Distinct(ns) && |ns| == ObjectOf(u, c).replicas
    requires forall k :: k in u.replicas && k.chunk == c ==> k.node in ns
    requires forall n :: n in ns ==> Key(c, n) in u.replicas
    ensures CountOk(u, c)
  {
    hide PhaseOf;
    KeysOfPlacement(c, ns, RowKeys(u, c));
  }

  lemma OldPieceCount(t: Tables, u: Tables, d: Id)
    requires Linked(t, d) && Linked(u, d) && CountOk(t, d) && PhaseOf(u, d) == PhaseOf(t, d)
    requires ObjectOf(u, d) == ObjectOf(t, d)
    requires forall k :: k in u.replicas && k.chunk == d ==> k in t.replicas && u.replicas[k] == t.replicas[k]
    requires forall k :: k in t.replicas ==> k in u.replicas
    ensures CountOk(u, d)
  {
    hide PhaseOf, ObjectOf;
    assert RowKeys(u, d) == RowKeys(t, d);
    assert forall n :: IsReserved(u, d, n) ==> IsReserved(t, d, n);
  }

  lemma PieceAddedGrowing(t: Tables, u: Tables, up: Id, first: nat, c: Id, length: nat, ns: seq<Id>)
    requires Growing(t, up, first) && PieceAdded(t, u, up, first, c, length, ns) && FreshChunk(t, c)
    requires Distinct(ns) && |ns| == t.objects[t.uploads[up].oid].replicas && forall n :: n in ns ==> n in t.nodes
    requires first < PieceCount(t.objects[t.uploads[up].oid].size, t.objects[t.uploads[up].oid].chunkSize)
    requires length == PieceLength(t.objects[t.uploads[up].oid].size, t.objects[t.uploads[up].oid].chunkSize, first) > 0
    ensures Growing(u, up, first + 1)
  {
    hide Rows, Tasks, Pairs, PieceOk, WholeUpload, PieceAdded, Counts, RowsPlaced, PiecesAt;
    GrowingPlaced(t, up, first);
    PieceAddedShape(t, u, up, first, c, length, ns);
    PieceAddedRefs(t, u, up, first, c, length);
    PieceAddedWhole(t, u, up, first, c, length);
    PieceAddedRows(t, u, up, first, c, length, ns);
    PieceAddedCounts(t, u, up, first, c, length, ns);
  }

  lemma GrowingPlaced(t: Tables, up: Id, first: nat)
    requires Growing(t, up, first)
    ensures RowsPlaced(t)
  {
  }

  /** Everything in `t` is still there, unchanged apart from the nodes' figures. */
  ghost predicate Extends(t: Tables, u: Tables) {
    && u.objects == t.objects && u.uploads == t.uploads && u.tasks == t.tasks && u.retired == t.retired
    && u.nodes.Keys == t.nodes.Keys
    && (forall c :: c in t.chunks ==> c in u.chunks && u.chunks[c] == t.chunks[c])
    && (forall k :: k in t.replicas ==> k in u.replicas && u.replicas[k] == t.replicas[k])
    && (forall k :: k in u.replicas && k !in t.replicas ==> u.replicas[k].state.Reserved? && k.chunk !in t.chunks)
  }

  lemma PieceAddedBooks(t: Tables, cfg: Config, now: Time, up: Id, first: nat, c: Id, length: nat, count: nat,
                        order: seq<Id>)
    requires Balanced(t) && c !in t.chunks && Distinct(order)
    ensures var t1 := t.(chunks := t.chunks[c := Chunk(up, first, length, None, PendingChunk)]);
            var r := Reserve(t1, cfg, now, c, length, count, {}, order);
            r.Ok? ==> Balanced(r.value.0)
  {
    hide NodeBalanced;
    var t1 := t.(chunks := t.chunks[c := Chunk(up, first, length, None, PendingChunk)]);
    UntouchedBooks(t, t1);
    ReserveBalances(t1, cfg, now, c, length, count, {}, order);
  }

  ghost predicate FreshChunks(t: Tables, cids: seq<Id>) {
    Distinct(cids) && forall i :: 0 <= i < |cids| ==> FreshChunk(t, cids[i])
  }

  lemma NextPiece(t: Tables, cfg: Config, now: Time, up: Id, first: nat, c: Id, length: nat, order: seq<Id>)
    requires Growing(t, up, first) && Balanced(t) && FreshChunk(t, c) && Distinct(order)
    requires t.objects[t.uploads[up].oid].replicas == cfg.replicas
    requires first < PieceCount(t.objects[t.uploads[up].oid].size, t.objects[t.uploads[up].oid].chunkSize)
    requires length == PieceLength(t.objects[t.uploads[up].oid].size, t.objects[t.uploads[up].oid].chunkSize, first) > 0
    ensures var t1 := t.(chunks := t.chunks[c := Chunk(up, first, length, None, PendingChunk)]);
            var r := Reserve(t1, cfg, now, c, length, cfg.replicas, {}, order);
            r.Ok? ==> && Growing(r.value.0, up, first + 1) && Balanced(r.value.0) && Extends(t, r.value.0)
                      && r.value.0.chunks == t1.chunks
  {
    hide Growing, Balanced, PieceAdded, Placed, Eligible;
    var t1 := t.(chunks := t.chunks[c := Chunk(up, first, length, None, PendingChunk)]);
    var r := Reserve(t1, cfg, now, c, length, cfg.replicas, {}, order);
    PieceAddedBooks(t, cfg, now, up, first, c, length, cfg.replicas, order);
    ReserveTakesFirst(t1, cfg, now, c, length, cfg.replicas, {}, order);
    CandidatesQualify(t1, cfg, now, length, {}, order);
    if r.Ok? {
      var ns := Candidates(t1, cfg, now, length, {}, order)[..cfg.replicas];
      GrowingPlaced(t, up, first);
      forall n | n in ns ensures n in t.nodes {
        assert Candidate(t1, cfg, now, length, {}, n);
      }
      PieceAddedIs(t, r.value.0, up, first, c, length, ns);
      PieceAddedGrowing(t, r.value.0, up, first, c, length, ns);
      PieceAddedShape(t, r.value.0, up, first, c, length, ns);
    }
  }

  lemma PieceAddedIs(t: Tables, u: Tables, up: Id, first: nat, c: Id, length: nat, ns: seq<Id>)
    requires Placed(t.(chunks := t.chunks[c := Chunk(up, first, length, None, PendingChunk)]), u, c, length, ns)
    ensures PieceAdded(t, u, up, first, c, length, ns)
  {
  }

  lemma PieceFits(size: nat, chunk: nat, first: nat)
    requires chunk > 0 && first * chunk < size
    ensures first < PieceCount(size, chunk) && PieceLength(size, chunk, first) > 0
  {
    if PieceCount(size, chunk) <= first {
      assert PieceCount(size, chunk) * chunk <= first * chunk;
      LastPieceStarts(size, chunk);
    }
  }

  lemma {:induction false} PlaceChunksGood(t: Tables, cfg: Config, now: Time, up: Id, size: nat, first: nat,
                                           cids: seq<Id>, orders: seq<seq<Id>>)
    requires |orders| == |cids| && (cids == [] || (first + |cids| - 1) * cfg.chunk < size)
    requires Growing(t, up, first) && Balanced(t) && FreshChunks(t, cids)
    requires forall i :: 0 <= i < |orders| ==> Distinct(orders[i])
    requires var object_ := t.objects[t.uploads[up].oid];
             object_.replicas == cfg.replicas && object_.size == size && object_.chunkSize == cfg.chunk
    ensures var r := PlaceChunks(t, cfg, now, up, size, first, cids, orders);
            r.Ok? ==> && Growing(r.value, up, first + |cids|) && Balanced(r.value) && Extends(t, r.value)
                      && forall c :: c in r.value.chunks ==> c in t.chunks || c in cids
    decreases |cids|
  {
    hide Growing, Balanced, Reserve, FreshChunk, Distinct;
    if cids != [] {
      assert first * cfg.chunk <= (first + |cids| - 1) * cfg.chunk;
      GrowingChunk(t, up, first);
      PieceFits(size, cfg.chunk, first);
      var length := PieceLength(size, cfg.chunk, first);
      var t1 := t.(chunks := t.chunks[cids[0] := Chunk(up, first, length, None, PendingChunk)]);
      NextPiece(t, cfg, now, up, first, cids[0], length, orders[0]);
      var placed := Reserve(t1, cfg, now, cids[0], length, cfg.replicas, {}, orders[0]);
      if placed.Ok? {
        StillFresh(t, placed.value.0, cids);
        PlaceChunksGood(placed.value.0, cfg, now, up, size, first + 1, cids[1..], orders[1..]);
      }
    }
  }

  lemma GrowingChunk(t: Tables, up: Id, first: nat)
    requires Growing(t, up, first)
    ensures t.objects[t.uploads[up].oid].chunkSize > 0
  {
  }

  lemma StillFresh(t: Tables, u: Tables, cids: seq<Id>)
    requires cids != [] && FreshChunks(t, cids) && u.tasks == t.tasks && u.chunks.Keys == t.chunks.Keys + {cids[0]}
    ensures FreshChunks(u, cids[1..])
  {
    forall i | 0 <= i < |cids[1..]| ensures FreshChunk(u, cids[1..][i]) {
      assert FreshChunk(t, cids[i + 1]) && cids[0] != cids[i + 1];
    }
  }

  // ---------------------------------------------------------------- the whole transaction

  lemma NewObjectGrowing(t: Tables, oid: Id, up: Id, object_: Object, expires: Time)
    requires Sound(t) && oid !in t.objects && up !in t.uploads && object_.phase.Staging? && object_.chunkSize > 0
    ensures Growing(t.(objects := t.objects[oid := object_],
                       uploads := t.uploads[up := Upload(oid, Uploading, expires)]), up, 0)
  {
    hide PairOk, RowOk, TaskOk, CountOk, PieceOk, WholeUpload, PhaseOf, ObjectOf, UploadsOf, PiecesAt;
    var u := t.(objects := t.objects[oid := object_], uploads := t.uploads[up := Upload(oid, Uploading, expires)]);
    NewObjectPhases(t, oid, up, object_, expires);
    NewObjectRefs(t, oid, up, object_, expires);
    forall k | k in u.replicas ensures RowOk(u, k) {
      assert RowOk(t, k);
      NewObjectRow(t, u, k);
    }
    forall key | key in u.tasks ensures TaskOk(u, key) {
      assert TaskOk(t, key);
      NewObjectTask(t, u, key);
    }
    forall c | c in u.chunks ensures CountOk(u, c) && PieceOk(u, c) {
      assert CountOk(t, c) && PieceOk(t, c);
      NewObjectChunk(t, u, c);
    }
    forall v | v in u.uploads && v != up ensures WholeUpload(u, v) {
      assert WholeUpload(t, v);
      NewObjectWhole(t, u, v);
    }
    NewObjectPairs(t, oid, up, object_, expires);
  }

  lemma NewObjectPhases(t: Tables, oid: Id, up: Id, object_: Object, expires: Time)
    requires Refs(t) && oid !in t.objects && up !in t.uploads
    ensures var u := t.(objects := t.objects[oid := object_],
                        uploads := t.uploads[up := Upload(oid, Uploading, expires)]);
            && (forall c :: c in t.chunks ==> Linked(u, c) && ObjectOf(u, c) == ObjectOf(t, c))
            && (forall c :: PhaseOf(u, c) == PhaseOf(t, c))
  {
  }

  lemma NewObjectUploads(t: Tables, oid: Id, up: Id, object_: Object, expires: Time, o: Id)
    requires o == oid || UploadsOf(t, o) != {}
    requires up !in t.uploads
    ensures UploadsOf(t.(objects := t.objects[oid := object_],
                         uploads := t.uploads[up := Upload(oid, Uploading, expires)]), o) != {}
  {
    var u := t.(objects := t.objects[oid := object_], uploads := t.uploads[up := Upload(oid, Uploading, expires)]);
    if o == oid {
      assert up in UploadsOf(u, o);
    } else {
      var v :| v in UploadsOf(t, o);
      assert v in UploadsOf(u, o);
    }
  }

  lemma NewObjectRefs(t: Tables, oid: Id, up: Id, object_: Object, expires: Time)
    requires Refs(t) && oid !in t.objects && up !in t.uploads
    ensures Refs(t.(objects := t.objects[oid := object_], uploads := t.uploads[up := Upload(oid, Uploading, expires)]))
    ensures forall c :: c in t.chunks ==> t.chunks[c].upload != up
  {
    hide UploadsOf;
    var u := t.(objects := t.objects[oid := object_], uploads := t.uploads[up := Upload(oid, Uploading, expires)]);
    forall o | o in u.objects ensures UploadsOf(u, o) != {} {
      NewObjectUploads(t, oid, up, object_, expires, o);
    }
  }

  lemma NewObjectPairs(t: Tables, oid: Id, up: Id, object_: Object, expires: Time)
    requires Refs(t) && Pairs(t) && oid !in t.objects && up !in t.uploads && object_.phase.Staging?
    requires Refs(t.(objects := t.objects[oid := object_], uploads := t.uploads[up := Upload(oid, Uploading, expires)]))
    ensures Pairs(t.(objects := t.objects[oid := object_], uploads := t.uploads[up := Upload(oid, Uploading, expires)]))
  {
  }

  lemma NewObjectRow(t: Tables, u: Tables, k: Key)
    requires k in t.replicas && u.replicas == t.replicas && u.nodes == t.nodes && u.tasks == t.tasks
    requires k.node in t.nodes
    requires PhaseOf(u, k.chunk) == PhaseOf(t, k.chunk) && RowOk(t, k)
    ensures RowOk(u, k)
  {
    hide PhaseOf;
  }

  lemma NewObjectTask(t: Tables, u: Tables, key: TaskKey)
    requires u.tasks == t.tasks && PhaseOf(u, key.chunk) == PhaseOf(t, key.chunk) && TaskOk(t, key)
    ensures TaskOk(u, key)
  {
    hide PhaseOf;
  }

  lemma NewObjectChunk(t: Tables, u: Tables, c: Id)
    requires Linked(t, c) && Linked(u, c) && ObjectOf(u, c) == ObjectOf(t, c) && u.chunks == t.chunks
    requires u.replicas == t.replicas
    requires PhaseOf(u, c) == PhaseOf(t, c) && CountOk(t, c) && PieceOk(t, c)
    ensures CountOk(u, c) && PieceOk(u, c)
  {
    hide PhaseOf, ObjectOf;
    assert RowKeys(u, c) == RowKeys(t, c);
    assert forall n :: IsReserved(u, c, n) == IsReserved(t, c, n);
  }

  lemma NewObjectWhole(t: Tables, u: Tables, v: Id)
    requires v in t.uploads && v in u.uploads && u.uploads[v] == t.uploads[v] && u.chunks == t.chunks
    requires t.uploads[v].oid in t.objects && t.uploads[v].oid in u.objects
    requires u.objects[t.uploads[v].oid] == t.objects[t.uploads[v].oid] && WholeUpload(t, v)
    ensures WholeUpload(u, v)
  {
    forall i: nat ensures PiecesAt(u, v, i) == PiecesAt(t, v, i) {
    }
  }

  lemma GrownIsSound(t: Tables, up: Id, first: nat)
    requires Growing(t, up, first)
    requires first == PieceCount(t.objects[t.uploads[up].oid].size, t.objects[t.uploads[up].oid].chunkSize)
    ensures Sound(t)
  {
    hide Rows, Tasks, Counts, Pairs, PieceOk;
    forall v | v in t.uploads ensures WholeUpload(t, v) {
    }
  }

  ghost predicate FreshIds(t: Tables, oid: Id, up: Id, cids: seq<Id>) {
    oid !in t.objects && up !in t.uploads && FreshChunks(t, cids)
  }

  /** Creating an object keeps every invariant; in particular the new upload is cut into
      consecutive pieces and each piece has its full complement of reservations. */
  lemma InitGood(t: Tables, cfg: Config, now: Time, owner: Id, size: nat, oid: Id, up: Id,
                 cids: seq<Id>, orders: seq<seq<Id>>, u: Tables)
    requires cfg.Valid() && Good(t) && FreshIds(t, oid, up, cids)
    requires size <= cfg.chunk * cfg.maxChunks ==> |cids| == |orders| == PieceCount(size, cfg.chunk)
    requires forall i :: 0 <= i < |orders| ==> Distinct(orders[i])
    requires Init(t, cfg, now, owner, size, oid, up, cids, orders) == Ok(u)
    ensures Good(u) && Advances(t, u) && OnlyAdds(t, u, oid, up, cids)
    ensures oid in u.objects && u.objects[oid] == Object(owner, size, cfg.chunk, cfg.replicas, Staging)
    ensures up in u.uploads && u.uploads[up] == Upload(oid, Uploading, now + cfg.ttl)
  {
    hide Good, Balanced, Growing, FreshChunks, Distinct, Extends, OnlyAdds, Advances, PlaceChunks, NewObject, FreshIds;
    LastPieceStarts(size, cfg.chunk);
    NewObjectStarts(t, cfg, now, owner, size, oid, up, cids);
    PlaceChunksGood(NewObject(t, cfg, now, owner, size, oid, up), cfg, now, up, size, 0, cids, orders);
    InitIs(t, cfg, now, owner, size, oid, up, cids, orders);
    InitAdds(t, NewObject(t, cfg, now, owner, size, oid, up), u, oid, up, cids);
    GrownIsGood(u, up, |cids|);
  }

  function NewObject(t: Tables, cfg: Config, now: Time, owner: Id, size: nat, oid: Id, up: Id): Tables {
    t.(objects := t.objects[oid := Object(owner, size, cfg.chunk, cfg.replicas, Staging)],
       uploads := t.uploads[up := Upload(oid, Uploading, now + cfg.ttl)])
  }

  lemma InitIs(t: Tables, cfg: Config, now: Time, owner: Id, size: nat, oid: Id, up: Id, cids: seq<Id>,
               orders: seq<seq<Id>>)
    requires cfg.Valid() && size <= cfg.chunk * cfg.maxChunks && |cids| == |orders| == PieceCount(size, cfg.chunk)
    ensures cids == [] || (0 + |cids| - 1) * cfg.chunk < size
    ensures Init(t, cfg, now, owner, size, oid, up, cids, orders)
            == PlaceChunks(NewObject(t, cfg, now, owner, size, oid, up), cfg, now, up, size, 0, cids, orders)
  {
    LastPieceStarts(size, cfg.chunk);
  }

  lemma NewObjectStarts(t: Tables, cfg: Config, now: Time, owner: Id, size: nat, oid: Id, up: Id, cids: seq<Id>)
    requires cfg.Valid() && Good(t) && FreshIds(t, oid, up, cids)
    ensures var t1 := NewObject(t, cfg, now, owner, size, oid, up);
            && Growing(t1, up, 0) && Balanced(t1) && FreshChunks(t1, cids)
            && oid !in t.objects && up !in t.uploads && oid in t1.objects && up in t1.uploads
            && t1 == t.(objects := t.objects[oid := t1.objects[oid]], uploads := t.uploads[up := t1.uploads[up]])
            && t1.uploads[up] == Upload(oid, Uploading, now + cfg.ttl)
            && t1.objects[oid] == Object(owner, size, cfg.chunk, cfg.replicas, Staging)
  {
    hide Sound, Balanced, Growing, FreshChunk;
    var t1 := NewObject(t, cfg, now, owner, size, oid, up);
    NewObjectGrowing(t, oid, up, Object(owner, size, cfg.chunk, cfg.replicas, Staging), now + cfg.ttl);
    BalancedRows(t);
    UntouchedBooks(t, t1);
    forall i | 0 <= i < |cids| ensures FreshChunk(t1, cids[i]) {
      assert FreshChunk(t, cids[i]);
      SameFresh(t, t1, cids[i]);
    }
  }

  lemma GrownIsGood(t: Tables, up: Id, first: nat)
    requires Growing(t, up, first) && Balanced(t)
    requires first == PieceCount(t.objects[t.uploads[up].oid].size, t.objects[t.uploads[up].oid].chunkSize)
    ensures Good(t)
  {
    GrownIsSound(t, up, first);
  }

  lemma SameFresh(t: Tables, u: Tables, c: Id)
    requires FreshChunk(t, c) && u.chunks == t.chunks && u.tasks == t.tasks
    ensures FreshChunk(u, c)
  {
  }

  /** Nothing known changes, and every new row is a reservation of a new chunk. */
  ghost predicate OnlyAdds(t: Tables, u: Tables, oid: Id, up: Id, cids: seq<Id>) {
    && u.tasks == t.tasks && u.retired == t.retired && u.nodes.Keys == t.nodes.Keys
    && u.objects.Keys == t.objects.Keys + {oid} && u.uploads.Keys == t.uploads.Keys + {up}
    && (forall o :: o in t.objects ==> u.objects[o] == t.objects[o])
    && (forall v :: v in t.uploads ==> u.uploads[v] == t.uploads[v])
    && (forall c :: c in t.chunks ==> c in u.chunks && u.chunks[c] == t.chunks[c])
    && (forall c :: c in u.chunks ==> c in t.chunks || c in cids)
    && (forall k :: k in t.replicas ==> k in u.replicas && u.replicas[k] == t.replicas[k])
    && (forall k :: k in u.replicas && k !in t.replicas ==> u.replicas[k].state.Reserved? && k.chunk !in t.chunks)
  }

  lemma InitAdds(t: Tables, t1: Tables, u: Tables, oid: Id, up: Id, cids: seq<Id>)
    requires oid !in t.objects && up !in t.uploads && oid in t1.objects && up in t1.uploads
    requires t1 == t.(objects := t.objects[oid := t1.objects[oid]], uploads := t.uploads[up := t1.uploads[up]])
    requires Extends(t1, u) && forall c :: c in u.chunks ==> c in t1.chunks || c in cids
    ensures OnlyAdds(t, u, oid, up, cids) && Advances(t, u)
    ensures u.objects == t1.objects && u.uploads == t1.uploads
  {
    hide Advances;
    AddingAdvances(t, u, oid, up, cids);
  }

  lemma AddingAdvances(t: Tables, u: Tables, oid: Id, up: Id, cids: seq<Id>)
    requires OnlyAdds(t, u, oid, up, cids)
    ensures Advances(t, u)
  {
  }
}
