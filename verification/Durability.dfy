/** A node's chunk directory, one system call at a time, with a crash possible between any two calls.
    Tickets may contradict each other: nothing here assumes that a chunk is only ever written with one content.
    What survives a crash is the directory as it was at some moment since it was last synchronized;
    a file that was not synchronized may come back with any content. */
module Durability {
  import opened Octets
  import opened Schema
  import opened Sums

  /** What one ticket asks for. */
  datatype Claims = Claims(chunk: Id, length: nat, digest: Digest)

  datatype Name = Temp(tag: Id) | ChunkFile(chunk: Id)
  /** A file, and the ticket it was opened for. */
  datatype Inode = Inode(content: Bytes, synced: bool, claims: Claims)
  type Directory = map<Name, Id>

  /** What the single request in progress has done so far. */
  datatype Phase =
    | Idle
    | Writing(tag: Id, inode: Id, claims: Claims, data: Bytes, done: nat)
    | Flushed(tag: Id, inode: Id, claims: Claims, data: Bytes)
    | Linked(tag: Id, chunk: Id)
    | Settling(chunk: Id)
    | Removing(chunk: Id)
    | Down

  /** `journal` holds every directory state since the last synchronization, oldest first; `acked` the chunks whose
      writes were acknowledged and whose removal has not begun since. */
  datatype Disk = Disk(
    inodes: map<Id, Inode>, dir: Directory, journal: seq<Directory>, phase: Phase, acked: set<Id>, capacity: nat)

  /** `Abort` ends a request after a failed call; `tidied` tells whether the temporary file could still be removed. */
  datatype Step =
    | Open(claims: Claims, data: Bytes, tag: Id, inode: Id)
    | Recheck(claims: Claims, data: Bytes)
    | Write(count: nat)
    | Fsync
    | Link
    | Unlink
    | SyncDir
    | Abort(tidied: bool)
    | Remove(chunk: Id)
    | Crash(survivor: nat, torn: map<Id, Bytes>)
    | Restart

  predicate Fits(data: Bytes, claims: Claims) {
    |data| == claims.length && Sha(data) == claims.digest
  }

  function Chunks(d: Directory): set<Id> {
    set name | name in d && name.ChunkFile? :: name.chunk
  }

  /** What a directory state says a chunk holds. */
  function ContentIn(n: Disk, d: Directory, c: Id): Option<Bytes> {
    if ChunkFile(c) in d && d[ChunkFile(c)] in n.inodes then Some(n.inodes[d[ChunkFile(c)]].content) else None
  }

  function ContentOf(n: Disk, c: Id): Option<Bytes> {
    ContentIn(n, n.dir, c)
  }

  function SizeIn(n: Disk, d: Directory): Id -> int {
    (c: Id) => if ContentIn(n, d, c).Some? then |ContentIn(n, d, c).value| else 0
  }

  /** Bytes stored under chunk names. */
  ghost function Used(n: Disk, d: Directory): int {
    Total(Chunks(d), SizeIn(n, d))
  }

  function Renamed(n: Disk, dir: Directory, phase: Phase): Disk {
    n.(dir := dir, journal := n.journal + [dir], phase := phase)
  }

  /** One system call, a failure, a crash, or a restart. `None` where it cannot happen. */
  ghost function Next(n: Disk, step: Step): Option<Disk> {
    match step
    case Open(claims, data, tag, inode) =>
      if && n.phase.Idle? && Fits(data, claims) && ChunkFile(claims.chunk) !in n.dir && Temp(tag) !in n.dir
          && inode !in n.inodes
         && Used(n, n.dir) + |data| <= n.capacity
      then Some(Renamed(n.(inodes := n.inodes[inode := Inode([], false, claims)]), n.dir[Temp(tag) := inode],
                        Writing(tag, inode, claims, data, 0)))
      else None
    case Recheck(claims, data) =>
      if && n.phase.Idle? && Fits(data, claims) && ContentOf(n, claims.chunk).Some?
         && |ContentOf(n, claims.chunk).value| == |data| && Sha(ContentOf(n, claims.chunk).value) == claims.digest
      then Some(n.(phase := Settling(claims.chunk)))
      else None
    case Write(count) =>
      if n.phase.Writing? && 0 < count <= |n.phase.data| - n.phase.done && n.phase.inode in n.inodes then
        var p := n.phase;
        var file := n.inodes[p.inode];
        Some(n.(inodes := n.inodes[p.inode := file.(content := file.content + p.data[p.done..p.done + count],
                                                    synced := false)],
                phase := p.(done := p.done + count)))
      else None
    case Fsync =>
      if n.phase.Writing? && n.phase.done == |n.phase.data| && n.phase.inode in n.inodes then
        Some(n.(inodes := n.inodes[n.phase.inode := n.inodes[n.phase.inode].(synced := true)],
                phase := Flushed(n.phase.tag, n.phase.inode, n.phase.claims, n.phase.data)))
      else None
    case Link =>
      if n.phase.Flushed? && ChunkFile(n.phase.claims.chunk) !in n.dir
      then Some(Renamed(n, n.dir[ChunkFile(n.phase.claims.chunk) := n.phase.inode],
                        Linked(n.phase.tag, n.phase.claims.chunk)))
      else None
    case Unlink =>
      if n.phase.Linked? then Some(Renamed(n, n.dir - {Temp(n.phase.tag)}, Settling(n.phase.chunk))) else None
    case SyncDir =>
      if n.phase.Settling? then Some(n.(journal := [n.dir], phase := Idle, acked := n.acked + {n.phase.chunk}))
      else if n.phase.Removing? then Some(n.(journal := [n.dir], phase := Idle))
      else None
    case Abort(tidied) =>
      if n.phase.Writing? || n.phase.Flushed? || n.phase.Linked? then
        Some(if tidied then Renamed(n, n.dir - {Temp(n.phase.tag)}, Idle) else n.(phase := Idle))
      else if n.phase.Settling? || n.phase.Removing? then Some(n.(phase := Idle))
      else None
    case Remove(c) =>
      if n.phase.Idle? then Some(Renamed(n.(acked := n.acked - {c}), n.dir - {ChunkFile(c)}, Removing(c))) else None
    case Crash(survivor, torn) =>
      if survivor < |n.journal| then
        Some(n.(inodes := map i | i in n.inodes ::
                            if n.inodes[i].synced || i !in torn then n.inodes[i] else n.inodes[i].(content := torn[i]),
                dir := n.journal[survivor], journal := [n.journal[survivor]], phase := Down))
      else None
    case Restart =>
      if n.phase.Down? then
        var dir := map name | name in n.dir && name.ChunkFile? :: n.dir[name];
        Some(n.(dir := dir, journal := [dir], phase := Idle))
      else None
  }

  ghost function Run(n: Disk, steps: seq<Step>): Option<Disk>
    decreases |steps|
  {
    if steps == [] then Some(n)
    else match Next(n, steps[0])
      case None => None
      case Some(after) => Run(after, steps[1..])
  }

  function Empty(capacity: nat): Disk {
    Disk(map[], map[], [map[]], Idle, {}, capacity)
  }

  // ---------------------------------------------------------------- the invariant

  /** A chunk name leads to a synchronized file that holds all its ticket asked for. */
  predicate Whole(n: Disk, d: Directory, c: Id)
    requires ChunkFile(c) in d
  {
    && d[ChunkFile(c)] in n.inodes && n.inodes[d[ChunkFile(c)]].synced
    && n.inodes[d[ChunkFile(c)]].claims.chunk == c
    && Fits(n.inodes[d[ChunkFile(c)]].content, n.inodes[d[ChunkFile(c)]].claims)
  }

  ghost predicate AllWhole(n: Disk, d: Directory) {
    forall c :: ChunkFile(c) in d ==> Whole(n, d, c)
  }

  /** Every acknowledged chunk has its file, and has always had it since the last synchronization. */
  ghost predicate AckedIn(n: Disk, d: Directory) {
    forall c :: c in n.acked ==> ChunkFile(c) in d && ChunkFile(c) in n.dir && d[ChunkFile(c)] == n.dir[ChunkFile(c)]
  }

  ghost predicate DirectoryOk(n: Disk, d: Directory) {
    AllWhole(n, d) && Used(n, d) <= n.capacity && AckedIn(n, d)
  }

  ghost predicate PhaseOk(n: Disk) {
    match n.phase
    case Writing(tag, inode, claims, data, done) =>
      && Fits(data, claims) && ChunkFile(claims.chunk) !in n.dir && Used(n, n.dir) + |data| <= n.capacity
      && done <= |data| && inode in n.inodes && n.inodes[inode] == Inode(data[..done], false, claims)
    case Flushed(tag, inode, claims, data) =>
      && Fits(data, claims) && ChunkFile(claims.chunk) !in n.dir && Used(n, n.dir) + |data| <= n.capacity
      && inode in n.inodes && n.inodes[inode] == Inode(data, true, claims)
    case Linked(tag, c) => ChunkFile(c) in n.dir
    case Settling(c) => ChunkFile(c) in n.dir
    case _ => true
  }

  ghost predicate DiskOk(n: Disk) {
    && n.journal != [] && n.journal[|n.journal| - 1] == n.dir
    && (forall i :: 0 <= i < |n.journal| ==> DirectoryOk(n, n.journal[i]))
    && PhaseOk(n)
  }

  lemma Present(n: Disk)
    requires DiskOk(n)
    ensures DirectoryOk(n, n.dir)
  {
  }

  // ---------------------------------------------------------------- preservation

  /** Files that were synchronized stay as they are. */
  ghost predicate SyncedKept(n: Disk, m: Disk) {
    forall i :: i in n.inodes && n.inodes[i].synced ==> i in m.inodes && m.inodes[i] == n.inodes[i]
  }

  lemma ChunkNames(d: Directory)
    ensures forall c :: c in Chunks(d) <==> ChunkFile(c) in d
  {
    forall c | ChunkFile(c) in d ensures c in Chunks(d) {
    }
  }

  lemma WholeKept(n: Disk, m: Disk, d: Directory, c: Id)
    requires ChunkFile(c) in d && Whole(n, d, c) && SyncedKept(n, m)
    ensures Whole(m, d, c) && ContentIn(m, d, c) == ContentIn(n, d, c)
  {
  }

  lemma UsedKept(n: Disk, m: Disk, d: Directory)
    requires AllWhole(n, d) && SyncedKept(n, m)
    ensures AllWhole(m, d) && Used(m, d) == Used(n, d)
  {
    hide Whole;
    ChunkNames(d);
    forall c | ChunkFile(c) in d ensures Whole(m, d, c) && ContentIn(m, d, c) == ContentIn(n, d, c) {
      WholeKept(n, m, d, c);
    }
    TotalAgrees(Chunks(d), SizeIn(n, d), SizeIn(m, d));
  }

  /** Two directory states that name the same chunk files. */
  ghost predicate SameFiles(d: Directory, e: Directory) {
    forall c :: (ChunkFile(c) in d <==> ChunkFile(c) in e) && (ChunkFile(c) in d ==> d[ChunkFile(c)] == e[ChunkFile(c)])
  }

  lemma UsedSame(n: Disk, d: Directory, e: Directory)
    requires AllWhole(n, d) && SameFiles(d, e)
    ensures AllWhole(n, e) && Used(n, e) == Used(n, d)
  {
    ChunkNames(d);
    ChunkNames(e);
    assert Chunks(d) == Chunks(e);
    forall c | ChunkFile(c) in e ensures Whole(n, e, c) {
      assert Whole(n, d, c);
    }
    TotalAgrees(Chunks(d), SizeIn(n, d), SizeIn(n, e));
  }

  lemma OneMoreChunk(n: Disk, d: Directory, c: Id, inode: Id)
    requires ChunkFile(c) !in d && inode in n.inodes
    ensures Used(n, d[ChunkFile(c) := inode]) == Used(n, d) + |n.inodes[inode].content|
  {
    var e := d[ChunkFile(c) := inode];
    ChunkNames(d);
    ChunkNames(e);
    assert Chunks(e) == Chunks(d) + {c};
    TotalTakeOut(Chunks(e), SizeIn(n, e), c);
    assert Chunks(e) - {c} == Chunks(d);
    TotalAgrees(Chunks(d), SizeIn(n, d), SizeIn(n, e));
  }

  lemma OneChunkLess(n: Disk, d: Directory, c: Id)
    ensures Used(n, d - {ChunkFile(c)}) <= Used(n, d)
  {
    var e := d - {ChunkFile(c)};
    ChunkNames(d);
    ChunkNames(e);
    assert Chunks(d) == Chunks(e) + (Chunks(d) - Chunks(e));
    TotalOfUnion(Chunks(e), Chunks(d) - Chunks(e), SizeIn(n, d));
    TotalNonNegative(Chunks(d) - Chunks(e), SizeIn(n, d));
    TotalAgrees(Chunks(e), SizeIn(n, d), SizeIn(n, e));
  }

  /** Earlier directory states stay good while synchronized files stay as they are and acknowledged names stay where
      they are. */
  lemma JournalKept(n: Disk, m: Disk)
    requires DiskOk(n) && SyncedKept(n, m) && m.capacity == n.capacity && m.acked <= n.acked
    requires forall c :: c in m.acked ==>
                  ChunkFile(c) in m.dir && ChunkFile(c) in n.dir && m.dir[ChunkFile(c)] == n.dir[ChunkFile(c)]
    ensures forall i :: 0 <= i < |n.journal| ==> DirectoryOk(m, n.journal[i])
  {
    hide Used, AllWhole, SyncedKept;
    forall i | 0 <= i < |n.journal| ensures DirectoryOk(m, n.journal[i]) {
      assert DirectoryOk(n, n.journal[i]);
      UsedKept(n, m, n.journal[i]);
    }
  }

  /** A call that changes no chunk name. */
  lemma NoNameChanges(n: Disk, m: Disk)
    requires DiskOk(n) && SyncedKept(n, m) && m.capacity == n.capacity && m.acked == n.acked
    requires SameFiles(n.dir, m.dir) && (m.journal == n.journal + [m.dir] || (m.journal == n.journal && m.dir == n.dir))
    ensures Used(m, m.dir) == Used(n, n.dir)
    ensures forall i :: 0 <= i < |m.journal| ==> DirectoryOk(m, m.journal[i])
  {
    hide Used, AllWhole, SyncedKept;
    Present(n);
    JournalKept(n, m);
    UsedKept(n, m, n.dir);
    UsedSame(m, n.dir, m.dir);
    assert DirectoryOk(m, m.dir);
  }

  lemma FileStepKeeps(n: Disk, step: Step, m: Disk)
    requires DiskOk(n) && Next(n, step) == Some(m) && (step.Write? || step.Fsync? || step.Recheck?)
    ensures DiskOk(m)
  {
    NoNameChanges(n, m);
    hide Used, DirectoryOk;
    if step.Write? {
      var p := n.phase;
      assert p.data[..p.done] + p.data[p.done..p.done + step.count] == p.data[..p.done + step.count];
    } else if step.Fsync? {
      assert n.phase.data[..|n.phase.data|] == n.phase.data;
    }
  }

  lemma TempStepKeeps(n: Disk, step: Step, m: Disk)
    requires DiskOk(n) && Next(n, step) == Some(m) && (step.Open? || step.Unlink? || step.Abort?)
    ensures DiskOk(m)
  {
    NoNameChanges(n, m);
    hide Used, DirectoryOk;
  }

  lemma LinkKeeps(n: Disk, m: Disk)
    requires DiskOk(n) && Next(n, Link) == Some(m)
    ensures DiskOk(m)
  {
    var c := n.phase.claims.chunk;
    Present(n);
    JournalKept(n, m);
    OneMoreChunk(n, n.dir, c, n.phase.inode);
    LinkedWhole(n, m);
    assert Used(m, m.dir) == Used(n, m.dir) by {
      UsedKept(n, m, m.dir);
    }
    hide Used;
    assert DirectoryOk(m, m.dir);
  }

  lemma LinkedWhole(n: Disk, m: Disk)
    requires DiskOk(n) && Next(n, Link) == Some(m)
    ensures AllWhole(n, m.dir)
  {
    hide Used;
    Present(n);
    forall x | ChunkFile(x) in m.dir ensures Whole(n, m.dir, x) {
      assert x != n.phase.claims.chunk ==> Whole(n, n.dir, x);
    }
  }

  lemma RemoveKeeps(n: Disk, c: Id, m: Disk)
    requires DiskOk(n) && Next(n, Remove(c)) == Some(m)
    ensures DiskOk(m)
  {
    Present(n);
    JournalKept(n, m);
    OneChunkLess(n, n.dir, c);
    assert AllWhole(n, m.dir) by {
      forall x | ChunkFile(x) in m.dir ensures Whole(n, m.dir, x) {
        assert Whole(n, n.dir, x);
      }
    }
    UsedKept(n, m, m.dir);
    hide Used;
    assert DirectoryOk(m, m.dir);
  }

  lemma SyncKeeps(n: Disk, m: Disk)
    requires DiskOk(n) && Next(n, SyncDir) == Some(m)
    ensures DiskOk(m)
  {
    Present(n);
    UsedKept(n, m, n.dir);
    hide Used;
    assert DirectoryOk(m, m.dir);
  }

  lemma CrashKeeps(n: Disk, step: Step, m: Disk)
    requires DiskOk(n) && step.Crash? && Next(n, step) == Some(m)
    ensures DiskOk(m)
  {
    var d := n.journal[step.survivor];
    assert DirectoryOk(n, d);
    UsedKept(n, m, d);
    hide Used;
    assert DirectoryOk(m, m.dir);
  }

  lemma RestartKeeps(n: Disk, m: Disk)
    requires DiskOk(n) && Next(n, Restart) == Some(m)
    ensures DiskOk(m)
  {
    Present(n);
    UsedKept(n, m, n.dir);
    UsedSame(m, n.dir, m.dir);
    hide Used;
    assert DirectoryOk(m, m.dir);
  }

  lemma StepKeeps(n: Disk, step: Step, m: Disk)
    requires DiskOk(n) && Next(n, step) == Some(m)
    ensures DiskOk(m) && m.capacity == n.capacity
  {
    hide DiskOk;
    match step
    case Open(_, _, _, _) => TempStepKeeps(n, step, m);
    case Unlink => TempStepKeeps(n, step, m);
    case Abort(_) => TempStepKeeps(n, step, m);
    case Link => LinkKeeps(n, m);
    case SyncDir => SyncKeeps(n, m);
    case Remove(c) => RemoveKeeps(n, c, m);
    case Crash(_, _) => CrashKeeps(n, step, m);
    case Restart => RestartKeeps(n, m);
    case _ => FileStepKeeps(n, step, m);
  }

  lemma EmptyIsOk(capacity: nat)
    ensures DiskOk(Empty(capacity))
  {
  }

  lemma {:induction false} RunKeeps(n: Disk, steps: seq<Step>, m: Disk)
    requires DiskOk(n) && Run(n, steps) == Some(m)
    ensures DiskOk(m) && m.capacity == n.capacity
    decreases |steps|
  {
    hide DiskOk, Next;
    if steps != [] {
      StepKeeps(n, steps[0], Next(n, steps[0]).value);
      RunKeeps(Next(n, steps[0]).value, steps[1..], m);
    }
  }

  // ---------------------------------------------------------------- what a name holds

  /** At every moment of every run, crashes included, a chunk name is absent or holds the complete content some ticket
      for this chunk asked for, and the stored bytes are within capacity. */
  lemma ChunksAreWhole(capacity: nat, steps: seq<Step>, n: Disk, c: Id)
    requires Run(Empty(capacity), steps) == Some(n)
    ensures ChunkFile(c) in n.dir ==>
              && n.dir[ChunkFile(c)] in n.inodes && n.inodes[n.dir[ChunkFile(c)]].claims.chunk == c
              && Fits(n.inodes[n.dir[ChunkFile(c)]].content, n.inodes[n.dir[ChunkFile(c)]].claims)
    ensures Used(n, n.dir) <= capacity
  {
    hide Run, Used;
    EmptyIsOk(capacity);
    RunKeeps(Empty(capacity), steps, n);
    Present(n);
    assert ChunkFile(c) in n.dir ==> Whole(n, n.dir, c);
  }

  predicate Removes(step: Step, c: Id) {
    step == Remove(c)
  }

  /** One step keeps an acknowledged chunk, name and content, unless it removes it. */
  lemma AckedStepStays(n: Disk, step: Step, m: Disk, c: Id)
    requires DiskOk(n) && Next(n, step) == Some(m) && c in n.acked && !Removes(step, c)
    ensures c in m.acked && ContentOf(n, c).Some? && ContentOf(m, c) == ContentOf(n, c)
  {
    hide Used;
    Present(n);
    assert Whole(n, n.dir, c);
    if step.Crash? {
      assert DirectoryOk(n, n.journal[step.survivor]);
    }
  }

  /** An acknowledged write is never undone or overwritten: through any further calls, failures, restarts and crashes,
      and whatever other tickets for the chunk turn up, the content stays until the chunk's removal is requested. */
  lemma {:induction false} AcknowledgedContentStays(n: Disk, more: seq<Step>, m: Disk, c: Id)
    requires DiskOk(n) && c in n.acked && Run(n, more) == Some(m)
    requires forall i :: 0 <= i < |more| ==> !Removes(more[i], c)
    ensures c in m.acked && ContentOf(m, c).Some? && ContentOf(m, c) == ContentOf(n, c)
    decreases |more|
  {
    hide DiskOk, Next, ContentOf;
    if more == [] {
      AckedHasContent(n, c);
    } else {
      var after := Next(n, more[0]).value;
      assert !Removes(more[0], c);
      StepKeeps(n, more[0], after);
      AckedStepStays(n, more[0], after, c);
      forall i | 0 <= i < |more[1..]| ensures !Removes(more[1..][i], c) {
        assert more[1..][i] == more[i + 1];
      }
      AcknowledgedContentStays(after, more[1..], m, c);
    }
  }

  lemma AckedHasContent(n: Disk, c: Id)
    requires DiskOk(n) && c in n.acked
    ensures ContentOf(n, c).Some?
  {
    hide Used;
    Present(n);
    assert Whole(n, n.dir, c);
  }

  /** Acknowledged or not, a name that is in the directory never changes its content by a call or a failure; only a
      removal or a crash can take it away. */
  lemma ContentNeverReplaced(n: Disk, step: Step, m: Disk, c: Id)
    requires DiskOk(n) && Next(n, step) == Some(m) && ChunkFile(c) in n.dir && !Removes(step, c) && !step.Crash?
    ensures ContentOf(m, c).Some? && ContentOf(m, c) == ContentOf(n, c)
  {
    hide Used;
    Present(n);
    assert Whole(n, n.dir, c);
  }

  /** After a crash a chunk holds what it held at some moment since the last synchronization, whole. */
  lemma CrashRestoresAMoment(n: Disk, step: Step, m: Disk, c: Id)
    requires DiskOk(n) && step.Crash? && Next(n, step) == Some(m)
    ensures ContentOf(m, c) == ContentIn(n, n.journal[step.survivor], c)
  {
    hide Used;
    assert DirectoryOk(n, n.journal[step.survivor]);
    assert ChunkFile(c) in m.dir ==> Whole(n, n.journal[step.survivor], c);
  }

  /** Until the directory is synchronized a crash can lose a name that was just linked. */
  lemma UnsyncedNameMayBeLost(n: Disk, m: Disk)
    requires DiskOk(n) && Next(n, Link) == Some(m)
    ensures ChunkFile(n.phase.claims.chunk) in m.dir
    ensures exists survivor, torn, after ::
              Next(m, Crash(survivor, torn)) == Some(after) && ChunkFile(n.phase.claims.chunk) !in after.dir
  {
    var survivor := |n.journal| - 1;
    var after := Next(m, Crash(survivor, map[])).value;
    assert m.journal[survivor] == n.dir;
    assert ChunkFile(n.phase.claims.chunk) !in after.dir;
  }
}
