/** A node's disk, call by call, is the host module Cluster takes it to be: files appear, are acknowledged, are removed
    or are thinned out by a crash, and nothing else ever happens to them. */
module Nodes {
  import opened Octets
  import opened Schema
  import opened Transactions
  import D = Durability
  import C = Cluster

  /** The chunks in the directory with their contents. */
  function FilesOf(n: D.Disk): map<Id, Bytes> {
    map c | c in D.Chunks(n.dir) && D.ContentOf(n, c).Some? :: D.ContentOf(n, c).value
  }

  lemma FilesAre(n: D.Disk, c: Id)
    ensures c in FilesOf(n) <==> D.ContentOf(n, c).Some?
    ensures c in FilesOf(n) ==> D.ContentOf(n, c) == Some(FilesOf(n)[c])
  {
    D.ChunkNames(n.dir);
  }

  /** Everything any directory state since the last synchronization held is in the host's past. */
  ghost predicate Remembered(n: D.Disk, past: set<(Id, Bytes)>) {
    forall i: nat, c: Id :: i < |n.journal| && D.ContentIn(n, n.journal[i], c).Some? ==>
        (c, D.ContentIn(n, n.journal[i], c).value) in past
  }

  ghost predicate Mirrors(n: D.Disk, host: C.Host) {
    host.files == FilesOf(n) && host.durable == n.acked && Remembered(n, host.past)
  }

  /** What may happen to a host's files. */
  ghost predicate Move(host: C.Host, after: C.Host) {
    || after == host
    || (exists c: Id, data :: c !in host.files && after == C.WrittenOn(host, c, data, false))
    || (exists c: Id :: c in host.files && after == C.WrittenOn(host, c, host.files[c], true))
    || (exists c: Id :: after == C.RemovedFrom(host, c))
    || (C.Survives(host, after.files) && after == host.(files := after.files))
  }

  lemma SameContents(n: D.Disk, m: D.Disk)
    requires forall c: Id :: D.ContentOf(m, c) == D.ContentOf(n, c)
    ensures FilesOf(m) == FilesOf(n)
  {
    forall c: Id ensures c in FilesOf(m) <==> c in FilesOf(n) {
      FilesAre(n, c);
      FilesAre(m, c);
    }
    forall c: Id | c in FilesOf(m) ensures FilesOf(m)[c] == FilesOf(n)[c] {
      FilesAre(n, c);
      FilesAre(m, c);
    }
  }

  /** Earlier directory states are not rewritten by a step that is not a crash. */
  lemma JournalContents(n: D.Disk, step: D.Step, m: D.Disk, i: nat, c: Id)
    requires D.DiskOk(n) && D.Next(n, step) == Some(m) && !step.Crash? && i < |n.journal|
    ensures D.ContentIn(m, n.journal[i], c) == D.ContentIn(n, n.journal[i], c)
  {
    assert D.DirectoryOk(n, n.journal[i]);
    hide D.Used;
    if D.ChunkFile(c) in n.journal[i] {
      assert D.Whole(n, n.journal[i], c);
    }
  }

  /** The present contents are the newest entry of the journal. */
  lemma PresentContents(n: D.Disk, c: Id)
    requires D.DiskOk(n)
    ensures D.ContentIn(n, n.journal[|n.journal| - 1], c) == D.ContentOf(n, c)
  {
    hide D.DirectoryOk, D.PhaseOk;
  }

  lemma RememberedOn(n: D.Disk, step: D.Step, m: D.Disk, past: set<(Id, Bytes)>, later: set<(Id, Bytes)>)
    requires D.DiskOk(n) && D.DiskOk(m) && D.Next(n, step) == Some(m) && !step.Crash? && Remembered(n, past)
    requires past <= later
    requires forall c: Id :: D.ContentOf(m, c).Some? ==> (c, D.ContentOf(m, c).value) in later
    ensures Remembered(m, later)
  {
    JournalGrows(n, step, m);
    forall i: nat, c: Id | i < |m.journal| && D.ContentIn(m, m.journal[i], c).Some?
      ensures (c, D.ContentIn(m, m.journal[i], c).value) in later
    {
      if i < |n.journal| && m.journal[i] == n.journal[i] {
        JournalContents(n, step, m, i, c);
      } else {
        PresentContents(m, c);
      }
    }
  }

  lemma JournalGrows(n: D.Disk, step: D.Step, m: D.Disk)
    requires D.DiskOk(m) && D.Next(n, step) == Some(m) && !step.Crash?
    ensures forall i: nat :: i < |m.journal| ==>
                  (i < |n.journal| && m.journal[i] == n.journal[i]) || i == |m.journal| - 1
  {
    hide D.DirectoryOk, D.PhaseOk, D.Used;
  }

  /** A call that leaves all contents alone. */
  lemma QuietStep(n: D.Disk, step: D.Step, m: D.Disk, host: C.Host)
    requires D.DiskOk(n) && D.DiskOk(m) && D.Next(n, step) == Some(m) && !step.Crash? && Mirrors(n, host)
    requires m.acked == n.acked
    requires forall c: Id :: D.ContentOf(m, c) == D.ContentOf(n, c)
    ensures Mirrors(m, host)
  {
    hide D.DiskOk, D.Next, Remembered;
    SameContents(n, m);
    forall c: Id | D.ContentOf(m, c).Some? ensures (c, D.ContentOf(m, c).value) in host.past {
      HasPast(n, host, c);
    }
    RememberedOn(n, step, m, host.past, host.past);
  }

  lemma HasPast(n: D.Disk, host: C.Host, c: Id)
    requires D.DiskOk(n) && Mirrors(n, host) && D.ContentOf(n, c).Some?
    ensures (c, D.ContentOf(n, c).value) in host.past
  {
    PresentContents(n, c);
    hide D.DirectoryOk, D.PhaseOk;
    assert n.journal != [];
  }

  /** Calls that publish nothing, remove nothing and acknowledge nothing change no content. */
  predicate Quiet(n: D.Disk, step: D.Step) {
    step.Open? || step.Recheck? || step.Write? || step.Fsync? || step.Unlink? || step.Abort? || step.Restart?
    || (step.SyncDir? && !n.phase.Settling?)
  }

  lemma QuietContents(n: D.Disk, step: D.Step, m: D.Disk, c: Id)
    requires D.DiskOk(n) && D.Next(n, step) == Some(m) && Quiet(n, step)
    ensures D.ContentOf(m, c) == D.ContentOf(n, c) && m.acked == n.acked
  {
    hide D.Used;
    D.Present(n);
    if D.ChunkFile(c) in n.dir {
      assert D.Whole(n, n.dir, c);
    }
  }

  lemma LinkMoves(n: D.Disk, m: D.Disk, host: C.Host) returns (after: C.Host)
    requires D.DiskOk(n) && D.DiskOk(m) && D.Next(n, D.Link) == Some(m) && Mirrors(n, host)
    ensures Mirrors(m, after) && n.phase.Flushed? && n.phase.claims.chunk !in host.files
    ensures after == C.WrittenOn(host, n.phase.claims.chunk, n.phase.data, false)
    ensures D.Fits(n.phase.data, n.phase.claims)
  {
    var c, data := n.phase.claims.chunk, n.phase.data;
    after := C.WrittenOn(host, c, data, false);
    LinkContents(n, m);
    hide D.DiskOk, D.Next, Remembered, FilesOf, D.ContentOf;
    FilesAre(n, c);
    forall x: Id
      ensures (x in FilesOf(m) <==> x in after.files) && (x in FilesOf(m) ==> FilesOf(m)[x] == after.files[x])
    {
      FilesAre(n, x);
      FilesAre(m, x);
    }
    assert FilesOf(m) == after.files;
    forall x: Id | D.ContentOf(m, x).Some? ensures (x, D.ContentOf(m, x).value) in after.past {
      if x != c {
        HasPast(n, host, x);
      }
    }
    RememberedOn(n, D.Link, m, host.past, after.past);
    assert c !in host.files;
  }

  lemma LinkContents(n: D.Disk, m: D.Disk)
    requires D.DiskOk(n) && D.Next(n, D.Link) == Some(m)
    ensures n.phase.Flushed? && D.Fits(n.phase.data, n.phase.claims) && m.acked == n.acked
    ensures D.ContentOf(n, n.phase.claims.chunk).None?
    ensures forall x: Id :: D.ContentOf(m, x) == if x == n.phase.claims.chunk then Some(n.phase.data)
        else D.ContentOf(n, x)
  {
    hide D.Used, D.DirectoryOk;
  }

  lemma SettleMoves(n: D.Disk, m: D.Disk, host: C.Host) returns (after: C.Host)
    requires D.DiskOk(n) && D.DiskOk(m) && D.Next(n, D.SyncDir) == Some(m) && n.phase.Settling? && Mirrors(n, host)
    ensures Mirrors(m, after) && n.phase.chunk in host.files
    ensures after == C.WrittenOn(host, n.phase.chunk, host.files[n.phase.chunk], true)
  {
    var c := n.phase.chunk;
    hide D.DiskOk, D.Next, Remembered, FilesOf, D.ContentOf;
    SettlingIsThere(n, c);
    SettleContents(n, m);
    FilesAre(n, c);
    HasPast(n, host, c);
    after := C.WrittenOn(host, c, host.files[c], true);
    assert after == host.(durable := host.durable + {c});
    SameContents(n, m);
    forall x: Id | D.ContentOf(m, x).Some? ensures (x, D.ContentOf(m, x).value) in after.past {
      HasPast(n, host, x);
    }
    RememberedOn(n, D.SyncDir, m, host.past, after.past);
  }

  lemma SettlingIsThere(n: D.Disk, c: Id)
    requires D.DiskOk(n) && n.phase == D.Settling(c)
    ensures D.ContentOf(n, c).Some?
  {
    hide D.Used;
    D.Present(n);
    assert D.Whole(n, n.dir, c);
  }

  lemma SettleContents(n: D.Disk, m: D.Disk)
    requires D.Next(n, D.SyncDir) == Some(m) && n.phase.Settling?
    ensures m.acked == n.acked + {n.phase.chunk} && forall x: Id :: D.ContentOf(m, x) == D.ContentOf(n, x)
  {
  }

  lemma RemoveMoves(n: D.Disk, c: Id, m: D.Disk, host: C.Host) returns (after: C.Host)
    requires D.DiskOk(n) && D.DiskOk(m) && D.Next(n, D.Remove(c)) == Some(m) && Mirrors(n, host)
    ensures Mirrors(m, after) && after == C.RemovedFrom(host, c)
  {
    hide D.DiskOk, D.Next, Remembered, FilesOf, D.ContentOf;
    after := C.RemovedFrom(host, c);
    RemoveContents(n, c, m);
    forall x: Id
      ensures (x in FilesOf(m) <==> x in after.files) && (x in FilesOf(m) ==> FilesOf(m)[x] == after.files[x])
    {
      FilesAre(n, x);
      FilesAre(m, x);
    }
    assert FilesOf(m) == after.files;
    forall x: Id | D.ContentOf(m, x).Some? ensures (x, D.ContentOf(m, x).value) in after.past {
      HasPast(n, host, x);
    }
    RememberedOn(n, D.Remove(c), m, host.past, after.past);
  }

  lemma RemoveContents(n: D.Disk, c: Id, m: D.Disk)
    requires D.Next(n, D.Remove(c)) == Some(m)
    ensures m.acked == n.acked - {c} && forall x: Id :: D.ContentOf(m, x) == if x == c then None else D.ContentOf(n, x)
  {
  }

  lemma CrashMoves(n: D.Disk, step: D.Step, m: D.Disk, host: C.Host) returns (after: C.Host)
    requires D.DiskOk(n) && D.DiskOk(m) && step.Crash? && D.Next(n, step) == Some(m) && Mirrors(n, host)
    ensures Mirrors(m, after) && C.Survives(host, after.files) && after == host.(files := after.files)
  {
    after := host.(files := FilesOf(m));
    assert m.acked == n.acked && m.journal == [m.dir];
    forall c: Id | c in host.durable && c in host.files ensures c in after.files && after.files[c] == host.files[c] {
      D.AckedStepStays(n, step, m, c);
      FilesAre(n, c);
      FilesAre(m, c);
    }
    forall c: Id | D.ContentOf(m, c).Some? ensures (c, D.ContentOf(m, c).value) in host.past {
      D.CrashRestoresAMoment(n, step, m, c);
    }
    forall c: Id | c in after.files ensures (c, after.files[c]) in host.past {
      FilesAre(m, c);
    }
    assert C.Survives(host, after.files);
    forall i: nat, c: Id | i < |m.journal| && D.ContentIn(m, m.journal[i], c).Some?
      ensures (c, D.ContentIn(m, m.journal[i], c).value) in host.past
    {
      assert D.ContentIn(m, m.journal[i], c) == D.ContentOf(m, c);
    }
  }

  /** Every call, failure, crash or restart of a disk is one of the moves of a host, or none. */
  lemma StepMoves(n: D.Disk, step: D.Step, m: D.Disk, host: C.Host) returns (after: C.Host)
    requires D.DiskOk(n) && D.Next(n, step) == Some(m) && Mirrors(n, host)
    ensures Mirrors(m, after) && Move(host, after)
  {
    hide D.DiskOk, D.Next, Mirrors;
    D.StepKeeps(n, step, m);
    if step.Crash? {
      after := CrashMoves(n, step, m, host);
    } else if step.Link? {
      after := LinkMoves(n, m, host);
    } else if step.Remove? {
      after := RemoveMoves(n, step.chunk, m, host);
    } else if step.SyncDir? && n.phase.Settling? {
      after := SettleMoves(n, m, host);
    } else {
      after := host;
      QuietContents(n, step, m, 0);
      forall c: Id ensures D.ContentOf(m, c) == D.ContentOf(n, c) {
        QuietContents(n, step, m, c);
      }
      QuietStep(n, step, m, host);
    }
  }

  /** A whole run of a disk, crashes included, is a sequence of such moves. */
  lemma {:induction false} RunMoves(n: D.Disk, steps: seq<D.Step>, m: D.Disk, host: C.Host) returns (hosts: seq<C.Host>)
    requires D.DiskOk(n) && D.Run(n, steps) == Some(m) && Mirrors(n, host)
    ensures |hosts| == |steps| + 1 && hosts[0] == host && Mirrors(m, hosts[|steps|])
    ensures forall i :: 0 <= i < |steps| ==> Move(hosts[i], hosts[i + 1])
    decreases |steps|
  {
    hide D.DiskOk, D.Next, Mirrors, Move;
    if steps == [] {
      hosts := [host];
    } else {
      var mid := D.Next(n, steps[0]).value;
      D.StepKeeps(n, steps[0], mid);
      var next := StepMoves(n, steps[0], mid, host);
      var rest := RunMoves(mid, steps[1..], m, next);
      hosts := [host] + rest;
      forall i | 0 <= i < |steps| ensures Move(hosts[i], hosts[i + 1]) {
        if i > 0 {
          assert Move(rest[i - 1], rest[i]);
        }
      }
    }
  }

  /** A new disk is a new host, so all a disk ever does are such moves from an empty host. */
  lemma NewDiskMoves(capacity: nat, instance: Id, volume: Id, steps: seq<D.Step>, m: D.Disk)
    returns (hosts: seq<C.Host>)
    requires D.Run(D.Empty(capacity), steps) == Some(m)
    ensures |hosts| == |steps| + 1 && hosts[0] == C.Host(instance, volume, map[], {}, {}) && Mirrors(m, hosts[|steps|])
    ensures forall i :: 0 <= i < |steps| ==> Move(hosts[i], hosts[i + 1])
  {
    D.EmptyIsOk(capacity);
    assert FilesOf(D.Empty(capacity)) == map[];
    hide D.Run, Move, D.DiskOk;
    hosts := RunMoves(D.Empty(capacity), steps, m, C.Host(instance, volume, map[], {}, {}));
  }

  // ---------------------------------------------------------------- moves are actions

  /** A request for writing these bytes as this chunk on this node, which the node must honour: an upload ticket that
      has not run out, or a repair's. */
  ghost predicate Ordered(w: C.World, n: Id, chunk: Id, data: Bytes) {
    || (exists p :: && p in w.svc.tickets && p.node == n && p.chunk == chunk && C.AtHost(w, n, p.volume, p.instance)
                    && w.svc.now <= p.expires && C.Matches(data, p.length, p.digest))
    || (exists copy :: && copy in w.svc.copies && copy.snap.target == n && copy.snap.chunk == chunk
                       && C.AtHost(w, n, copy.snap.volume, copy.snap.instance) && copy.snap.digest.Some?
                       && C.Matches(data, copy.snap.length, copy.snap.digest.value))
  }

  /** The disk acts on a request that was made: what it publishes, acknowledges or removes was asked for. */
  ghost predicate Asked(w: C.World, n: Id, disk: D.Disk, step: D.Step) {
    && (step.Link? && disk.phase.Flushed? ==> Ordered(w, n, disk.phase.claims.chunk, disk.phase.data))
    && (step.SyncDir? && disk.phase.Settling? && D.ContentOf(disk, disk.phase.chunk).Some? ==>
          Ordered(w, n, disk.phase.chunk, D.ContentOf(disk, disk.phase.chunk).value))
    && (step.Remove? ==>
          exists r :: && r in w.svc.removals && r.node == n && r.chunk == step.chunk
                      && C.AtHost(w, n, r.snap.volume, r.snap.instance)
                      && Fenced(w.svc.db, w.svc.now, DeleteOf(r.chunk, r.node), r.token))
  }

  /** The action changes the one host, and nothing about the service. */
  ghost predicate Acts(cfg: Config, w: C.World, action: C.Action, n: Id, after: C.Host)
    requires cfg.Valid() && n in w.hosts
  {
    var v := C.Do(cfg, w, action);
    v.Some? && v.value.svc == w.svc && v.value.hosts == w.hosts[n := after]
  }

  lemma WriteIsAction(cfg: Config, w: C.World, n: Id, chunk: Id, data: Bytes, acked: bool) returns (action: C.Action)
    requires cfg.Valid() && n in w.hosts && Ordered(w, n, chunk, data) && C.Accepts(w.hosts[n], chunk, data)
    ensures Acts(cfg, w, action, n, C.WrittenOn(w.hosts[n], chunk, data, acked))
  {
    hide C.Matches, C.WrittenOn;
    if p :| && p in w.svc.tickets && p.node == n && p.chunk == chunk && C.AtHost(w, n, p.volume, p.instance)
            && w.svc.now <= p.expires && C.Matches(data, p.length, p.digest)
    {
      action := C.Put(p, data, acked);
    } else {
      var copy :| && copy in w.svc.copies && copy.snap.target == n && copy.snap.chunk == chunk
                  && C.AtHost(w, n, copy.snap.volume, copy.snap.instance) && copy.snap.digest.Some?
                  && C.Matches(data, copy.snap.length, copy.snap.digest.value);
      action := C.PutCopy(copy, data, acked);
    }
  }

  /** Every call of a node's disk that acts on a request is an action of the cluster, and so is every crash; all
      other calls leave the cluster as it is. */
  lemma StepIsAction(cfg: Config, w: C.World, n: Id, disk: D.Disk, step: D.Step, m: D.Disk)
    returns (action: Option<C.Action>, after: C.Host)
    requires cfg.Valid() && n in w.hosts && D.DiskOk(disk) && D.Next(disk, step) == Some(m) && Mirrors(disk, w.hosts[n])
    requires Asked(w, n, disk, step)
    ensures Mirrors(m, after)
    ensures action.None? ==> after == w.hosts[n]
    ensures action.Some? ==> Acts(cfg, w, action.value, n, after)
  {
    hide D.DiskOk, D.Next, Mirrors, Ordered, D.ContentOf, Fenced;
    D.StepKeeps(disk, step, m);
    action, after := None, w.hosts[n];
    if step.Crash? {
      after := CrashMoves(disk, step, m, w.hosts[n]);
      action := Some(C.Crash(n, after.files));
    } else if step.Link? {
      after := LinkMoves(disk, m, w.hosts[n]);
      var put := WriteIsAction(cfg, w, n, disk.phase.claims.chunk, disk.phase.data, false);
      action := Some(put);
    } else if step.Remove? {
      after := RemoveMoves(disk, step.chunk, m, w.hosts[n]);
      var r :| && r in w.svc.removals && r.node == n && r.chunk == step.chunk
          && C.AtHost(w, n, r.snap.volume, r.snap.instance)
               && Fenced(w.svc.db, w.svc.now, DeleteOf(r.chunk, r.node), r.token);
      action := Some(C.Remove(r));
    } else if step.SyncDir? && disk.phase.Settling? {
      after := SettleMoves(disk, m, w.hosts[n]);
      MirroredContent(disk, w.hosts[n], disk.phase.chunk);
      var put := WriteIsAction(cfg, w, n, disk.phase.chunk, w.hosts[n].files[disk.phase.chunk], true);
      action := Some(put);
    } else {
      QuietContents(disk, step, m, 0);
      forall c: Id ensures D.ContentOf(m, c) == D.ContentOf(disk, c) {
        QuietContents(disk, step, m, c);
      }
      QuietStep(disk, step, m, w.hosts[n]);
    }
  }

  lemma MirroredContent(n: D.Disk, host: C.Host, c: Id)
    requires Mirrors(n, host) && c in host.files
    ensures D.ContentOf(n, c) == Some(host.files[c])
  {
    FilesAre(n, c);
  }
}
