/** The storage node as it is written: requests are checked, then served by a fixed sequence of system calls.
    Every call is a step of module Durability, so what is proved there for all runs, crashes included, holds for
    the node at every moment of every request. */
module Storage {
  import opened Octets
  import opened Schema
  import opened Sums
  import opened Durability

  /** Which system calls fail during a request: a write after so many bytes, the others outright; `cleanup` is the
      removal of the temporary file after a failure. */
  datatype Faults = Faults(write: Option<nat>, fsync: bool, link: bool, unlink: bool, directory: bool, cleanup: bool) {
    predicate Any() {
      write.Some? || fsync || link || unlink || directory
    }
  }

  const MAX_FILE: nat := 4 * 1024 * 1024

  class Storage {
    const nodeId: Id
    const volume: Id
    const instance: Id
    var node: Disk
    /** Every step taken since the process started. */
    ghost var trace: seq<Step>
    ghost const origin: Disk

    ghost predicate Valid()
      reads this
    {
      DiskOk(node) && node.phase.Idle? && DiskOk(origin) && Run(origin, trace) == Some(node)
    }

    /** In the middle of a request. */
    ghost predicate Busy()
      reads this
    {
      DiskOk(node) && DiskOk(origin) && Run(origin, trace) == Some(node)
    }

    constructor (nodeId: Id, volume: Id, instance: Id, node: Disk)
      requires DiskOk(node) && node.phase.Idle?
      ensures Valid() && this.node == node
      ensures this.nodeId == nodeId && this.volume == volume && this.instance == instance
    {
      this.nodeId, this.volume, this.instance := nodeId, volume, instance;
      this.node, this.trace, this.origin := node, [], node;
    }

    /** Note a step that has just been taken. */
    ghost method Recorded(before: Disk, step: Step)
      requires DiskOk(before) && DiskOk(origin) && Run(origin, trace) == Some(before)
      requires Next(before, step) == Some(node)
      modifies this`trace
      ensures Busy() && trace == old(trace) + [step]
    {
      hide Next, DiskOk, Run;
      RunSnoc(origin, trace, before, step, node);
      StepKeeps(before, step, node);
      trace := trace + [step];
    }

    /** Whether a chunk is in the directory. */
    predicate Has(c: Id)
      reads this
    {
      ChunkFile(c) in node.dir
    }

    // -------------------------------------------------------------- system calls

    method OpenTemp(claims: Claims, data: Bytes, tag: Id, inode: Id)
      requires Busy() && node.phase.Idle? && Fits(data, claims) && !Has(claims.chunk) && Temp(tag) !in node.dir
      requires inode !in node.inodes
      requires Used(node, node.dir) + |data| <= node.capacity
      modifies this
      ensures Busy() && trace == old(trace) + [Open(claims, data, tag, inode)]
      ensures Next(old(node), Open(claims, data, tag, inode)) == Some(node)
      ensures node.phase == Writing(tag, inode, claims, data, 0) && !Has(claims.chunk) && SameContents(old(node), node)
    {
      hide DiskOk, Used;
      ghost var before := node;
      node := Renamed(node.(inodes := node.inodes[inode := Inode([], false, claims)]), node.dir[Temp(tag) := inode],
                      Writing(tag, inode, claims, data, 0));
      Recorded(before, Open(claims, data, tag, inode));
      OpenSame(before, claims, data, tag, inode, node);
    }

    method WriteSome(count: nat)
      requires Busy() && node.phase.Writing? && 0 < count <= |node.phase.data| - node.phase.done
      modifies this
      ensures Busy() && trace == old(trace) + [Write(count)] && Next(old(node), Write(count)) == Some(node)
      ensures node.phase == old(node).phase.(done := old(node).phase.done + count) && node.dir == old(node).dir
      ensures SameContents(old(node), node)
    {
      hide Used;
      ghost var before := node;
      var p := node.phase;
      var file := node.inodes[p.inode];
      node := node.(inodes := node.inodes[p.inode := file.(content := file.content + p.data[p.done..p.done + count],
          synced := false)],
                    phase := p.(done := p.done + count));
      FileSame(before, Write(count), node);
      Recorded(before, Write(count));
    }

    method Flush()
      requires Busy() && node.phase.Writing? && node.phase.done == |node.phase.data|
      modifies this
      ensures Busy() && trace == old(trace) + [Fsync] && Next(old(node), Fsync) == Some(node)
      ensures var p := old(node).phase; node.phase == Flushed(p.tag, p.inode, p.claims, p.data)
      ensures node.dir == old(node).dir && SameContents(old(node), node)
    {
      hide Used;
      ghost var before := node;
      var p := node.phase;
      node := node.(inodes := node.inodes[p.inode := node.inodes[p.inode].(synced := true)],
                    phase := Flushed(p.tag, p.inode, p.claims, p.data));
      FileSame(before, Fsync, node);
      Recorded(before, Fsync);
    }

    method Publish()
      requires Busy() && node.phase.Flushed?
      modifies this
      ensures Busy() && trace == old(trace) + [Link] && Next(old(node), Link) == Some(node)
      ensures var p := old(node).phase;
              && node.phase == Linked(p.tag, p.claims.chunk) && ContentOf(node, p.claims.chunk) == Some(p.data)
              && OthersSame(old(node), node, p.claims.chunk)
    {
      hide Used;
      ghost var before := node;
      var p := node.phase;
      node := Renamed(node, node.dir[ChunkFile(p.claims.chunk) := p.inode], Linked(p.tag, p.claims.chunk));
      Recorded(before, Link);
    }

    method Tidy()
      requires Busy() && node.phase.Linked?
      modifies this
      ensures Busy() && trace == old(trace) + [Unlink] && Next(old(node), Unlink) == Some(node)
      ensures node.phase == Settling(old(node).phase.chunk) && SameContents(old(node), node)
    {
      hide Used;
      ghost var before := node;
      node := Renamed(node, node.dir - {Temp(node.phase.tag)}, Settling(node.phase.chunk));
      Recorded(before, Unlink);
    }

    /** Check a chunk that is already there against a repeated write. */
    method Compare(claims: Claims, data: Bytes)
      requires Busy() && node.phase.Idle? && Fits(data, claims) && ContentOf(node, claims.chunk) == Some(data)
      modifies this
      ensures Busy() && trace == old(trace) + [Recheck(claims, data)]
      ensures Next(old(node), Recheck(claims, data)) == Some(node)
      ensures node.phase == Settling(claims.chunk) && SameContents(old(node), node)
    {
      hide Used;
      ghost var before := node;
      node := node.(phase := Settling(claims.chunk));
      Recorded(before, Recheck(claims, data));
    }

    method Sync()
      requires Busy() && (node.phase.Settling? || node.phase.Removing?)
      modifies this
      ensures Valid() && trace == old(trace) + [SyncDir] && Next(old(node), SyncDir) == Some(node)
      ensures SameContents(old(node), node)
      ensures old(node).phase.Settling? ==> old(node).phase.chunk in node.acked
      ensures node.acked == old(node).acked + if old(node).phase.Settling? then {old(node).phase.chunk} else {}
    {
      hide Used;
      ghost var before := node;
      node := node.(journal := [node.dir], phase := Idle,
                    acked := if node.phase.Settling? then node.acked + {node.phase.chunk} else node.acked);
      Recorded(before, SyncDir);
    }

    /** Give up: the temporary file goes away if it can still be removed, whatever was published stays. */
    method GiveUp(tidied: bool)
      requires Busy() && !node.phase.Idle? && !node.phase.Down?
      modifies this
      ensures Valid() && trace == old(trace) + [Abort(tidied)] && Next(old(node), Abort(tidied)) == Some(node)
      ensures SameContents(old(node), node) && node.acked == old(node).acked
    {
      hide Used;
      ghost var before := node;
      if node.phase.Settling? || node.phase.Removing? || !tidied {
        node := node.(phase := Idle);
      } else {
        node := Renamed(node, node.dir - {Temp(node.phase.tag)}, Idle);
      }
      Recorded(before, Abort(tidied));
    }

    method Drop(c: Id)
      requires Valid()
      modifies this
      ensures Busy() && trace == old(trace) + [Durability.Remove(c)]
      ensures Next(old(node), Durability.Remove(c)) == Some(node)
      ensures node.phase == Removing(c) && !Has(c) && c !in node.acked
      ensures forall x :: x != c ==> ContentOf(node, x) == ContentOf(old(node), x)
    {
      hide Used;
      ghost var before := node;
      node := Renamed(node.(acked := node.acked - {c}), node.dir - {ChunkFile(c)}, Removing(c));
      Recorded(before, Durability.Remove(c));
    }

    // -------------------------------------------------------------- requests

    /** The bytes stored under chunk names, summed file by file. */
    method UsedBytes() returns (sum: int)
      requires Valid()
      ensures sum == Used(node, node.dir)
    {
      var rest := Chunks(node.dir);
      sum := 0;
      while rest != {}
        invariant rest <= Chunks(node.dir) && sum + Total(rest, SizeIn(node, node.dir)) == Used(node, node.dir)
        decreases |rest|
      {
        var c :| c in rest;
        NamedIsWhole(node, c);
        TotalTakeOut(rest, SizeIn(node, node.dir), c);
        sum := sum + |node.inodes[node.dir[ChunkFile(c)]].content|;
        rest := rest - {c};
      }
    }

    /** A fault that no new chunk of these bytes can be written past: the first write fails, or one of the calls after
        the writes. */
    predicate Spoils(faults: Faults, data: Bytes) {
      (faults.write == Some(0) && |data| > 0) || faults.fsync || faults.link || faults.unlink || faults.directory
    }

    predicate Addressed(ticket: Ticket) {
      ticket.node == nodeId && ticket.volume == volume && ticket.instance == instance
    }

    /** A ticket this process must honour: still valid, for this node, volume and process, and for these very bytes. */
    predicate Accepts(ticket: Ticket, data: Bytes, now: Time) {
      now <= ticket.expires && Addressed(ticket) && |data| == ticket.length && Sha(data) == ticket.digest
    }

    /** Store a chunk under whatever ticket is shown. On success it is in place, complete and acknowledged. A chunk that
        is there already is never replaced: other bytes are a conflict, whichever ticket carries them. A failed request
        changes no chunk, though the new one may already be in place. */
    method Put(ticket: Ticket, data: Bytes, now: Time, faults: Faults, tag: Id, inode: Id) returns (r: Result<()>)
      requires Valid()
      requires Temp(tag) !in node.dir && inode !in node.inodes
      modifies this
      ensures Valid() && old(trace) <= trace && OthersSame(old(node), node, ticket.chunk)
      ensures r.Ok? ==>
                Accepts(ticket, data, now) && ContentOf(node, ticket.chunk) == Some(data) && ticket.chunk in node.acked
      ensures r == Fail(TicketExpired) <==> ticket.expires < now
      ensures r == Fail(Unauthorized) <==> now <= ticket.expires && !Addressed(ticket)
      ensures r == Fail(ChecksumMismatch) <==> now <= ticket.expires && Addressed(ticket) && !Accepts(ticket, data, now)
      ensures r.Ok? || r.code in {TicketExpired, Unauthorized, ChecksumMismatch, ChecksumConflict, OutOfCapacity,
                                  IoError}
      ensures r == Fail(ChecksumConflict) <==>
                && Accepts(ticket, data, now)
                && ContentOf(old(node), ticket.chunk).Some? && ContentOf(old(node), ticket.chunk).value != data
      ensures r == Fail(OutOfCapacity) <==>
                && Accepts(ticket, data, now)
                && ContentOf(old(node), ticket.chunk).None?
                && old(node).capacity < Used(old(node), old(node).dir) + |data|
      ensures ContentOf(old(node), ticket.chunk).Some? ==>
                ContentOf(node, ticket.chunk) == ContentOf(old(node), ticket.chunk)
      ensures r.Fail? && !r.code.IoError? ==> node == old(node) && trace == old(trace)
      ensures r == Fail(IoError) ==>
                ContentOf(node, ticket.chunk) == ContentOf(old(node), ticket.chunk)
                    || ContentOf(node, ticket.chunk) == Some(data)
      ensures r == Fail(IoError) ==> faults.Any()
      ensures Accepts(ticket, data, now) && ContentOf(old(node), ticket.chunk) == Some(data) ==>
                r == if faults.directory then Fail(IoError) else Ok(())
      ensures && Accepts(ticket, data, now) && ContentOf(old(node), ticket.chunk).None?
              && Used(old(node), old(node).dir) + |data| <= old(node).capacity ==>
                && (Spoils(faults, data) ==> r == Fail(IoError))
                && (faults.fsync || faults.link ==> ContentOf(node, ticket.chunk).None?)
    {
      hide DiskOk, Used, Next, Run;
      if ticket.expires < now {
        return Fail(TicketExpired);
      }
      if ticket.node != nodeId || ticket.volume != volume || ticket.instance != instance {
        return Fail(Unauthorized);
      }
      if |data| != ticket.length || Sha(data) != ticket.digest {
        return Fail(ChecksumMismatch);
      }
      var claims := Claims(ticket.chunk, ticket.length, ticket.digest);
      if ChunkFile(claims.chunk) in node.dir {
        NamedIsWhole(node, claims.chunk);
        var existing := node.inodes[node.dir[ChunkFile(claims.chunk)]].content;
        if |existing| != |data| || Sha(existing) != ticket.digest {
          return Fail(ChecksumConflict);
        }
        Compare(claims, data);
        if faults.directory {
          GiveUp(true);
          return Fail(IoError);
        }
        Sync();
        return Ok(());
      }
      var used := UsedBytes();
      if used + |data| > node.capacity {
        return Fail(OutOfCapacity);
      }
      r := WriteNew(claims, data, faults, tag, inode);
    }

    method WriteNew(claims: Claims, data: Bytes, faults: Faults, tag: Id, inode: Id) returns (r: Result<()>)
      requires Valid() && Fits(data, claims) && !Has(claims.chunk) && Temp(tag) !in node.dir && inode !in node.inodes
      requires Used(node, node.dir) + |data| <= node.capacity
      modifies this
      ensures Valid() && old(trace) <= trace && OthersSame(old(node), node, claims.chunk)
      ensures r.Ok? ==> ContentOf(node, claims.chunk) == Some(data) && claims.chunk in node.acked
      ensures r.Fail? ==> r.code.IoError? && faults.Any()
      ensures r.Fail? ==>
                ContentOf(node, claims.chunk) == ContentOf(old(node), claims.chunk)
                    || ContentOf(node, claims.chunk) == Some(data)
      ensures Spoils(faults, data) ==> r.Fail?
      ensures faults.fsync || faults.link ==> ContentOf(node, claims.chunk) == ContentOf(old(node), claims.chunk)
    {
      hide DiskOk, Used, Next, Run;
      OpenTemp(claims, data, tag, inode);
      var view := data;
      while view != []
        invariant Busy() && node.phase == Writing(tag, inode, claims, data, |data| - |view|) && |view| <= |data|
        invariant view == data[|data| - |view|..]
        invariant faults.write == Some(0) ==> |view| == |data|
        invariant old(trace) <= trace
        invariant !Has(claims.chunk) && SameContents(old(node), node)
        decreases |view|
      {
        if faults.write.Some? && faults.write.value <= |data| - |view| {
          GiveUp(!faults.cleanup);
          return Fail(IoError);
        }
        var count: nat :| 1 <= count <= |view|;
        WriteSome(count);
        view := view[count..];
      }
      if faults.fsync {
        GiveUp(!faults.cleanup);
        return Fail(IoError);
      }
      Flush();
      if faults.link {
        GiveUp(!faults.cleanup);
        return Fail(IoError);
      }
      Publish();
      if faults.unlink {
        GiveUp(!faults.cleanup);
        return Fail(IoError);
      }
      Tidy();
      if faults.directory {
        GiveUp(true);
        return Fail(IoError);
      }
      Sync();
      r := Ok(());
    }

    /** Read a chunk, provided it is there, of bounded size, and what the caller expects. */
    method Get(c: Id, length: nat, digest: Digest) returns (r: Result<Bytes>)
      ensures match ContentOf(node, c)
              case None => r == Fail(Missing)
              case Some(content) =>
                r == if |content| <= MAX_FILE && Fits(content, Claims(c, length, digest)) then Ok(content)
                    else Fail(Corrupt)
    {
      if ChunkFile(c) !in node.dir || node.dir[ChunkFile(c)] !in node.inodes {
        return Fail(Missing);
      }
      var content := node.inodes[node.dir[ChunkFile(c)]].content;
      if |content| > MAX_FILE {
        return Fail(Corrupt);
      }
      if |content| != length || Sha(content) != digest {
        return Fail(Corrupt);
      }
      r := Ok(content);
    }

    method Stat(c: Id, length: nat, digest: Digest) returns (r: Result<()>)
      ensures r.Ok? <==> ContentOf(node, c).Some? && |ContentOf(node, c).value| <= MAX_FILE
                         && Fits(ContentOf(node, c).value, Claims(c, length, digest))
    {
      var content := Get(c, length, digest);
      r := if content.Ok? then Ok(()) else Fail(content.code);
    }

    /** One page of the directory. The ids increase and none is left out between `start` and the last one listed;
        there is more if and only if some chunk lies beyond, and only a full page stops before it. */
    method Inventory(start: Id) returns (ids: seq<Id>, more: bool)
      ensures |ids| <= 256 && forall i, j :: 0 <= i < j < |ids| ==> ids[i] < ids[j]
      ensures forall c :: c in ids <==> Has(c) && start <= c && (more ==> ids != [] && c <= ids[|ids| - 1])
      ensures more <==> exists c :: Has(c) && start <= c && c !in ids
      ensures more ==> |ids| == 256
    {
      var (page, next) := Page(Chunks(node.dir), start);
      PageIsExact(Chunks(node.dir), start);
      ChunkNames(node.dir);
      ids, more := page, next.Some?;
    }

    /** Remove a chunk, if the caller knows this process and volume; removing what is not there succeeds. */
    method Remove(c: Id, volume: Id, instance: Id, faults: Faults) returns (r: Result<()>)
      requires Valid()
      modifies this
      ensures Valid() && OthersSame(old(node), node, c)
      ensures volume != this.volume || instance != this.instance ==> r == Fail(Stale) && node == old(node)
      ensures volume == this.volume && instance == this.instance ==>
                ContentOf(node, c).None? && c !in node.acked && r == if faults.directory then Fail(IoError) else Ok(())
    {
      hide DiskOk, Used, Next, Run;
      if instance != this.instance || volume != this.volume {
        return Fail(Stale);
      }
      Drop(c);
      if faults.directory {
        GiveUp(true);
        return Fail(IoError);
      }
      Sync();
      r := Ok(());
    }
  }

  ghost predicate SameContents(n: Disk, m: Disk) {
    forall x :: ContentOf(m, x) == ContentOf(n, x)
  }

  ghost predicate OthersSame(n: Disk, m: Disk, c: Id) {
    forall x :: x != c ==> ContentOf(m, x) == ContentOf(n, x)
  }

  /** A file without a chunk name can be written without any chunk noticing. */
  lemma OpenSame(n: Disk, claims: Claims, data: Bytes, tag: Id, inode: Id, m: Disk)
    requires DiskOk(n) && Next(n, Open(claims, data, tag, inode)) == Some(m)
    ensures SameContents(n, m)
  {
    forall x ensures ContentOf(m, x) == ContentOf(n, x) {
      if ChunkFile(x) in n.dir {
        NamedIsWhole(n, x);
      }
    }
  }

  lemma FileSame(n: Disk, step: Step, m: Disk)
    requires DiskOk(n) && n.phase.Writing? && (step.Write? || step.Fsync?) && Next(n, step) == Some(m)
    ensures SameContents(n, m)
  {
    hide Used;
    forall x ensures ContentOf(m, x) == ContentOf(n, x) {
      if ChunkFile(x) in n.dir {
        NamedIsWhole(n, x);
      }
    }
  }

  lemma {:induction false} RunSnoc(n: Disk, steps: seq<Step>, mid: Disk, step: Step, after: Disk)
    requires Run(n, steps) == Some(mid) && Next(mid, step) == Some(after)
    ensures Run(n, steps + [step]) == Some(after)
    decreases |steps|
  {
    hide Next;
    if steps == [] {
      assert ([] + [step])[1..] == [];
      assert Run(after, []) == Some(after);
    } else {
      RunSnoc(Next(n, steps[0]).value, steps[1..], mid, step, after);
      assert (steps + [step])[1..] == steps[1..] + [step];
    }
  }

  lemma NamedIsWhole(n: Disk, c: Id)
    requires DiskOk(n) && (ChunkFile(c) in n.dir || c in Chunks(n.dir))
    ensures ChunkFile(c) in n.dir && Whole(n, n.dir, c) && ContentOf(n, c).Some?
  {
    hide Used;
    Present(n);
    ChunkNames(n.dir);
  }
}
