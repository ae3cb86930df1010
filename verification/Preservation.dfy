/** Every transaction keeps the invariant and only makes legal moves. */
module Preservation {
  import opened Schema
  import opened Transactions
  import opened Accounting
  import opened Invariants

  ghost predicate Good(t: Tables) {
    Sound(t) && Balanced(t)
  }

  ghost predicate Advances(t: Tables, u: Tables) {
    Grows(t, u) && RowMoves(t, u)
  }

  lemma GoodRows(t: Tables)
    requires Good(t)
    ensures RowsPlaced(t) && Rows(t) && Tasks(t)
    ensures forall c :: c in t.chunks ==> Linked(t, c)
  {
  }

  /** Transactions that change no object, upload or chunk. */
  lemma PlainAdvance(t: Tables, u: Tables)
    requires u.objects == t.objects && u.uploads == t.uploads && u.chunks == t.chunks
    requires t.nodes.Keys <= u.nodes.Keys && t.replicas.Keys <= u.replicas.Keys && t.tasks.Keys <= u.tasks.Keys
    requires t.retired <= u.retired
    requires forall k :: k in t.replicas ==> StateEdge(t.replicas[k].state, u.replicas[k].state)
    ensures Advances(t, u)
  {
  }

  // ---------------------------------------------------------------- tasks

  lemma TaskBooks(t: Tables, u: Tables)
    requires Balanced(t) && u == t.(tasks := u.tasks)
    ensures Balanced(u)
  {
    hide NodeBalanced;
    UntouchedBooks(t, u);
  }

  lemma ClaimGood(t: Tables, cfg: Config, now: Time, key: TaskKey, token: Id)
    requires Good(t) && Claimable(t, now, key)
    ensures Good(Claim(t, cfg, now, key, token)) && Advances(t, Claim(t, cfg, now, key, token))
  {
    hide Sound, Balanced, Advances;
    SetTaskSound(t, key, Task(Running, now + cfg.lease, Some(token)));
    TaskBooks(t, Claim(t, cfg, now, key, token));
    PlainAdvance(t, Claim(t, cfg, now, key, token));
  }

  lemma GiveBackGood(t: Tables, now: Time, key: TaskKey, token: Id)
    requires Good(t)
    ensures Good(GiveBack(t, now, key, token)) && Advances(t, GiveBack(t, now, key, token))
  {
    hide Sound, Balanced, Advances;
    var u := GiveBack(t, now, key, token);
    if u != t {
      SetTaskSound(t, key, u.tasks[key]);
    }
    TaskBooks(t, u);
    PlainAdvance(t, u);
  }

  lemma FinishGood(t: Tables, key: TaskKey)
    requires Good(t) && key in t.tasks
    requires key.DeleteOf? && Key(key.chunk, key.node) in t.replicas ==>
              t.replicas[Key(key.chunk, key.node)].charge.NoCharge?
    ensures Good(FinishTask(t, key)) && Advances(t, FinishTask(t, key))
  {
    hide Sound, Balanced, Advances;
    SetTaskSound(t, key, t.tasks[key].(state := Done, lease := 0.0));
    TaskBooks(t, FinishTask(t, key));
    PlainAdvance(t, FinishTask(t, key));
  }

  lemma EnqueueGood(t: Tables, key: TaskKey, lease: Time)
    requires Good(t)
    requires key.RepairOf? ==> PhaseOf(t, key.chunk) == Some(Published)
    requires key.DeleteOf? ==> PhaseOf(t, key.chunk) != Some(Staging)
    ensures Good(Enqueue(t, key, lease)) && Advances(t, Enqueue(t, key, lease))
  {
    hide Sound, Balanced, Advances, PhaseOf;
    EnqueueSound(t, key, lease);
    TaskBooks(t, Enqueue(t, key, lease));
    PlainAdvance(t, Enqueue(t, key, lease));
  }

  lemma EnqueueShape(t: Tables, key: TaskKey, lease: Time)
    ensures Enqueue(t, key, lease) == t.(tasks := Enqueue(t, key, lease).tasks)
    ensures t.tasks.Keys <= Enqueue(t, key, lease).tasks.Keys
  {
  }

  // ---------------------------------------------------------------- single rows

  lemma SetRowGood(t: Tables, k: Key, r: Replica)
    requires Good(t) && k in t.replicas && k.node in t.nodes && r.charge == t.replicas[k].charge
    requires RowOk(SetRow(t, k, r), k)
    requires r.state.Reserved? ==> t.replicas[k].state.Reserved?
    ensures Good(SetRow(t, k, r))
  {
    hide Sound, Balanced, RowOk;
    SetRowSound(t, k, r);
    SetRowBalances(t, k, r);
  }

  /** `u` differs from `t` in rows, nodes and tasks only. */
  ghost predicate OnlyRows(t: Tables, u: Tables) {
    && u.objects == t.objects && u.uploads == t.uploads && u.chunks == t.chunks && u.retired == t.retired
    && u.nodes.Keys == t.nodes.Keys && u.replicas.Keys == t.replicas.Keys
  }

  lemma OnlyRowsPhases(t: Tables, u: Tables)
    requires OnlyRows(t, u)
    ensures forall c :: PhaseOf(u, c) == PhaseOf(t, c)
  {
    PlainLinks(t, u);
    SamePhases(t, u);
  }

  lemma UnchargeGood(t: Tables, k: Key, length: int)
    requires Good(t) && (k.chunk in t.chunks ==> length == t.chunks[k.chunk].length)
    requires k in t.replicas && t.replicas[k].state.Reserved? ==> PhaseOf(t, k.chunk) != Some(Staging)
    ensures var u := Uncharge(t, k, length);
            && Good(u) && OnlyRows(t, u) && u.tasks == t.tasks
            && (k in t.replicas ==> u.replicas[k] == t.replicas[k].(charge := NoCharge))
            && (forall j :: j != k && j in t.replicas ==> u.replicas[j] == t.replicas[j])
  {
    hide Sound, Balanced, PhaseOf, Uncharge, OnlyRows;
    UnchargeSound(t, k, length);
    UnchargeBalances(t, k, length);
    UnchargeShape(t, k, length);
  }

  lemma UnchargeShape(t: Tables, k: Key, length: int)
    ensures var u := Uncharge(t, k, length);
            && OnlyRows(t, u) && u.tasks == t.tasks
            && (k in t.replicas ==> u.replicas[k] == t.replicas[k].(charge := NoCharge))
            && (forall j :: j != k && j in t.replicas ==> u.replicas[j] == t.replicas[j])
  {
    hide AddToNode;
    AddToNodeShape(t, k.node, -length, 0);
    AddToNodeShape(t, k.node, 0, -length);
  }

  lemma AddToNodeShape(t: Tables, n: Id, reserved: int, used: int)
    ensures var u := AddToNode(t, n, reserved, used); u == t.(nodes := u.nodes) && u.nodes.Keys == t.nodes.Keys
  {
  }

  lemma MarkBadGood(t: Tables, k: Key)
    requires Good(t) && k in t.replicas && t.replicas[k].state.Valid?
    ensures Good(SetRow(t, k, t.replicas[k].(state := Bad)))
  {
    hide Good, RowOk;
    GoodRows(t);
    BadRowOk(t, k);
    SetRowGood(t, k, t.replicas[k].(state := Bad));
  }

  function Reported(t: Tables, k: Key): Tables {
    if k in t.replicas && t.replicas[k].state.Valid? then SetRow(t, k, t.replicas[k].(state := Bad)) else t
  }

  lemma ReportedGood(t: Tables, k: Key)
    requires Good(t)
    ensures Good(Reported(t, k)) && OnlyRows(t, Reported(t, k)) && Reported(t, k).tasks == t.tasks
    ensures forall j :: j in t.replicas ==> StateEdge(t.replicas[j].state, Reported(t, k).replicas[j].state)
  {
    hide Good;
    if k in t.replicas && t.replicas[k].state.Valid? {
      MarkBadGood(t, k);
    }
  }

  lemma BadReplicaGood(t: Tables, oid: Id, owner: Id, c: Id, n: Id, u: Tables)
    requires Good(t) && BadReplica(t, oid, owner, c, n) == Ok(u)
    ensures Good(u) && Advances(t, u)
  {
    var t1 := Reported(t, Key(c, n));
    assert u == Enqueue(t1, RepairOf(c), 0.0) && PhaseOf(t, c) == Some(Published);
    hide Good, Advances, Enqueue, Reported, BadReplica, PhaseOf;
    ReportedGood(t, Key(c, n));
    OnlyRowsPhases(t, t1);
    EnqueueGood(t1, RepairOf(c), 0.0);
    EnqueueShape(t1, RepairOf(c), 0.0);
    PlainAdvance(t, u);
  }

  lemma BadRowOk(t: Tables, k: Key)
    requires RowsPlaced(t) && Rows(t) && k in t.replicas && t.replicas[k].state.Valid?
    ensures RowOk(SetRow(t, k, t.replicas[k].(state := Bad)), k)
  {
    hide Linked;
    assert RowOk(t, k);
    PlainLinks(t, SetRow(t, k, t.replicas[k].(state := Bad)));
    SamePhases(t, SetRow(t, k, t.replicas[k].(state := Bad)));
  }

  lemma SettleRowGood(t: Tables, n: Id, volume: Id, instance: Id, c: Id, length: int, valid: bool)
    requires Good(t) && (c in t.chunks ==> length == t.chunks[c].length)
    ensures Good(SettleRow(t, n, volume, instance, c, length, valid))
    ensures Advances(t, SettleRow(t, n, volume, instance, c, length, valid))
  {
    hide Sound, Balanced, Advances, Rows, Tasks, PhaseOf;
    GoodRows(t);
    var k, u := Key(c, n), SettleRow(t, n, volume, instance, c, length, valid);
    if k in t.replicas && n in t.nodes && t.nodes[n].volume == volume && t.nodes[n].instance == instance {
      var r := t.replicas[k].(state := if valid then Valid else Bad, volume := volume);
      var t1 := if t.replicas[k].state.Unverified? then SetRow(t, k, r) else t;
      SettledRowOk(t, k, volume, valid);
      if t.replicas[k].state.Unverified? {
        SetRowSound(t, k, r);
        SetRowBalances(t, k, r);
      }
      if !valid && t.replicas[k].volume != volume {
        UnchargeSound(t1, k, length);
        UnchargeBalances(t1, k, length);
      }
    }
    PlainAdvance(t, u);
  }

  lemma SettledRowOk(t: Tables, k: Key, volume: Id, valid: bool)
    requires RowsPlaced(t) && Rows(t) && k in t.replicas && t.nodes[k.node].volume == volume
    ensures t.replicas[k].state.Unverified?
            ==> RowOk(SetRow(t, k, t.replicas[k].(state := if valid then Valid else Bad, volume := volume)), k)
    ensures t.replicas[k].state.Reserved? ==> t.replicas[k].volume == volume
  {
    hide Linked;
    assert RowOk(t, k);
    var r := t.replicas[k].(state := if valid then Valid else Bad, volume := volume);
    PlainLinks(t, SetRow(t, k, r));
    SamePhases(t, SetRow(t, k, r));
  }

  lemma SettleListedGood(t: Tables, cfg: Config, now: Time, n: Id, volume: Id, c: Id)
    requires Good(t)
    ensures Good(SettleListed(t, cfg, now, n, volume, c)) && Advances(t, SettleListed(t, cfg, now, n, volume, c))
  {
    hide Good, Advances, Linked, HealthyNodes, Enqueue;
    PlainAdvance(t, t);
    if PhaseOf(t, c) != Some(Staging) {
      EnqueueGood(t, DeleteOf(c, n), now + cfg.CleanupDelay());
    }
  }

  // ---------------------------------------------------------------- deletion

  lemma DeleteBeginGood(t: Tables, cfg: Config, now: Time, c: Id, n: Id, token: Id, out: (Tables, DeleteSnap))
    requires Good(t) && DeleteBegin(t, cfg, now, c, n, token) == Ok(out)
    ensures Good(out.0) && Advances(t, out.0)
    ensures PhaseOf(t, c) != Some(Staging)
  {
    hide Sound, Balanced, Advances, Rows, Tasks, HealthyNodes;
    GoodRows(t);
    var k := Key(c, n);
    if k in t.replicas {
      var r := t.replicas[k].(state := Deleting);
      DeletingRowOk(t, now, k, token);
      SetRowSound(t, k, r);
      SetRowBalances(t, k, r);
    }
    PlainAdvance(t, out.0);
  }

  lemma DeletingRowOk(t: Tables, now: Time, k: Key, token: Id)
    requires RowsPlaced(t) && Rows(t) && k in t.replicas
    requires PhaseOf(t, k.chunk) != Some(Staging) && Fenced(t, now, DeleteOf(k.chunk, k.node), token)
    ensures RowOk(SetRow(t, k, t.replicas[k].(state := Deleting)), k)
  {
    hide Linked, PhaseOf;
    assert RowOk(t, k);
    var u := SetRow(t, k, t.replicas[k].(state := Deleting));
    PlainLinks(t, u);
    SamePhases(t, u);
  }

  /** The snapshot of a deletion still describes the chunk. */
  predicate DeleteSnapFits(t: Tables, c: Id, snap: DeleteSnap) {
    && (snap.length.Some? ==> c in t.chunks && t.chunks[c].length == snap.length.value)
    && (snap.length.None? ==> c !in t.chunks)
  }

  /** The row leaves the books and, if it was being deleted, is gone. */
  function Released(t: Tables, k: Key, length: Option<nat>): Tables {
    var t1 := if length.Some? then Uncharge(t, k, length.value) else t;
    if k in t1.replicas && t1.replicas[k].state.Deleting? then SetRow(t1, k, t1.replicas[k].(state := Gone)) else t1
  }

  lemma ReleasedGood(t: Tables, k: Key, length: Option<nat>)
    requires Good(t) && PhaseOf(t, k.chunk) != Some(Staging)
    requires if length.Some? then k.chunk in t.chunks && t.chunks[k.chunk].length == length.value
        else k.chunk !in t.chunks
    ensures var u := Released(t, k, length);
            && Good(u) && OnlyRows(t, u) && u.tasks == t.tasks
            && (k in u.replicas ==>
                  u.replicas[k].charge.NoCharge? && StateEdge(t.replicas[k].state, u.replicas[k].state))
            && (forall j :: j != k && j in t.replicas ==> u.replicas[j] == t.replicas[j])
  {
    hide Good, PhaseOf, Uncharge;
    GoodRows(t);
    if length.Some? {
      UnchargeGood(t, k, length.value);
      OnlyRowsPhases(t, Uncharge(t, k, length.value));
      GoneGood(Uncharge(t, k, length.value), k);
    }
  }

  lemma DeleteCommitGood(t: Tables, now: Time, c: Id, n: Id, token: Id, snap: DeleteSnap, u: Tables)
    requires Good(t) && DeleteCommit(t, now, c, n, token, snap) == Ok(u) && DeleteSnapFits(t, c, snap)
    ensures Good(u) && Advances(t, u)
  {
    hide Good, Advances, Uncharge, PhaseOf, Released, Rows, RowsPlaced;
    GoodRows(t);
    DeleteTaskPhase(t, c, n);
    ReleasedGood(t, Key(c, n), snap.length);
    DeleteCommitShape(t, now, c, n, token, snap);
    FinishGood(Released(t, Key(c, n), snap.length), DeleteOf(c, n));
    PlainAdvance(t, u);
  }

  lemma DeleteCommitShape(t: Tables, now: Time, c: Id, n: Id, token: Id, snap: DeleteSnap)
    requires DeleteCommit(t, now, c, n, token, snap).Ok? && DeleteOf(c, n) in Released(t, Key(c, n), snap.length).tasks
    ensures DeleteCommit(t, now, c, n, token,
                         snap) == Ok(FinishTask(Released(t, Key(c, n), snap.length), DeleteOf(c, n)))
  {
  }

  lemma DeleteTaskPhase(t: Tables, c: Id, n: Id)
    requires Tasks(t) && DeleteOf(c, n) in t.tasks
    ensures PhaseOf(t, c) != Some(Staging)
  {
    assert TaskOk(t, DeleteOf(c, n));
  }

  lemma GoneGood(t: Tables, k: Key)
    requires Good(t)
    requires k in t.replicas ==> t.replicas[k].charge.NoCharge? && PhaseOf(t, k.chunk) != Some(Staging)
    ensures k in t.replicas && t.replicas[k].state.Deleting? ==> Good(SetRow(t, k, t.replicas[k].(state := Gone)))
  {
    hide Sound, Balanced, Linked, PhaseOf, Rows, Tasks;
    GoodRows(t);
    if k in t.replicas && t.replicas[k].state.Deleting? {
      var u := SetRow(t, k, t.replicas[k].(state := Gone));
      PlainLinks(t, u);
      SamePhases(t, u);
      SetRowSound(t, k, t.replicas[k].(state := Gone));
      SetRowBalances(t, k, t.replicas[k].(state := Gone));
    }
  }

  // ---------------------------------------------------------------- repair

  /** A published chunk without reservations may get one. */
  lemma PlaceRepairGood(t: Tables, c: Id, n: Id, length: int)
    requires Good(t) && n in t.nodes && PhaseOf(t, c) == Some(Published) && length == t.chunks[c].length
    requires Key(c, n) in t.replicas ==> t.replicas[Key(c, n)].state.Gone?
    requires forall m :: !IsReserved(t, c, m)
    ensures Good(Place(t, c, n, length)) && Advances(t, Place(t, c, n, length))
  {
    hide Sound, Balanced, Advances, PhaseOf, RowOk, TaskOk, CountOk;
    GoodRows(t);
    var k, u := Key(c, n), Place(t, c, n, length);
    PlainLinks(t, u);
    SamePhases(t, u);
    assert k in t.replicas ==> RowOk(t, k);
    PlacedRow(t, c, n, length);
    forall d | d in u.chunks && d != c ensures CountUntouched(t, u, d) {
      assert RowKeys(u, d) == RowKeys(t, d);
    }
    SoundKept(t, u, {k}, {}, {c});
    PlaceBalances(t, c, n, length);
    PlainAdvance(t, u);
  }

  lemma PlacedRow(t: Tables, c: Id, n: Id, length: int)
    requires RowsPlaced(t) && Rows(t) && n in t.nodes && PhaseOf(t, c) == Some(Published)
    requires forall m :: !IsReserved(t, c, m)
    requires Key(c, n) in t.replicas ==> t.replicas[Key(c, n)].state.Gone?
    ensures RowOk(Place(t, c, n, length), Key(c, n))
    ensures Linked(Place(t, c, n, length), c) && CountOk(Place(t, c, n, length), c)
    ensures Key(c, n) in t.replicas ==> t.replicas[Key(c, n)].charge.NoCharge?
  {
    var u := Place(t, c, n, length);
    PlainLinks(t, u);
    SamePhases(t, u);
    assert Key(c, n) in t.replicas ==> RowOk(t, Key(c, n));
    forall m | IsReserved(u, c, m) ensures m == n {
      assert m != n ==> IsReserved(t, c, m);
    }
  }

  /** With one replica to place, `Reserve` places it on the first node that qualifies. */
  lemma {:induction false} ReserveOne(t: Tables, cfg: Config, now: Time, c: Id, length: int, excluded: set<Id>,
                                      order: seq<Id>)
    ensures var r := Reserve(t, cfg, now, c, length, 1, excluded, order);
            r.Ok? ==> |r.value.1| == 1 && r.value.1[0] in t.nodes && r.value.1[0] !in excluded
                      && Eligible(t.nodes[r.value.1[0]], cfg, now, length)
                      && r.value.0 == Place(t, c, r.value.1[0], length)
    decreases |order|
  {
    if order != [] {
      var n := order[0];
      if n !in t.nodes || n in excluded || !Eligible(t.nodes[n], cfg, now, length) {
        ReserveOne(t, cfg, now, c, length, excluded, order[1..]);
      } else {
        assert Reserve(Place(t, c, n, length), cfg, now, c, length, 0, excluded,
                       order[1..]) == Ok((Place(t, c, n, length), []));
      }
    }
  }

  /** The `pending` choice is honest: a reservation is reused whenever there is one. */
  ghost predicate PendingChoice(t: Tables, c: Id, pending: Option<Id>) {
    if ReservedNodes(t, c) == {} then pending.None? else pending.Some? && pending.value in ReservedNodes(t, c)
  }

  lemma RepairBeginGood(t: Tables, cfg: Config, now: Time, c: Id, token: Id, pending: Option<Id>, order: seq<Id>,
                        out: (Tables, Option<RepairSnap>))
    requires Good(t) && PendingChoice(t, c, pending)
    requires RepairBegin(t, cfg, now, c, token, pending, order) == Ok(out)
    ensures Good(out.0) && Advances(t, out.0)
    ensures PhaseOf(t, c) == Some(Published)
    ensures out.1.Some? ==> IsReserved(out.0, c, out.1.value.target) && out.1.value.target in out.0.nodes
  {
    hide Good, Advances, HealthyNodes, Eligible, Place;
    if out.1.None? {
      FinishGood(t, RepairOf(c));
    } else if pending.Some? {
      PlainAdvance(t, t);
    } else {
      var n := out.1.value.target;
      ReserveOne(t, cfg, now, c, t.chunks[c].length, Occupied(t, c), order);
      RepairPlace(t, c, n);
    }
  }

  lemma RepairPlace(t: Tables, c: Id, n: Id)
    requires Good(t) && PhaseOf(t, c) == Some(Published) && ReservedNodes(t, c) == {}
    requires n in t.nodes && n !in Occupied(t, c)
    ensures Good(Place(t, c, n, t.chunks[c].length)) && Advances(t, Place(t, c, n, t.chunks[c].length))
    ensures IsReserved(Place(t, c, n, t.chunks[c].length), c, n)
  {
    hide Sound, Balanced, Advances;
    GoodRows(t);
    forall m ensures !IsReserved(t, c, m) {
      assert m !in ReservedNodes(t, c);
    }
    assert Key(c, n) in t.replicas ==> n !in Occupied(t, c);
    PlaceRepairGood(t, c, n, t.chunks[c].length);
  }

  predicate RepairSnapFits(t: Tables, snap: RepairSnap) {
    && Linked(t, snap.chunk) && t.chunks[snap.chunk].length == snap.length
    && ObjectIdOf(t, snap.chunk) == snap.oid && t.chunks[snap.chunk].upload == snap.upload
    && ObjectOf(t, snap.chunk).replicas == snap.required
    && (snap.digest.Some? ==> t.chunks[snap.chunk].digest == snap.digest)
    && Key(snap.chunk, snap.target) in t.replicas
  }

  lemma RepairCommitGood(t: Tables, cfg: Config, now: Time, token: Id, snap: RepairSnap, u: Tables)
    requires Good(t) && RepairSnapFits(t, snap) && RepairCommit(t, cfg, now, token, snap) == Ok(u)
    ensures Good(u) && Advances(t, u)
  {
    hide Good, Advances, HealthyNodes, Uncharge;
    var k := Key(snap.chunk, snap.target);
    if snap.required <= |HealthyNodes(t, cfg, now, k.chunk)| {
      UnchargeGood(t, k, snap.length);
      var t1 := Uncharge(t, k, snap.length);
      var t2 := SetRow(t1, k, t1.replicas[k].(state := Bad));
      SurplusGood(t, snap, t1, t2);
      QueueAndFinish(t2, k, now + cfg.CleanupDelay());
      PlainAdvance(t, u);
    } else {
      RecordGood(t, snap);
      var t2 := AddToNode(SetRow(t, k, t.replicas[k].(state := Valid, charge := UsedCharge)),
                          k.node, -(snap.length as int), snap.length);
      FinishGood(t2, RepairOf(k.chunk));
      PlainAdvance(t, u);
    }
  }

  lemma QueueAndFinish(t: Tables, k: Key, lease: Time)
    requires Good(t) && PhaseOf(t, k.chunk) != Some(Staging) && RepairOf(k.chunk) in t.tasks
    ensures Good(FinishTask(Enqueue(t, DeleteOf(k.chunk, k.node), lease), RepairOf(k.chunk)))
  {
    hide Good, PhaseOf;
    EnqueueGood(t, DeleteOf(k.chunk, k.node), lease);
    FinishGood(Enqueue(t, DeleteOf(k.chunk, k.node), lease), RepairOf(k.chunk));
  }

  lemma RecordGood(t: Tables, snap: RepairSnap)
    requires Good(t) && RepairSnapFits(t, snap) && PhaseOf(t, snap.chunk) == Some(Published)
    requires t.replicas[Key(snap.chunk, snap.target)].state.Reserved?
    requires t.replicas[Key(snap.chunk, snap.target)].charge.ReservedCharge?
    ensures var k := Key(snap.chunk, snap.target);
            Good(AddToNode(SetRow(t, k, t.replicas[k].(state := Valid, charge := UsedCharge)),
                           k.node, -(snap.length as int), snap.length))
  {
    hide Sound, Balanced, Linked, Tasks;
    GoodRows(t);
    var k := Key(snap.chunk, snap.target);
    var r := t.replicas[k].(state := Valid, charge := UsedCharge);
    var t1 := SetRow(t, k, r);
    var u := AddToNode(t1, k.node, -(snap.length as int), snap.length);
    PlainLinks(t, t1);
    SamePhases(t, t1);
    assert RowOk(t, k);
    BalancedRows(t);
    SetRowSound(t, k, r);
    AddToNodeSound(t1, k.node, -(snap.length as int), snap.length);
    assert OneRowMoved(t, u, k);
    MovedBooks(t, u, k);
  }

  lemma SurplusGood(t: Tables, snap: RepairSnap, t1: Tables, t2: Tables)
    requires Good(t) && RepairSnapFits(t, snap) && PhaseOf(t, snap.chunk) == Some(Published)
    requires t.replicas[Key(snap.chunk, snap.target)].state.Reserved?
    requires t1 == Uncharge(t, Key(snap.chunk, snap.target), snap.length)
    requires t2 == t1.(replicas := t2.replicas) && Key(snap.chunk, snap.target) in t1.replicas
    requires t2.replicas == t1.replicas[Key(snap.chunk,
                                            snap.target) := t1.replicas[Key(snap.chunk, snap.target)].(state := Bad)]
    ensures Good(t2) && OnlyRows(t, t2) && t2.tasks == t.tasks && PhaseOf(t2, snap.chunk) == PhaseOf(t, snap.chunk)
    ensures forall j :: j != Key(snap.chunk, snap.target) && j in t.replicas ==> t2.replicas[j] == t.replicas[j]
  {
    hide Good, PhaseOf, Uncharge;
    var k := Key(snap.chunk, snap.target);
    UnchargeGood(t, k, snap.length);
    GoodRows(t1);
    PlainLinks(t, t1);
    SurplusRowOk(t, t1, k);
    SetRowGood(t1, k, t1.replicas[k].(state := Bad));
    assert t2 == SetRow(t1, k, t1.replicas[k].(state := Bad));
    OnlyRowsPhases(t, t2);
  }

  lemma SurplusRowOk(t: Tables, t1: Tables, k: Key)
    requires RowsPlaced(t1) && Rows(t1) && k in t1.replicas && t1.replicas[k].state.Reserved?
    requires SameLinks(t, t1) && PhaseOf(t, k.chunk) == Some(Published)
    ensures RowOk(SetRow(t1, k, t1.replicas[k].(state := Bad)), k)
  {
    hide Linked;
    SamePhases(t, t1);
    PlainLinks(t1, SetRow(t1, k, t1.replicas[k].(state := Bad)));
    SamePhases(t1, SetRow(t1, k, t1.replicas[k].(state := Bad)));
    assert RowOk(t1, k);
  }
}
