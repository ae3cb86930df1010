/** The metadata service as it is written: an object whose tables are updated in place, row by row and in loops,
    one transaction at a time, with rollback. Every method is proved to do exactly what the corresponding
    function of module Transactions says, and to keep the invariant of the tables. */
module MetadataService {
  import opened Schema
  import opened Sums
  import T = Transactions
  import opened Accounting
  import opened Invariants
  import opened Preservation
  import opened Lifecycle
  import opened Creation
  import opened Publication
  import opened Safety
  import opened Effects

  // ---------------------------------------------------------------- what the loops compute, one round at a time

  /** A result in front of which some nodes have already been chosen. */
  function Prepended(chosen: seq<Id>, r: Result<(Tables, seq<Id>)>): Result<(Tables, seq<Id>)> {
    match r
    case Ok(out) => Ok((out.0, chosen + out.1))
    case Fail(code) => Fail(code)
  }

  lemma PrependNone(r: Result<(Tables, seq<Id>)>)
    ensures Prepended([], r) == r
  {
    assert r.Ok? ==> [] + r.value.1 == r.value.1;
  }

  /** One round of the reserving loop. */
  lemma ReserveRound(t: Tables, cfg: Config, now: Time, c: Id, length: int, count: nat, excluded: set<Id>,
                     order: seq<Id>, chosen: seq<Id>)
    requires order != [] && count > 0
    ensures var n := order[0];
            Prepended(chosen, T.Reserve(t, cfg, now, c, length, count, excluded, order))
            == if Candidate(t, cfg, now, length, excluded, n)
               then Prepended(chosen + [n],
                              T.Reserve(T.Place(t, c, n, length), cfg, now, c, length, count - 1, excluded, order[1..]))
               else Prepended(chosen, T.Reserve(t, cfg, now, c, length, count, excluded, order[1..]))
  {
    hide T.Eligible, T.Place;
    var n := order[0];
    if Candidate(t, cfg, now, length, excluded, n) {
      var rest := T.Reserve(T.Place(t, c, n, length), cfg, now, c, length, count - 1, excluded, order[1..]);
      assert rest.Ok? ==> chosen + ([n] + rest.value.1) == (chosen + [n]) + rest.value.1;
    }
  }

  lemma ReserveEnds(t: Tables, cfg: Config, now: Time, c: Id, length: int, count: nat, excluded: set<Id>,
                    order: seq<Id>, chosen: seq<Id>)
    requires order == [] || count == 0
    ensures Prepended(chosen, T.Reserve(t, cfg, now, c, length, count, excluded, order))
            == if count == 0 then Ok((t, chosen)) else Fail(OutOfCapacity)
  {
    assert chosen + [] == chosen;
  }

  lemma LightestExists(t: Tables, s: set<Id>) returns (n: Id)
    requires s != {} && s <= t.nodes.Keys
    ensures n in s && forall m :: m in s && m != n ==> T.LighterThan(t, n, m)
  {
    var x :| x in s;
    n := x;
    if s != {x} {
      var y := LightestExists(t, s - {x});
      n := if T.LighterThan(t, x, y) then x else y;
      assert forall m :: m in s ==> m == x || m in s - {x};
    }
  }

  /** One chunk of a new object: its row and its reservations. */
  function PlaceOne(t: Tables, cfg: Config, now: Time, up: Id, size: nat, i: nat, c: Id, order: seq<Id>): Result<Tables>
    requires i * cfg.chunk < size
  {
    var length := PieceLength(size, cfg.chunk, i);
    var placed :- T.Reserve(t.(chunks := t.chunks[c := Chunk(up, i, length, None, PendingChunk)]),
                            cfg, now, c, length, cfg.replicas, {}, order);
    Ok(placed.0)
  }

  /** The nodes for a chunk are chosen in the order of their load at that moment. */
  ghost predicate PlacedByLoad(origin: Tables, cfg: Config, now: Time, up: Id, size: nat, cids: seq<Id>,
                               orders: seq<seq<Id>>,
                               c: Id, order: seq<Id>)
    requires |orders| == |cids| && (cids == [] || (0 + |cids| - 1) * cfg.chunk < size)
  {
    match T.PlaceChunks(origin, cfg, now, up, size, 0, cids, orders)
    case Ok(t) =>
      T.ByLoad(t.(chunks := t.chunks[c := Chunk(up, |cids|, PieceAt(size, cfg.chunk, |cids|), None, PendingChunk)]),
               order)
    case Fail(_) => false
  }

  predicate PrefixOk(size: nat, chunk: nat, i: nat) {
    i == 0 || (0 + i - 1) * chunk < size
  }

  lemma ThisPlacedByLoad(origin: Tables, cfg: Config, now: Time, up: Id, size: nat, cids: seq<Id>, orders: seq<seq<Id>>,
                         c: Id, order: seq<Id>, before: Tables)
    requires |orders| == |cids| && (cids == [] || (0 + |cids| - 1) * cfg.chunk < size)
    requires T.PlaceChunks(origin, cfg, now, up, size, 0, cids, orders) == Ok(before)
    requires PieceAt(size, cfg.chunk, |cids|) == PieceLength(size, cfg.chunk, |cids|)
    requires T.ByLoad(before.(chunks := before.chunks[c := Chunk(up, |cids|, PieceAt(size, cfg.chunk, |cids|), None,
        PendingChunk)]), order)
    ensures PlacedByLoad(origin, cfg, now, up, size, cids, orders, c, order)
  {
  }

  function PieceAt(size: nat, chunk: nat, i: nat): nat {
    if PieceLength(size, chunk, i) < 0 then 0 else PieceLength(size, chunk, i)
  }

  lemma PrefixInside(size: nat, chunk: nat, n: nat, i: nat)
    requires i < n && (0 + n - 1) * chunk < size
    ensures i == 0 || (0 + i - 1) * chunk < size
    ensures PieceAt(size, chunk, i) == PieceLength(size, chunk, i)
  {
    StartsInside(size, chunk, 0, n, i);
    if i > 0 {
      StartsInside(size, chunk, 0, n, i - 1);
    }
  }

  lemma StartsInside(size: nat, chunk: nat, first: nat, n: nat, i: nat)
    requires i < n && (first + n - 1) * chunk < size
    ensures (first + i) * chunk < size
  {
    assert (first + i) * chunk <= (first + n - 1) * chunk;
  }

  /** Placing one more chunk at the end. */
  lemma {:induction false} PlaceChunksSnoc(t: Tables, cfg: Config, now: Time, up: Id, size: nat, first: nat,
                                           cids: seq<Id>, orders: seq<seq<Id>>, c: Id, order: seq<Id>)
    requires |orders| == |cids| && (first + |cids|) * cfg.chunk < size
    ensures cids == [] || (first + |cids| - 1) * cfg.chunk < size
    ensures T.PlaceChunks(t, cfg, now, up, size, first, cids + [c], orders + [order])
            == match T.PlaceChunks(t, cfg, now, up, size, first, cids, orders)
               case Ok(u) => PlaceOne(u, cfg, now, up, size, first + |cids|, c, order)
               case Fail(code) => Fail(code)
    decreases |cids|
  {
    hide T.Reserve;
    if cids == [] {
      assert ([] + [c])[1..] == [] && ([] + [order])[1..] == [];
    } else {
      assert (first + |cids| - 1) * cfg.chunk <= (first + |cids|) * cfg.chunk;
      StartsInside(size, cfg.chunk, first, |cids|, 0);
      assert (cids + [c])[1..] == cids[1..] + [c] && (orders + [order])[1..] == orders[1..] + [order];
      var length := PieceLength(size, cfg.chunk, first);
      var t1 := t.(chunks := t.chunks[cids[0] := Chunk(up, first, length, None, PendingChunk)]);
      var placed := T.Reserve(t1, cfg, now, cids[0], length, cfg.replicas, {}, orders[0]);
      if placed.Ok? {
        PlaceChunksSnoc(placed.value.0, cfg, now, up, size, first + 1, cids[1..], orders[1..], c, order);
      }
    }
  }

  /** A failure to place some chunk is the failure of the whole. */
  lemma {:induction false} PlaceChunksFails(t: Tables, cfg: Config, now: Time, up: Id, size: nat, first: nat,
                                            cids: seq<Id>, orders: seq<seq<Id>>, more: seq<Id>, rest: seq<seq<Id>>)
    requires |orders| == |cids| > 0 && |rest| == |more| && (first + |cids| + |more| - 1) * cfg.chunk < size
    ensures (first + |cids| - 1) * cfg.chunk < size
    ensures T.PlaceChunks(t, cfg, now, up, size, first, cids, orders).Fail?
            ==> T.PlaceChunks(t, cfg, now, up, size, first, cids + more, orders + rest)
                == T.PlaceChunks(t, cfg, now, up, size, first, cids, orders)
    decreases |cids|
  {
    hide T.Reserve;
    assert (first + |cids| - 1) * cfg.chunk <= (first + |cids| + |more| - 1) * cfg.chunk;
    StartsInside(size, cfg.chunk, first, |cids|, 0);
    assert (cids + more)[1..] == cids[1..] + more && (orders + rest)[1..] == orders[1..] + rest;
    var length := PieceLength(size, cfg.chunk, first);
    var t1 := t.(chunks := t.chunks[cids[0] := Chunk(up, first, length, None, PendingChunk)]);
    var placed := T.Reserve(t1, cfg, now, cids[0], length, cfg.replicas, {}, orders[0]);
    if placed.Ok? && |cids| > 1 {
      PlaceChunksFails(placed.value.0, cfg, now, up, size, first + 1, cids[1..], orders[1..], more, rest);
    }
  }

  /** The orders of a placement that ends early, with any orders for the chunks that were never tried. */
  lemma PlacementEnds(saved: Tables, cfg: Config, now: Time, owner: Id, size: nat, oid: Id, up: Id, cids: seq<Id>,
                      orders: seq<seq<Id>>, n: nat, code: Code)
    returns (all: seq<seq<Id>>)
    requires cfg.Valid() && size <= cfg.chunk * cfg.maxChunks && |cids| == PieceCount(size, cfg.chunk)
    requires 0 < n <= |cids| && |orders| == n && (0 + |cids| - 1) * cfg.chunk < size && PrefixOk(size, cfg.chunk, n)
    requires T.PlaceChunks(NewObject(saved, cfg, now, owner, size, oid, up), cfg, now, up, size, 0, cids[..n], orders)
             == Fail(code)
    ensures |all| == |cids| && T.Init(saved, cfg, now, owner, size, oid, up, cids, all) == Fail(code)
  {
    hide T.PlaceChunks, NewObject, PieceCount;
    var rest := seq(|cids| - n, _ => []);
    assert cids == cids[..n] + cids[n..];
    PlaceChunksFails(NewObject(saved, cfg, now, owner, size, oid, up), cfg, now, up, size, 0, cids[..n], orders,
                     cids[n..], rest);
    all := orders + rest;
    InitIs(saved, cfg, now, owner, size, oid, up, cids, all);
  }

  lemma AllPlaced(saved: Tables, cfg: Config, now: Time, owner: Id, size: nat, oid: Id, up: Id, cids: seq<Id>,
                  orders: seq<seq<Id>>, t: Tables)
    requires cfg.Valid() && size <= cfg.chunk * cfg.maxChunks && |cids| == PieceCount(size, cfg.chunk)
    requires PlacedSoFar(NewObject(saved, cfg, now, owner, size, oid, up), cfg, now, up, size, cids, orders, |cids|, t)
    ensures |orders| == |cids| && T.Init(saved, cfg, now, owner, size, oid, up, cids, orders) == Ok(t)
    ensures forall i :: 0 <= i < |orders| ==> Distinct(orders[i])
    ensures EachByLoad(NewObject(saved, cfg, now, owner, size, oid, up), cfg, now, up, size, cids, orders, |cids|)
  {
    hide T.PlaceChunks, NewObject, PieceCount, EachByLoad;
    assert cids[..|cids|] == cids;
    InitIs(saved, cfg, now, owner, size, oid, up, cids, orders);
  }

  lemma PlacedCount(origin: Tables, cfg: Config, now: Time, up: Id, size: nat, cids: seq<Id>, orders: seq<seq<Id>>,
                    i: nat, t: Tables)
    requires PlacedSoFar(origin, cfg, now, up, size, cids, orders, i, t)
    ensures |orders| == i <= |cids|
  {
    hide EachByLoad, T.PlaceChunks;
  }

  /** What the retiring loop does to one row. */
  function RetireOne(t: Tables, k: Key, length: int, lease: Time): Tables
    requires k in t.replicas
  {
    var t1 := if t.replicas[k].charge.ReservedCharge? then T.Uncharge(t, k, length) else t;
    var t2 := if k in t1.replicas && !t1.replicas[k].state.Gone?
        then T.SetRow(t1, k, t1.replicas[k].(state := Deleting)) else t1;
    T.Enqueue(t2, DeleteOf(k.chunk, k.node), lease)
  }

  lemma RetireOneIs(t: Tables, k: Key, length: int, lease: Time)
    requires k in t.replicas
    ensures var u, key := RetireOne(t, k, length, lease), DeleteOf(k.chunk, k.node);
            && u == t.(nodes := u.nodes, replicas := u.replicas, tasks := u.tasks)
            && u.replicas == t.replicas[k := T.RetiredRow(t.replicas[k])]
            && u.tasks == t.tasks[key := T.WokenDelete(t, key, lease)]
            && u.nodes == if t.replicas[k].charge.ReservedCharge? then T.AddToNode(t, k.node, -length, 0).nodes
               else t.nodes
  {
    hide T.Enqueue, T.Uncharge, T.WokenDelete, T.AddToNode;
    var key := DeleteOf(k.chunk, k.node);
    var t1 := if t.replicas[k].charge.ReservedCharge? then T.Uncharge(t, k, length) else t;
    UnchargeReservedIs(t, k, length);
    var t2 := if k in t1.replicas && !t1.replicas[k].state.Gone?
        then T.SetRow(t1, k, t1.replicas[k].(state := Deleting)) else t1;
    EnqueueIsWoken(t2, key, lease);
    WokenAlike(t, t2, key, lease);
    assert t2.replicas == t.replicas[k := T.RetiredRow(t.replicas[k])];
  }

  lemma UnchargeReservedIs(t: Tables, k: Key, length: int)
    requires k in t.replicas
    ensures t.replicas[k].charge.ReservedCharge? ==>
              T.Uncharge(t, k, length) == t.(nodes := T.AddToNode(t, k.node, -length, 0).nodes,
                                             replicas := t.replicas[k := t.replicas[k].(charge := NoCharge)])
  {
  }

  lemma EnqueueIsWoken(t: Tables, key: TaskKey, lease: Time)
    ensures key.DeleteOf? ==> T.Enqueue(t, key, lease) == t.(tasks := t.tasks[key := T.WokenDelete(t, key, lease)])
  {
    assert key in t.tasks ==> t.tasks[key := t.tasks[key]] == t.tasks;
  }

  lemma ReservedForOneMore(t: Tables, rows: set<Key>, k: Key, n: Id)
    requires k !in rows
    ensures T.ReservedFor(t, rows + {k}, n) == T.ReservedFor(t, rows, n) + T.Weight(t, n, ReservedCharge, k)
  {
    TotalTakeOut(rows + {k}, T.Weigher(t, n, ReservedCharge), k);
    assert rows + {k} - {k} == rows;
  }

  lemma RetireRowsTables(t: Tables, rows: set<Key>, lease: Time)
    ensures var u := T.RetireRows(t, rows, lease);
            && u == t.(nodes := u.nodes, replicas := u.replicas, tasks := u.tasks)
            && u.replicas == (map k | k in t.replicas :: if k in rows then T.RetiredRow(t.replicas[k])
                              else t.replicas[k])
            && u.tasks.Keys == t.tasks.Keys + DeletesOf(rows)
            && (forall key :: key in u.tasks ==>
                  u.tasks[key] == if key.DeleteOf? && Key(key.chunk, key.node) in rows
                      then T.WokenDelete(t, key, lease) else t.tasks[key])
  {
  }

  lemma RetireRowsNode(t: Tables, rows: set<Key>, lease: Time, n: Id)
    requires n in t.nodes
    ensures var u := T.RetireRows(t, rows, lease);
            n in u.nodes && u.nodes[n] == t.nodes[n].(reserved := t.nodes[n].reserved - T.ReservedFor(t, rows, n))
  {
  }

  lemma RetireRowsNodes(t: Tables, rows: set<Key>, lease: Time)
    ensures T.RetireRows(t, rows, lease).nodes.Keys == t.nodes.Keys
  {
  }

  lemma RetireOneNodes(t: Tables, rows: set<Key>, k: Key, lease: Time)
    requires k in t.replicas && k !in rows && k.chunk in t.chunks
    ensures T.RetireRows(t, rows + {k}, lease).nodes
            == if t.replicas[k].charge.ReservedCharge?
                then T.AddToNode(T.RetireRows(t, rows, lease), k.node, -(t.chunks[k.chunk].length as int), 0).nodes
               else T.RetireRows(t, rows, lease).nodes
  {
    hide T.RetireRows, T.ReservedFor;
    RetireRowsNodes(t, rows, lease);
    RetireRowsNodes(t, rows + {k}, lease);
    forall n | n in t.nodes
      ensures T.RetireRows(t, rows + {k}, lease).nodes[n]
              == var u := T.RetireRows(t, rows, lease).nodes[n];
                 u.(reserved := u.reserved - T.Weight(t, n, ReservedCharge, k))
    {
      RetireRowsNode(t, rows, lease, n);
      RetireRowsNode(t, rows + {k}, lease, n);
      ReservedForOneMore(t, rows, k, n);
    }
  }

  lemma WokenAlike(t: Tables, u: Tables, key: TaskKey, lease: Time)
    requires key in t.tasks <==> key in u.tasks
    requires key in t.tasks ==> u.tasks[key] == t.tasks[key]
    ensures T.WokenDelete(u, key, lease) == T.WokenDelete(t, key, lease)
  {
  }

  function DeletesOf(rows: set<Key>): set<TaskKey> {
    set k | k in rows :: DeleteOf(k.chunk, k.node)
  }

  lemma OneMoreDelete(rows: set<Key>, k: Key)
    requires k !in rows
    ensures DeletesOf(rows + {k}) == DeletesOf(rows) + {DeleteOf(k.chunk, k.node)}
    ensures DeleteOf(k.chunk, k.node) !in DeletesOf(rows)
  {
    assert forall j: Key :: Key(DeleteOf(j.chunk, j.node).chunk, DeleteOf(j.chunk, j.node).node) == j;
  }

  lemma RetireOneTasks(t: Tables, rows: set<Key>, k: Key, lease: Time)
    requires k in t.replicas && k !in rows
    ensures var key, u := DeleteOf(k.chunk, k.node), T.RetireRows(t, rows, lease);
            T.RetireRows(t, rows + {k}, lease).tasks == u.tasks[key := T.WokenDelete(u, key, lease)]
  {
    hide T.RetireRows, T.RetiredRow, T.WokenDelete, DeletesOf;
    RetireRowsTables(t, rows, lease);
    RetireRowsTables(t, rows + {k}, lease);
    OneMoreDelete(rows, k);
    var key, u := DeleteOf(k.chunk, k.node), T.RetireRows(t, rows, lease);
    assert Key(key.chunk, key.node) == k;
    WokenAlike(t, u, key, lease);
  }

  /** The loop's rounds add up to the closed form. */
  lemma RetireOneMore(t: Tables, rows: set<Key>, k: Key, lease: Time)
    requires k in t.replicas && k !in rows && k.chunk in t.chunks
    ensures k in T.RetireRows(t, rows, lease).replicas
    ensures T.RetireRows(t, rows + {k}, lease) == RetireOne(T.RetireRows(t, rows, lease), k, t.chunks[k.chunk].length,
        lease)
  {
    hide T.RetireRows, RetireOne, T.WokenDelete;
    RetireRowsTables(t, rows, lease);
    RetireRowsTables(t, rows + {k}, lease);
    RetireOneNodes(t, rows, k, lease);
    RetireOneTasks(t, rows, k, lease);
    var u := T.RetireRows(t, rows, lease);
    assert u.replicas[k] == t.replicas[k];
    RetireOneIs(u, k, t.chunks[k.chunk].length, lease);
    assert T.RetireRows(t, rows + {k}, lease).replicas == u.replicas[k := T.RetiredRow(u.replicas[k])];
  }

  lemma RetireNone(t: Tables, lease: Time)
    ensures T.RetireRows(t, {}, lease) == t
  {
    forall n ensures T.ReservedFor(t, {}, n) == 0 {
      TotalOfZeros({}, T.Weigher(t, n, ReservedCharge));
    }
  }

  /** What the confirming loop does for one position. */
  function ConvertOne(t: Tables, c: Id, length: nat, n: Id): Tables {
    var k := Key(c, n);
    if k in t.replicas && t.replicas[k].state.Reserved?
    then T.AddToNode(T.SetRow(t, k, t.replicas[k].(state := Valid, charge := UsedCharge)), n, -(length as int), length)
    else t
  }

  lemma ConvertedRow(t: Tables, c: Id, length: nat, done: set<Id>, k: Key)
    requires k in t.replicas
    ensures var u, r := T.ConvertRows(t, c, length, done), t.replicas[k];
            && u.replicas.Keys == t.replicas.Keys
            && u.replicas[k] == if k.chunk == c && k.node in done && r.state.Reserved?
               then r.(state := Valid, charge := UsedCharge) else r
  {
    assert k.chunk == c ==> Key(c, k.node) == k;
  }

  lemma ConvertedNode(t: Tables, c: Id, length: nat, done: set<Id>, n: Id)
    requires n in t.nodes
    ensures var u, node := T.ConvertRows(t, c, length, done), t.nodes[n];
            && u.nodes.Keys == t.nodes.Keys
            && u.nodes[n] == if T.Converts(t, c, done, n)
               then node.(reserved := node.reserved - length, used := node.used + length) else node
  {
  }

  lemma ConvertedKeys(t: Tables, c: Id, length: nat, done: set<Id>)
    ensures var u := T.ConvertRows(t, c, length, done);
            u.nodes.Keys == t.nodes.Keys && u.replicas.Keys == t.replicas.Keys
                && u == t.(nodes := u.nodes, replicas := u.replicas)
  {
  }

  /** The loop's rounds add up to the closed form. */
  lemma ConvertOneMore(t: Tables, c: Id, length: nat, done: set<Id>, n: Id)
    ensures T.ConvertRows(t, c, length, done + {n}) == ConvertOne(T.ConvertRows(t, c, length, done), c, length, n)
  {
    hide T.ConvertRows;
    var u, v, k := T.ConvertRows(t, c, length, done), T.ConvertRows(t, c, length, done + {n}), Key(c, n);
    ConvertedKeys(t, c, length, done);
    ConvertedKeys(t, c, length, done + {n});
    forall j | j in t.replicas
      ensures v.replicas[j] == if j == k && u.replicas[j].state.Reserved?
          then u.replicas[j].(state := Valid, charge := UsedCharge) else u.replicas[j]
    {
      ConvertedRow(t, c, length, done, j);
      ConvertedRow(t, c, length, done + {n}, j);
    }
    forall m | m in t.nodes
      ensures v.nodes[m] == if m == n && k in u.replicas && u.replicas[k].state.Reserved?
                            then u.nodes[m].(reserved := u.nodes[m].reserved - length,
                                             used := u.nodes[m].used + length) else u.nodes[m]
    {
      ConvertedNode(t, c, length, done, m);
      ConvertedNode(t, c, length, done + {n}, m);
      if k in t.replicas {
        ConvertedRow(t, c, length, done, k);
      }
    }
    ConvertOneIs(u, v, c, length, n);
  }

  lemma ConvertOneIs(u: Tables, v: Tables, c: Id, length: nat, n: Id)
    requires v == u.(nodes := v.nodes, replicas := v.replicas) && v.nodes.Keys == u.nodes.Keys
    requires v.replicas.Keys == u.replicas.Keys
    requires forall j :: j in u.replicas ==>
               v.replicas[j] == (if j == Key(c, n) && u.replicas[j].state.Reserved?
                                 then u.replicas[j].(state := Valid, charge := UsedCharge) else u.replicas[j])
    requires forall m :: m in u.nodes ==>
               v.nodes[m] == (if m == n && Key(c, n) in u.replicas && u.replicas[Key(c, n)].state.Reserved?
                              then u.nodes[m].(reserved := u.nodes[m].reserved - length,
                                               used := u.nodes[m].used + length)
                              else u.nodes[m])
    ensures v == ConvertOne(u, c, length, n)
  {
    var k := Key(c, n);
    if k in u.replicas && u.replicas[k].state.Reserved? {
      assert v.replicas == u.replicas[k := u.replicas[k].(state := Valid, charge := UsedCharge)];
      if n in u.nodes {
        assert v.nodes == u.nodes[n := u.nodes[n].(reserved := u.nodes[n].reserved - length,
                                                   used := u.nodes[n].used + length)];
      } else {
        assert v.nodes == u.nodes;
      }
    } else {
      assert v.replicas == u.replicas && v.nodes == u.nodes;
    }
  }

  lemma ConvertNone(t: Tables, c: Id, length: nat)
    ensures T.ConvertRows(t, c, length, {}) == t
  {
    var u := T.ConvertRows(t, c, length, {});
    assert u.replicas == t.replicas && u.nodes == t.nodes;
  }

  lemma PositionsAre(t: Tables, cfg: Config, now: Time, up: Id, c: Id, length: nat, digest: Digest, result: seq<Ticket>)
    requires var holders := Sorted(Assigned(t, c));
             && |result| == |holders|
             && (forall j :: 0 <= j < |holders| ==>
                   && holders[j] in t.nodes && Live(t.nodes[holders[j]], cfg, now)
                   && result[j] == T.TicketFor(t, cfg, now, up, c, length, digest, holders[j]))
    ensures T.Positions(t, cfg, now, up, c, length, digest) == Ok(result)
  {
    hide Live, Assigned;
    var holders := Sorted(Assigned(t, c));
    forall n | n in Assigned(t, c) ensures n in t.nodes && Live(t.nodes[n], cfg, now) {
      assert n in holders;
    }
    AssignedKnown(t, c);
    var ps := T.Positions(t, cfg, now, up, c, length, digest).value;
    assert forall j :: 0 <= j < |ps| ==> ps[j] == result[j];
    assert ps == result;
  }

  lemma AssignedKnown(t: Tables, c: Id)
    ensures Assigned(t, c) <= t.nodes.Keys
  {
  }

  /** The first `i` chunks are placed, each in the load order of its moment, and `t` is what came of it. */
  ghost predicate PlacedSoFar(origin: Tables, cfg: Config, now: Time, up: Id, size: nat, cids: seq<Id>,
                              orders: seq<seq<Id>>, i: nat, t: Tables) {
    && i <= |cids| && |orders| == i && (forall j :: 0 <= j < i ==> Distinct(orders[j])) && PrefixOk(size, cfg.chunk, i)
    && T.PlaceChunks(origin, cfg, now, up, size, 0, cids[..i], orders) == Ok(t)
    && EachByLoad(origin, cfg, now, up, size, cids, orders, i)
  }

  ghost predicate EachByLoad(origin: Tables, cfg: Config, now: Time, up: Id, size: nat, cids: seq<Id>,
                             orders: seq<seq<Id>>, n: nat) {
    n <= |cids| && n <= |orders| &&
    forall i :: 0 <= i < n ==>
      && PrefixOk(size, cfg.chunk, i)
      && PlacedByLoad(origin, cfg, now, up, size, cids[..i], orders[..i], cids[i], orders[i])
  }

  lemma NothingPlaced(origin: Tables, cfg: Config, now: Time, up: Id, size: nat, cids: seq<Id>)
    ensures PlacedSoFar(origin, cfg, now, up, size, cids, [], 0, origin)
  {
    hide PlacedByLoad;
    assert cids[..0] == [];
    PlaceNone(origin, cfg, now, up, size);
  }

  /** One more chunk: it is placed in the load order of its moment, or there the placement ends. */
  lemma PlacedOneMore(origin: Tables, cfg: Config, now: Time, up: Id, size: nat, cids: seq<Id>, orders: seq<seq<Id>>,
                      i: nat, t: Tables, order: seq<Id>)
    requires PlacedSoFar(origin, cfg, now, up, size, cids, orders, i, t) && i < |cids|
    requires (0 + |cids| - 1) * cfg.chunk < size
    requires T.ByLoad(t.(chunks := t.chunks[cids[i] := Chunk(up, i, PieceAt(size, cfg.chunk, i), None, PendingChunk)]),
                      order)
    ensures PieceAt(size, cfg.chunk, i) == PieceLength(size, cfg.chunk, i) && Distinct(order)
    ensures PrefixOk(size, cfg.chunk, i + 1)
    ensures match PlaceOne(t, cfg, now, up, size, i, cids[i], order)
            case Ok(u) => PlacedSoFar(origin, cfg, now, up, size, cids, orders + [order], i + 1, u)
            case Fail(code) =>
              T.PlaceChunks(origin, cfg, now, up, size, 0, cids[..i + 1], orders + [order]) == Fail(code)
  {
    hide T.PlaceChunks, PlaceOne, Distinct, T.ByLoad, PlacedByLoad;
    var c := cids[i];
    StartsInside(size, cfg.chunk, 0, |cids|, i);
    PrefixInside(size, cfg.chunk, |cids|, i);
    ByLoadIsDistinct(t.(chunks := t.chunks[c := Chunk(up, i, PieceAt(size, cfg.chunk, i), None, PendingChunk)]), order);
    ThisPlacedByLoad(origin, cfg, now, up, size, cids[..i], orders, c, order, t);
    assert orders[..i] == orders;
    assert cids[..i + 1] == cids[..i] + [c];
    PlaceChunksSnoc(origin, cfg, now, up, size, 0, cids[..i], orders, c, order);
    assert EachByLoad(origin, cfg, now, up, size, cids, orders + [order], i + 1) by {
      forall j | 0 <= j < i + 1
        ensures PrefixOk(size, cfg.chunk, j)
        ensures PlacedByLoad(origin, cfg, now, up, size, cids[..j], (orders + [order])[..j], cids[j],
                             (orders + [order])[j])
      {
        assert (orders + [order])[..j] == orders[..j];
      }
    }
  }

  // ---------------------------------------------------------------- the maintenance scan

  /** Retire overdue uploads one after the other. */
  ghost function ExpireAll(t: Tables, cfg: Config, now: Time, ups: seq<Id>): Tables {
    if ups == [] then t
    else
      var t1 := ExpireAll(t, cfg, now, ups[..|ups| - 1]);
      if ups[|ups| - 1] in t1.uploads then T.Retire(t1, cfg, now, ups[|ups| - 1], Expired) else t1
  }

  /** Queue a repair for every chunk of the list that is short of healthy replicas. */
  function QueueAll(t: Tables, cfg: Config, now: Time, cids: seq<Id>): Tables {
    if cids == [] then t
    else QueueOne(QueueAll(t, cfg, now, cids[..|cids| - 1]), cfg, now, cids[|cids| - 1])
  }

  function QueueOne(t: Tables, cfg: Config, now: Time, c: Id): Tables {
    if T.NeedsRepair(t, cfg, now, c) then T.Enqueue(t, RepairOf(c), 0.0) else t
  }

  lemma QueueNone(t: Tables, cfg: Config, now: Time)
    ensures forall cids: seq<Id> :: cids == [] ==> QueueAll(t, cfg, now, cids) == t
  {
  }

  /** Every chunk that is short has been looked at, so its repair is queued. */
  lemma NeedyAreQueued(t: Tables, u: Tables, cfg: Config, now: Time, scanned: seq<Id>)
    requires u == t.(tasks := u.tasks) && scanned == Sorted(PublishedChunks(t))
    requires forall j :: 0 <= j < |scanned| && T.NeedsRepair(t, cfg, now, scanned[j]) ==> Open(u, RepairOf(scanned[j]))
    ensures forall c :: T.NeedsRepair(u, cfg, now, c) ==> Open(u, RepairOf(c))
  {
    hide T.NeedsRepair, PhaseOf, Open;
    SameNeeds(t, u, cfg, now);
    forall c | T.NeedsRepair(u, cfg, now, c) ensures Open(u, RepairOf(c)) {
      NeedyIsPublished(t, cfg, now, c);
      assert c in scanned;
      var j :| 0 <= j < |scanned| && scanned[j] == c;
    }
  }

  lemma QueueOneMore(t: Tables, cfg: Config, now: Time, cids: seq<Id>, i: nat)
    requires i < |cids|
    ensures QueueAll(t, cfg, now, cids[..i + 1]) == QueueOne(QueueAll(t, cfg, now, cids[..i]), cfg, now, cids[i])
  {
    assert cids[..i + 1][..i] == cids[..i];
  }

  function PublishedChunks(t: Tables): set<Id> {
    set c | c in t.chunks && PhaseOf(t, c) == Some(Published)
  }

  // ---------------------------------------------------------------- the service

  /** Every task has a row number of its own, which the database gives it. */
  ghost predicate Numbered(tasks: map<TaskKey, Task>, ids: map<TaskKey, nat>) {
    tasks.Keys <= ids.Keys && forall x, y :: x in ids && y in ids && x != y ==> ids[x] != ids[y]
  }

  /** The order in which tasks are claimed: by lease, ties by row number. */
  predicate Sooner(tasks: map<TaskKey, Task>, ids: map<TaskKey, nat>, x: TaskKey, y: TaskKey) {
    && x in tasks && y in tasks && x in ids && y in ids
    && (tasks[x].lease < tasks[y].lease || (tasks[x].lease == tasks[y].lease && ids[x] < ids[y]))
  }

  /** The row loses its charge, nothing else changes but the node figures, and they stay right. */
  lemma UnchargeIs(t: Tables, k: Key, length: int)
    ensures var u := T.Uncharge(t, k, length);
            && u == t.(nodes := u.nodes, replicas := u.replicas) && u.replicas.Keys == t.replicas.Keys
            && u.replicas == (if k in t.replicas then t.replicas[k := t.replicas[k].(charge := NoCharge)]
                              else t.replicas)
            && (Balanced(t) && (k.chunk in t.chunks ==> length == t.chunks[k.chunk].length) ==> Balanced(u))
  {
    hide Balanced;
    if Balanced(t) && (k.chunk in t.chunks ==> length == t.chunks[k.chunk].length) {
      UnchargeBalances(t, k, length);
    }
    if k in t.replicas && t.replicas[k].charge.NoCharge? {
      assert t.replicas[k := t.replicas[k].(charge := NoCharge)] == t.replicas;
    }
  }

  class Metadata {
    const cfg: Config
    var nodes: map<Id, Node>
    var retired: set<(Id, Id)>
    var objects: map<Id, Object>
    var uploads: map<Id, Upload>
    var chunks: map<Id, Chunk>
    var replicas: map<Key, Replica>
    var tasks: map<TaskKey, Task>

    function Db(): Tables
      reads this
    {
      Tables(nodes, retired, objects, uploads, chunks, replicas, tasks)
    }

    constructor (cfg: Config)
      ensures this.cfg == cfg && Db() == EMPTY
    {
      this.cfg := cfg;
      nodes, retired, objects, uploads, chunks, replicas, tasks := map[], {}, map[], map[], map[], map[], map[];
    }

    /** Undo everything since `saved`. */
    method Rollback(saved: Tables)
      modifies this
      ensures Db() == saved
    {
      nodes, retired, objects, uploads := saved.nodes, saved.retired, saved.objects, saved.uploads;
      chunks, replicas, tasks := saved.chunks, saved.replicas, saved.tasks;
    }

    // -------------------------------------------------------------- rows and tasks

    /** Make sure a task is open. One that already is keeps its lease and its worker; a new or finished one becomes
        claimable when `lease` comes. */
    method Enqueue(key: TaskKey, lease: Time)
      modifies this
      ensures Db() == T.Enqueue(old(Db()), key, lease)
      ensures key in tasks && !tasks[key].state.Done?
      ensures key in old(tasks) && !old(tasks)[key].state.Done? ==> tasks == old(tasks)
      ensures key !in old(tasks) || old(tasks)[key].state.Done? ==>
                tasks[key].state.Pending? && tasks[key].lease == lease
      ensures tasks - {key} == old(tasks) - {key}
      ensures Db().(tasks := old(tasks)) == old(Db())
    {
      if key !in tasks {
        tasks := tasks[key := Task(Pending, lease, None)];
      } else if tasks[key].state.Done? {
        tasks := tasks[key := tasks[key].(state := Pending, lease := lease)];
      }
    }

    method AddToNode(n: Id, reserved: int, used: int)
      modifies this
      ensures Db() == T.AddToNode(old(Db()), n, reserved, used)
    {
      if n in nodes {
        nodes := nodes[n := nodes[n].(reserved := nodes[n].reserved + reserved, used := nodes[n].used + used)];
      }
    }

    /** Release what a row is charged for. The row weighs nothing afterwards, no other row changes, and the figures of
        every node still are the sums of the lengths charged to it. */
    method Uncharge(k: Key, length: int)
      modifies this
      ensures Db() == T.Uncharge(old(Db()), k, length)
      ensures k in replicas ==> replicas[k].charge.NoCharge?
      ensures replicas == if k in old(replicas) then old(replicas)[k := old(replicas)[k].(charge := NoCharge)]
          else old(replicas)
      ensures Balanced(old(Db())) && (k.chunk in chunks ==> length == chunks[k.chunk].length) ==> Balanced(Db())
      ensures Db().(nodes := old(nodes), replicas := old(replicas)) == old(Db())
    {
      hide Balanced, T.AddToNode;
      UnchargeIs(Db(), k, length);
      AddKeepsTasks(Db(), k.node, -length, 0);
      AddKeepsTasks(Db(), k.node, 0, -length);
      if k in replicas && !replicas[k].charge.NoCharge? {
        if replicas[k].charge.ReservedCharge? {
          AddToNode(k.node, -length, 0);
        } else {
          AddToNode(k.node, 0, -length);
        }
        replicas := replicas[k := replicas[k].(charge := NoCharge)];
      }
    }

    // -------------------------------------------------------------- placement

    /** The placement query: every node, least loaded first, ties by id. */
    method NodesByLoad() returns (order: seq<Id>)
      ensures T.ByLoad(Db(), order)
    {
      order := [];
      var rest := nodes.Keys;
      while rest != {}
        invariant rest <= nodes.Keys
        invariant T.InLoadOrder(Db(), order)
        invariant forall n :: n in nodes ==> (n in rest <==> n !in order)
        invariant forall m, n :: m in order && n in rest ==> T.LighterThan(Db(), m, n)
        decreases |rest|
      {
        assert exists n :: n in rest && forall m :: m in rest && m != n ==> T.LighterThan(Db(), n, m) by {
          var _ := LightestExists(Db(), rest);
        }
        var n :| n in rest && forall m :: m in rest && m != n ==> T.LighterThan(Db(), n, m);
        order := order + [n];
        rest := rest - {n};
      }
    }

    /** Reserve `count` replicas of a chunk on the least loaded nodes that can take it. */
    method Reserve(now: Time, c: Id, length: int, count: nat, excluded: set<Id>)
      returns (r: Result<seq<Id>>, ghost order: seq<Id>)
      requires 0 < count
      modifies this
      ensures T.ByLoad(old(Db()), order)
      ensures match T.Reserve(old(Db()), cfg, now, c, length, count, excluded, order)
              case Ok(out) => r == Ok(out.1) && Db() == out.0
              case Fail(code) => r == Fail(code) && Db() == old(Db())
      ensures r.Fail? <==> |WithRoom(old(Db()), cfg, now, length, excluded)| < count
      ensures r.Fail? ==> r.code == OutOfCapacity
      ensures r.Ok? ==>
                && |r.value| == count && Distinct(r.value)
                && (forall n :: n in r.value ==>
                      n in old(nodes) && n !in excluded && HasRoom(old(nodes)[n], cfg, now, length))
                && Placed(old(Db()), Db(), c, length, r.value)
    {
      hide T.Eligible, T.Reserve, T.ByLoad, HasRoom, Placed;
      var saved := Db();
      var candidates := NodesByLoad();
      order := candidates;
      PlacementFindsRoom(saved, cfg, now, c, length, count, excluded, order);
      var chosen := [];
      var i := 0;
      PrependNone(T.Reserve(saved, cfg, now, c, length, count, excluded, order));
      while i < |candidates| && |chosen| < count
        invariant i <= |candidates| && |chosen| <= count && candidates == order
        invariant T.Reserve(saved, cfg, now, c, length, count, excluded, order)
                  == Prepended(chosen, T.Reserve(Db(), cfg, now, c, length, count - |chosen|, excluded, order[i..]))
      {
        var n := candidates[i];
        ghost var before := Db();
        ReserveRound(before, cfg, now, c, length, count - |chosen|, excluded, order[i..], chosen);
        if n in nodes && n !in excluded && T.Eligible(nodes[n], cfg, now, length) {
          replicas := replicas[Key(c, n) := Replica(nodes[n].volume, Reserved, ReservedCharge)];
          AddToNode(n, length, 0);
          chosen := chosen + [n];
          assert Db() == T.Place(before, c, n, length);
        }
        i := i + 1;
        assert order[i - 1..][1..] == order[i..];
      }
      ReserveEnds(Db(), cfg, now, c, length, count - |chosen|, excluded, order[i..], chosen);
      if |chosen| < count {
        Rollback(saved);
        return Fail(OutOfCapacity), order;
      }
      r := Ok(chosen);
    }

    /** Write authorizations for a chunk: one per assigned node, or none at all if one of them is not live. */
    method Positions(now: Time, up: Id, c: Id, length: nat, digest: Digest) returns (r: Result<seq<Ticket>>)
      ensures r == T.Positions(Db(), cfg, now, up, c, length, digest)
      ensures r.Ok? <==> AllLively(Db(), cfg, now, c)
      ensures r.Fail? ==> r.code == NodeUnavailable
      ensures r.Ok? ==> AuthorizesPlaces(Db(), cfg, now, up, c, length, digest, r.value)
    {
      hide AllLively, AuthorizesPlaces, Places, Live;
      PlacesAreAuthorized(Db(), cfg, now, up, c, length, digest);
      var holders := Sorted(Assigned(Db(), c));
      var result := [];
      for i := 0 to |holders|
        invariant |result| == i
        invariant forall j :: 0 <= j < i ==> holders[j] in nodes && Live(nodes[holders[j]], cfg, now)
        invariant forall j :: 0 <= j < i ==> result[j] == T.TicketFor(Db(), cfg, now, up, c, length, digest, holders[j])
      {
        assert holders[i] in holders;
        if !Live(nodes[holders[i]], cfg, now) {
          assert holders[i] in Assigned(Db(), c);
          return Fail(NodeUnavailable);
        }
        result := result + [T.TicketFor(Db(), cfg, now, up, c, length, digest, holders[i])];
      }
      PositionsAre(Db(), cfg, now, up, c, length, digest, result);
      r := Ok(result);
    }

    // -------------------------------------------------------------- uploads

    /** The chunk at one position of an upload. */
    method FindChunk(up: Id, seqNo: nat) returns (at: Option<Id>)
      requires Good(Db())
      ensures at == ChunkAt(Db(), up, seqNo)
    {
      var found := set c | c in chunks && chunks[c].upload == up && chunks[c].seqNo == seqNo;
      assert found == PiecesAt(Db(), up, seqNo);
      if found == {} {
        return None;
      }
      var c :| c in found;
      assert ChunkAt(Db(), up, seqNo).value in PiecesAt(Db(), up, seqNo);
      at := Some(c);
    }

    method Init(now: Time, owner: Id, size: nat, oid: Id, up: Id, cids: seq<Id>)
      returns (r: Result<nat>, ghost orders: seq<seq<Id>>)
      requires cfg.Valid() && Good(Db()) && FreshIds(Db(), oid, up, cids)
      requires size <= cfg.chunk * cfg.maxChunks ==> |cids| == PieceCount(size, cfg.chunk)
      modifies this
      ensures size <= cfg.chunk * cfg.maxChunks ==> |orders| == |cids|
      ensures match T.Init(old(Db()), cfg, now, owner, size, oid, up, cids, orders)
              case Ok(t) => r == Ok(|cids|) && Db() == t
              case Fail(code) => r == Fail(code) && Db() == old(Db())
      ensures Good(Db())
      ensures r.Ok? ==>
                EachByLoad(NewObject(old(Db()), cfg, now, owner, size, oid, up), cfg, now, up, size, cids, orders,
                           |cids|)
      ensures r.Ok? ==> OnlyAdds(old(Db()), Db(), oid, up, cids) && Loaded(old(Db()), Db(), cfg, now)
      ensures r.Ok? ==>
                && oid in objects && objects[oid] == Object(owner, size, cfg.chunk, cfg.replicas, Staging)
                && up in uploads && uploads[up] == Upload(oid, Uploading, now + cfg.ttl)
      ensures r.Fail? ==> r.code == if cfg.chunk * cfg.maxChunks < size then Invalid else OutOfCapacity
    {
      hide PlacedByLoad, EachByLoad, PlacedSoFar, Good, FreshIds, T.PlaceChunks, T.Reserve, T.Init, Distinct, T.ByLoad,
        Advances, PieceCount, PrefixOk, Loaded, OnlyAdds, WithRoom, HasRoom, Placed;
      orders := [];
      if size > cfg.chunk * cfg.maxChunks {
        InitTooBig(Db(), cfg, now, owner, size, oid, up, cids, orders);
        return Fail(Invalid), orders;
      }
      var saved := Db();
      LastPieceBound(size, cfg, cids);
      objects := objects[oid := Object(owner, size, cfg.chunk, cfg.replicas, Staging)];
      uploads := uploads[up := Upload(oid, Uploading, now + cfg.ttl)];
      ghost var origin := Db();
      NothingPlaced(origin, cfg, now, up, size, cids);
      for i := 0 to |cids|
        invariant PlacedSoFar(origin, cfg, now, up, size, cids, orders, i, Db())
      {
        var c, length := cids[i], PieceLength(size, cfg.chunk, i);
        ghost var before := Db();
        PrefixInside(size, cfg.chunk, |cids|, i);
        chunks := chunks[c := Chunk(up, i, length, None, PendingChunk)];
        var chosen, order := Reserve(now, c, length, cfg.replicas, {});
        PlacedOneMore(origin, cfg, now, up, size, cids, orders, i, before, order);
        PlacedCount(origin, cfg, now, up, size, cids, orders, i, before);
        orders := orders + [order];
        if chosen.Fail? {
          orders := PlacementEnds(saved, cfg, now, owner, size, oid, up, cids, orders, i + 1, chosen.code);
          Rollback(saved);
          return Fail(chosen.code), orders;
        }
      }
      AllPlaced(saved, cfg, now, owner, size, oid, up, cids, orders, Db());
      InitGood(saved, cfg, now, owner, size, oid, up, cids, orders, Db());
      CreationFits(saved, cfg, now, owner, size, oid, up, cids, orders);
      r := Ok(|cids|);
    }

    method FixDigest(c: Id, digest: Digest)
      requires c in chunks
      modifies this`chunks
      ensures Db() == old(Db()).(chunks := old(chunks)[c := old(chunks)[c].(digest := Some(digest))])
    {
      chunks := chunks[c := chunks[c].(digest := Some(digest))];
    }

    /** Fix a chunk's digest, unless another one is fixed already, and authorize its writes. */
    method AuthorizeChunk(now: Time, up: Id, oid: Id, c: Id, digest: Digest) returns (r: Result<(Id, seq<Ticket>)>)
      requires c in chunks
      modifies this
      ensures match PrepareChunk(old(Db()), cfg, now, up, oid, c, digest)
              case Ok(out) => r == Ok((out.1, out.2)) && Db() == out.0
              case Fail(code) => r == Fail(code) && Db() == old(Db())
    {
      hide T.Positions, AllLively, AuthorizesPlaces;
      var saved := Db();
      if chunks[c].digest.Some? && chunks[c].digest.value != digest {
        return Fail(ChecksumConflict);
      }
      FixDigest(c, digest);
      var positions := Positions(now, up, c, saved.chunks[c].length, digest);
      if positions.Fail? {
        Rollback(saved);
        return Fail(positions.code);
      }
      if oid !in objects || |positions.value| != objects[oid].replicas {
        Rollback(saved);
        return Fail(NodeUnavailable);
      }
      r := Ok((c, positions.value));
    }

    method Prepare(now: Time, up: Id, owner: Id, seqNo: nat, digest: Digest) returns (r: Result<(Id, seq<Ticket>)>)
      requires Good(Db())
      modifies this
      ensures match T.Prepare(old(Db()), cfg, now, up, owner, seqNo, digest)
              case Ok(out) => r == Ok((out.1, out.2)) && Db() == out.0
              case Fail(code) => r == Fail(code) && Db() == old(Db())
      ensures forall c :: IsPiece(old(Db()), up, seqNo, c) ==>
                && (r.Ok? <==> Sees(old(Db()), up, owner) && TakesData(old(Db()), now, up)
                               && CanWrite(old(Db()), cfg, now, c, digest))
                && (r.Ok? ==> r.value.0 == c && Prepares(old(Db()), Db(), cfg, now, c, digest, r.value.1))
      ensures (forall c :: !IsPiece(old(Db()), up, seqNo, c)) ==> r.Fail?
      ensures Good(Db())
    {
      hide Good, ChunkAt, T.Positions, T.ActiveUpload, Advances, T.Prepare, PrepareChunk, IsPiece, Sees, TakesData,
        CanWrite, Prepares;
      ghost var was := Db();
      PreparedPiece(was, cfg, now, up, owner, seqNo, digest);
      PrepareUnfolds(was, cfg, now, up, owner, seqNo, digest);
      var row :- T.ActiveUpload(Db(), now, up, Some(owner), false);
      if !(row.state.Uploading? && now < row.expires) {
        return Fail(NotActive);
      }
      var at := FindChunk(up, seqNo);
      if at.None? {
        return Fail(NotFound);
      }
      r := AuthorizeChunk(now, up, row.oid, at.value, digest);
      if r.Ok? {
        PrepareGood(was, cfg, now, up, owner, seqNo, digest, (Db(), r.value.0, r.value.1));
      }
    }

    /** Publish an upload after looking at every piece in order. */
    method Complete(now: Time, up: Id, owner: Id) returns (r: Result<()>)
      requires Good(Db())
      modifies this
      ensures match T.Complete(old(Db()), now, up, owner)
              case Ok(t) => r == Ok(()) && Db() == t
              case Fail(code) => r == Fail(code) && Db() == old(Db())
      ensures r.Ok? <==> Sees(old(Db()), up, owner)
                         && (old(uploads)[up].state.Completed?
                             || (TakesData(old(Db()), now, up)
                                 && EveryPieceConfirmed(old(Db()), up, objects[old(uploads)[up].oid].replicas)))
      ensures r.Fail? ==> r.code == if up !in old(uploads) then NotFound
                                    else if !Sees(old(Db()), up, owner) then Forbidden
                                    else if TakesData(old(Db()), now, up) then Incomplete else NotActive
      ensures r.Ok? ==> Publishes(old(Db()), Db(), up)
      ensures Good(Db())
    {
      hide Good, ChunkAt, EveryPieceConfirmed, Publishes;
      ghost var saved := Db();
      PublishedIff(saved, now, up, owner);
      var row :- T.ActiveUpload(Db(), now, up, Some(owner), false);
      var object_ := objects[row.oid];
      if row.state.Completed? && object_.phase.Published? {
        return Ok(());
      }
      if !(row.state.Uploading? && now < row.expires) {
        return Fail(NotActive);
      }
      var pieces := ChunksOf(Db(), up);
      if object_.chunkSize == 0 || |pieces| != PieceCount(object_.size, object_.chunkSize) {
        return Fail(Incomplete);
      }
      for i := 0 to |pieces|
        invariant Db() == saved
        invariant forall j: nat :: j < i ==>
                      T.PieceReady(saved, up, object_.size, object_.chunkSize, object_.replicas, j)
      {
        var at := FindChunk(up, i);
        ChunkAtKnown(saved, up, i);
        if || at.None? || chunks[at.value].length != PieceLength(object_.size, object_.chunkSize, i)
           || !chunks[at.value].state.ConfirmedChunk? || |ValidRows(Db(), at.value)| < object_.replicas {
          assert !T.PieceReady(saved, up, object_.size, object_.chunkSize, object_.replicas, i);
          return Fail(Incomplete);
        }
      }
      if object_.phase.Staging? {
        objects := objects[row.oid := object_.(phase := Published)];
      }
      uploads := uploads[up := row.(state := Completed)];
      PublishGood(saved, now, up, owner, Db());
      r := Ok(());
    }

    method RetireRow(k: Key, length: int, lease: Time)
      requires k in replicas
      modifies this
      ensures Db() == RetireOne(old(Db()), k, length, lease)
    {
      if replicas[k].charge.ReservedCharge? {
        Uncharge(k, length);
      }
      if k in replicas && !replicas[k].state.Gone? {
        replicas := replicas[k := replicas[k].(state := Deleting)];
      }
      Enqueue(DeleteOf(k.chunk, k.node), lease);
    }

    /** Delete logically: row by row, reservations go back and cleanups are queued; then repairs are fenced off. */
    method Retire(now: Time, up: Id, state: UploadState)
      requires Good(Db()) && MayRetire(Db(), up, state)
      modifies this
      ensures Db() == T.Retire(old(Db()), cfg, now, up, state) && Good(Db())
    {
      hide Good, T.RetireRows, PairOk, RetireOne, Advances, PhaseOfUpload;
      ghost var was := Db();
      UploadKnownGood(was, up);
      var oid, lease := uploads[up].oid, now + cfg.CleanupDelay();
      uploads := uploads[up := uploads[up].(state := state)];
      objects := objects[oid := objects[oid].(phase := Deleted)];
      ghost var marked := Db();
      assert marked == T.MarkDeleted(was, up, state);
      var rows := RowsOf(Db(), up);
      RowsAreRows(was, marked, up);
      var rest := rows;
      RetireNone(marked, lease);
      assert rows - rest == {};
      while rest != {}
        invariant rest <= rows && chunks == marked.chunks
        invariant Db() == T.RetireRows(marked, rows - rest, lease)
        decreases |rest|
      {
        var k :| k in rest;
        RetireOneMore(marked, rows - rest, k, lease);
        RetireRow(k, chunks[k.chunk].length, lease);
        assert rows - (rest - {k}) == (rows - rest) + {k};
        RetireKeepsChunks(marked, (rows - rest) + {k}, lease);
        rest := rest - {k};
      }
      assert rows - {} == rows;
      tasks := map key | key in tasks :: if T.RepairsUpload(Db(), up, key) then Task(Done, 0.0, None) else tasks[key];
      RetireGood(was, cfg, now, up, state);
    }

    /** Withdraw an active upload. One that is cancelled or expired already stays as it is. */
    method Cancel(now: Time, up: Id, owner: Id) returns (r: Result<()>)
      requires Good(Db())
      modifies this
      ensures match T.Cancel(old(Db()), cfg, now, up, owner)
              case Ok(t) => r == Ok(()) && Db() == t
              case Fail(code) => r == Fail(code) && Db() == old(Db())
      ensures r.Ok? <==> Sees(old(Db()), up, owner)
                         && (Over(old(uploads)[up].state)
                             || (old(uploads)[up].state.Uploading? && now < old(uploads)[up].expires))
      ensures r.Ok? ==>
                && up in uploads && (if old(uploads)[up].state.Uploading? then uploads[up].state.Cancelled?
                                     else uploads[up] == old(uploads)[up])
                && Retired(Db(), old(uploads)[up].oid) && Cancels(old(Db()), Db(), cfg, now, up)
      ensures Good(Db())
    {
      hide Good, T.Retire, Cancels, Retired;
      CancelCancels(Db(), cfg, now, up, owner);
      CancelsFacts(Db(), T.Cancel(Db(), cfg, now, up, owner), cfg, now, up);
      var row :- T.ActiveUpload(Db(), now, up, Some(owner), false);
      if row.state.Cancelled? || row.state.Expired? {
        return Ok(());
      }
      if !(row.state.Uploading? && now < row.expires) {
        return Fail(NotActive);
      }
      Retire(now, up, Cancelled);
      r := Ok(());
    }

    /** Delete an object for its owner. One that is deleted already stays as it is. */
    method Delete(now: Time, oid: Id, owner: Id) returns (r: Result<()>)
      requires Good(Db())
      modifies this
      ensures match T.Delete(old(Db()), cfg, now, oid, owner)
              case Ok(t) => r == Ok(()) && Db() == t
              case Fail(code) => r == Fail(code) && Db() == old(Db())
      ensures r.Ok? <==> oid in old(objects) && old(objects)[oid].owner == owner
      ensures r.Fail? ==> r.code == if oid in old(objects) then Forbidden else NotFound
      ensures r.Ok? ==>
                && oid in objects && objects[oid].phase.Deleted?
                && Retired(Db(), oid) && Deletes(old(Db()), Db(), cfg, now, oid)
      ensures Good(Db())
    {
      hide Good, T.Retire, UploadOf, Deletes, Retired;
      DeleteDeletes(Db(), cfg, now, oid, owner);
      DeletesFacts(Db(), T.Delete(Db(), cfg, now, oid, owner), cfg, now, oid);
      if oid !in objects {
        return Fail(NotFound);
      }
      if objects[oid].owner != owner {
        return Fail(Forbidden);
      }
      if !objects[oid].phase.Deleted? {
        var found := set up | up in uploads && uploads[up].oid == oid;
        TheUpload(Db(), oid);
        assert found == UploadsOf(Db(), oid);
        var up :| up in found;
        UndeletedMayRetire(Db(), up);
        Retire(now, up, Cancelled);
      }
      r := Ok(());
    }

    /** A reader reports a replica it could not use. */
    method BadReplica(oid: Id, owner: Id, c: Id, n: Id) returns (r: Result<()>)
      requires Good(Db())
      modifies this
      ensures match T.BadReplica(old(Db()), oid, owner, c, n)
              case Ok(t) => r == Ok(()) && Db() == t
              case Fail(code) => r == Fail(code) && Db() == old(Db())
      ensures r.Ok? <==> Readable(old(Db()), oid, owner) && OfObject(old(Db()), oid, c)
      ensures r.Ok? ==> Reports(old(Db()), Db(), c, n)
      ensures Good(Db())
    {
      hide Good, Linked, T.Enqueue, Advances, Reports, Readable, OfObject;
      ghost var was := Db();
      ReportedExactlyIf(was, oid, owner, c, n);
      var _ :- T.PublishedObject(Db(), oid, owner);
      if !(Linked(Db(), c) && ObjectIdOf(Db(), c) == oid) {
        return Fail(Invalid);
      }
      var k := Key(c, n);
      if k in replicas && replicas[k].state.Valid? {
        replicas := replicas[k := replicas[k].(state := Bad)];
      }
      Enqueue(RepairOf(c), 0.0);
      BadReplicaGood(was, oid, owner, c, n, Db());
      r := Ok(());
    }

    /** Where to read one chunk of a published object: its healthy replicas. */
    method Locations(now: Time, oid: Id, owner: Id, seqNo: nat) returns (r: Result<(Id, nat, Option<Digest>, set<Id>)>)
      requires Good(Db())
      ensures r.Ok? ==>
                && PhaseOf(Db(), r.value.0) == Some(Published) && ObjectIdOf(Db(), r.value.0) == oid
                && chunks[r.value.0].seqNo == seqNo && r.value.1 == chunks[r.value.0].length
                && r.value.2 == chunks[r.value.0].digest
                && r.value.3 == HealthyNodes(Db(), cfg, now, r.value.0)
      ensures r.Ok? <==>
                T.PublishedObject(Db(), oid, owner).Ok? && seqNo < PieceCount(objects[oid].size, objects[oid].chunkSize)
      ensures r.Fail? ==>
                r.code == if T.PublishedObject(Db(), oid, owner).Fail? then T.PublishedObject(Db(), oid, owner).code
                    else NotFound
    {
      hide Good, UploadOf, HealthyNodes, PieceCount, ChunkAt;
      var _ :- T.PublishedObject(Db(), oid, owner);
      var found := set up | up in uploads && uploads[up].oid == oid;
      TheUpload(Db(), oid);
      assert found == UploadsOf(Db(), oid);
      var up :| up in found;
      var at := FindChunk(up, seqNo);
      PieceIsThere(Db(), up, seqNo);
      if at.None? {
        return Fail(NotFound);
      }
      var c := at.value;
      r := Ok((c, chunks[c].length, chunks[c].digest, HealthyNodes(Db(), cfg, now, c)));
    }

    // -------------------------------------------------------------- confirmation

    /** What a confirmation has to verify. */
    method ConfirmBegin(now: Time, up: Id, asking: Option<Id>, seqNo: nat) returns (r: Result<T.ConfirmSnap>)
      requires Good(Db())
      ensures r == T.ConfirmBegin(Db(), cfg, now, up, asking, seqNo)
      ensures forall c :: IsPiece(Db(), up, seqNo, c) ==>
                && (r.Ok? <==>
                      && (asking.None? || Sees(Db(), up, asking.value)) && TakesData(Db(), now, up)
                      && chunks[c].digest.Some? && CanWrite(Db(), cfg, now, c, chunks[c].digest.value))
                && (r.Ok? ==> AsksAbout(Db(), cfg, now, c, asking, r.value))
      ensures (forall c :: !IsPiece(Db(), up, seqNo, c)) ==> r.Fail?
    {
      hide Good, ChunkAt, T.Positions, IsPiece, Sees, TakesData, CanWrite, AsksAbout, AllLively, AuthorizesPlaces;
      BegunPiece(Db(), cfg, now, up, asking, seqNo);
      var row :- T.ActiveUpload(Db(), now, up, asking, true);
      var at := FindChunk(up, seqNo);
      if at.None? {
        return Fail(NotFound);
      }
      var c := at.value;
      ChunkAtKnown(Db(), up, seqNo);
      if chunks[c].digest.None? {
        return Fail(Invalid);
      }
      var positions :- Positions(now, up, c, chunks[c].length, chunks[c].digest.value);
      if |positions| != objects[row.oid].replicas {
        return Fail(Incomplete);
      }
      r := Ok(T.ConfirmSnap(up, asking, c, chunks[c].length, chunks[c].digest.value, positions));
    }

    /** The progress query: the lengths of an upload's confirmed chunks, added up. */
    method ConfirmedSum(up: Id) returns (sum: int)
      ensures sum == ConfirmedBytes(Db(), up)
    {
      var rest := Confirmed(Db(), up);
      sum := 0;
      while rest != {}
        invariant rest <= chunks.Keys
        invariant sum + Total(rest, LengthOf(Db())) == ConfirmedBytes(Db(), up)
        decreases |rest|
      {
        var c :| c in rest;
        TotalTakeOut(rest, LengthOf(Db()), c);
        sum := sum + chunks[c].length;
        rest := rest - {c};
      }
    }

    /** After every node answered: re-check, then turn the reservations of the verified nodes into use, one by one. */
    method ConfirmCommit(now: Time, snap: T.ConfirmSnap) returns (r: Result<int>)
      requires Good(Db()) && ConfirmSnapFits(Db(), snap)
      modifies this
      ensures match T.ConfirmCommit(old(Db()), cfg, now, snap)
              case Ok(t) => r == Ok(ConfirmedBytes(t, snap.upload)) && Db() == t
              case Fail(code) => r == Fail(code) && Db() == old(Db())
      ensures r.Ok? <==>
                && (snap.owner.None? || Sees(old(Db()), snap.upload, snap.owner.value))
                && TakesData(old(Db()), now, snap.upload) && AllLively(old(Db()), cfg, now, snap.chunk)
                && Places(old(Db()), snap.chunk) != {} && SameHosts(old(Db()), snap.chunk, snap.positions)
      ensures r.Ok? ==> Confirms(old(Db()), Db(), snap)
      ensures Good(Db())
    {
      hide Good, T.Positions, T.ConvertRows, Advances, ConfirmedBytes, AllLively, Places, SameHosts, Confirms, Owns,
        AuthorizesPlaces;
      ghost var was := Db();
      FitUpload(was, snap);
      CommitIs(was, cfg, now, snap);
      var _ :- T.ActiveUpload(Db(), now, snap.upload, snap.owner, true);
      var current :- Positions(now, snap.upload, snap.chunk, snap.length, snap.digest);
      if current == [] || T.Instances(current) != T.Instances(snap.positions) {
        return Fail(Stale);
      }
      ConvertNone(was, snap.chunk, snap.length);
      assert T.TicketNodes(snap.positions[..0]) == {};
      for i := 0 to |snap.positions|
        invariant Db() == T.ConvertRows(was, snap.chunk, snap.length, T.TicketNodes(snap.positions[..i]))
      {
        var n := snap.positions[i].node;
        var k := Key(snap.chunk, n);
        ghost var before := Db();
        if k in replicas && replicas[k].state.Reserved? {
          replicas := replicas[k := replicas[k].(state := Valid, charge := UsedCharge)];
          AddToNode(n, -(snap.length as int), snap.length);
        }
        assert Db() == ConvertOne(before, snap.chunk, snap.length, n);
        ConvertOneMore(was, snap.chunk, snap.length, T.TicketNodes(snap.positions[..i]), n);
        OneMoreTicket(snap.positions, i);
      }
      assert snap.positions[..|snap.positions|] == snap.positions;
      if snap.chunk in chunks {
        chunks := chunks[snap.chunk := chunks[snap.chunk].(state := ConfirmedChunk)];
      }
      ConfirmCommitGood(was, cfg, now, snap, Db());
      var progress := ConfirmedSum(snap.upload);
      r := Ok(progress);
    }

    // -------------------------------------------------------------- nodes

    /** Settled rows of a node wait for a new `stat`; reservations follow it to its new volume. */
    method MoveRows(n: Id, volume: Id)
      modifies this`replicas
      ensures replicas == map k | k in old(replicas) :: if k.node == n then T.MovedRow(old(replicas)[k], volume)
          else old(replicas)[k]
    {
      replicas := map k | k in replicas ::
        if k.node == n && (replicas[k].state.Valid? || replicas[k].state.Bad?) then replicas[k].(state := Unverified)
            else replicas[k];
      replicas := map k | k in replicas ::
        if k.node == n && replicas[k].state.Reserved? then replicas[k].(volume := volume) else replicas[k];
    }

    /** Enter what a node reports of itself; its books stay. */
    method Register(b: T.Beat)
      modifies this`nodes
      ensures nodes == old(nodes)[b.node := Node(b.instance, b.volume, b.readAt, b.capacity, b.free,
                                                 if b.node in old(nodes) then old(nodes)[b.node].reserved else 0,
                                                 if b.node in old(nodes) then old(nodes)[b.node].used else 0, Healthy)]
    {
      if b.node in nodes {
        nodes := nodes[b.node := nodes[b.node].(instance := b.instance, volume := b.volume, heartbeat := b.readAt,
                                                capacity := b.capacity, free := b.free, health := Healthy)];
      } else {
        nodes := nodes[b.node := Node(b.instance, b.volume, b.readAt, b.capacity, b.free, 0, 0, Healthy)];
      }
    }

    /** `b.readAt` is the clock reading taken before the transaction. */
    method Heartbeat(b: T.Beat) returns (r: Result<()>)
      requires Good(Db())
      modifies this
      ensures match T.Heartbeat(old(Db()), cfg, b)
              case Ok(t) => r == Ok(()) && Db() == t
              case Fail(code) => r == Fail(code) && Db() == old(Db())
      ensures r.Ok? <==> Acceptable(old(Db()), cfg, b)
      ensures r.Ok? ==> Registers(old(Db()), Db(), b)
      ensures r.Ok? && Changes(old(Db()), b) ==>
                forall k :: k in replicas && k.node == b.node ==> !replicas[k].state.Valid? && !replicas[k].state.Bad?
      ensures Good(Db())
    {
      hide Good, Advances, T.MovedRow, Registers, Acceptable, Changes;
      ghost var was := Db();
      BeatRegisters(was, cfg, b);
      if b.node !in cfg.nodes || !(0 <= b.free <= b.capacity <= T.MAX_CAPACITY) {
        return Fail(Invalid);
      }
      var changed := false;
      if b.node in nodes && nodes[b.node].instance != b.instance {
        if (b.node, b.instance) in retired {
          return Fail(Stale);
        }
        if b.readAt - nodes[b.node].heartbeat < cfg.dead {
          return Fail(DuplicateNode);
        }
        retired := retired + {(b.node, nodes[b.node].instance)};
        changed := true;
      }
      changed := changed || (b.node in nodes && nodes[b.node].volume != b.volume);
      Register(b);
      if changed {
        MoveRows(b.node, b.volume);
      }
      assert T.Heartbeat(was, cfg, b) == Ok(Db());
      hide T.Heartbeat;
      HeartbeatGood(was, cfg, b, Db());
      NoneServes(was, Db(), b);
      r := Ok(());
    }

    // -------------------------------------------------------------- maintenance

    /** Grade the nodes, retire up to 32 overdue uploads, queue a repair for every published chunk that is short. */
    method Maintain(now: Time) returns (ghost expired: seq<Id>, ghost scanned: seq<Id>)
      requires Good(Db())
      modifies this
      ensures Good(Db())
      ensures Db() == QueueAll(ExpireAll(T.GradeNodes(old(Db()), cfg, now), cfg, now, expired), cfg, now, scanned)
      ensures |expired| <= 32 && Distinct(expired) && forall up :: up in expired ==> T.Overdue(old(Db()), now, up)
      ensures |expired| < 32 ==> forall up :: T.Overdue(old(Db()), now, up) ==> up in expired
      ensures forall up :: up in expired ==> Ended(Db(), up)
      ensures |expired| < 32 ==>
                forall up :: up in uploads && uploads[up].state.Uploading? ==> now <= uploads[up].expires
      ensures forall c :: IsShort(Db(), cfg, now, c) ==> Open(Db(), RepairOf(c))
    {
      hide Good, Advances, T.GradeNodes, T.NeedsRepair, T.Overdue, ExpireAll, QueueAll, Open;
      GradeGood(Db(), cfg, now);
      GradingKeepsOverdue(Db(), cfg, now);
      GradeNodes(now);
      expired := ExpireOverdue(now);
      scanned := QueueRepairs(now);
      ShortNeedRepair(Db(), cfg, now);
    }

    /** Retire overdue uploads, at most 32 of them. */
    method ExpireOverdue(now: Time) returns (ghost expired: seq<Id>)
      requires Good(Db())
      modifies this
      ensures Good(Db()) && Db() == ExpireAll(old(Db()), cfg, now, expired)
      ensures |expired| <= 32 && Distinct(expired) && forall up :: up in expired ==> T.Overdue(old(Db()), now, up)
      ensures |expired| < 32 ==> forall up :: T.Overdue(old(Db()), now, up) ==> up in expired
      ensures forall up :: up in expired ==> Ended(Db(), up)
      ensures |expired| < 32 ==>
                forall up :: up in uploads && uploads[up].state.Uploading? ==> now <= uploads[up].expires
    {
      hide Good, Advances, T.Retire, PhaseOf, PairOk, Ended;
      OverdueMayExpire(Db(), now);
      ghost var was := Db();
      expired := [];
      var overdue := set up | up in uploads && T.Overdue(Db(), now, up);
      ghost var all := overdue;
      var count := 0;
      while overdue != {} && count < 32
        invariant |expired| == count <= 32 && Distinct(expired) && Good(Db()) && overdue <= all <= uploads.Keys
        invariant forall up :: up in all <==> up in expired || up in overdue
        invariant forall up :: up in expired ==> up !in overdue
        invariant forall up :: up in overdue ==> MayRetire(Db(), up, Expired)
        invariant Db() == ExpireAll(was, cfg, now, expired)
        decreases |overdue|
      {
        var up :| up in overdue;
        RetireKeepsUploads(Db(), cfg, now, up, Expired);
        Retire(now, up, Expired);
        ghost var longer := expired + [up];
        assert longer[..|longer| - 1] == expired;
        expired := longer;
        overdue := overdue - {up};
        count := count + 1;
      }
      ExpiredAreEnded(was, Db(), cfg, now, expired);
    }

    method GradeNodes(now: Time)
      modifies this
      ensures Db() == T.GradeNodes(old(Db()), cfg, now)
      ensures Db() == old(Db()).(nodes := nodes)
    {
      nodes := map n | n in nodes :: nodes[n].(health := T.AgedHealth(nodes[n].heartbeat, cfg, now));
    }

    method QueueIfShort(now: Time, c: Id)
      requires Good(Db())
      modifies this`tasks
      ensures Db() == QueueOne(old(Db()), cfg, now, c)
      ensures Good(Db()) && (T.NeedsRepair(old(Db()), cfg, now, c) ==> Open(Db(), RepairOf(c)))
      ensures forall key :: Open(old(Db()), key) ==> Open(Db(), key)
    {
      hide Good, Advances, T.NeedsRepair, PhaseOf;
      var key := RepairOf(c);
      if T.NeedsRepair(Db(), cfg, now, c) {
        NeedyIsPublished(Db(), cfg, now, c);
        EnqueueGood(Db(), key, 0.0);
        if key !in tasks {
          tasks := tasks[key := Task(Pending, 0.0, None)];
        } else if tasks[key].state.Done? {
          tasks := tasks[key := tasks[key].(state := Pending, lease := 0.0)];
        }
      }
    }

    method QueueRepairs(now: Time) returns (scanned: seq<Id>)
      requires Good(Db())
      modifies this`tasks
      ensures Good(Db()) && Db() == QueueAll(old(Db()), cfg, now, scanned)
      ensures forall c :: T.NeedsRepair(Db(), cfg, now, c) ==> Open(Db(), RepairOf(c))
    {
      hide Good, Advances, T.NeedsRepair, T.Enqueue, PhaseOf, Linked, QueueAll, QueueOne, Open, PublishedChunks;
      ghost var was := Db();
      scanned := Sorted(PublishedChunks(Db()));
      QueueNone(was, cfg, now);
      for i := 0 to |scanned|
        invariant Good(Db()) && Db() == was.(tasks := tasks) && Db() == QueueAll(was, cfg, now, scanned[..i])
        invariant forall j :: 0 <= j < i && T.NeedsRepair(was, cfg, now, scanned[j]) ==>
                      Open(Db(), RepairOf(scanned[j]))
      {
        QueueOneMore(was, cfg, now, scanned, i);
        SameNeeds(was, Db(), cfg, now);
        QueueIfShort(now, scanned[i]);
      }
      assert scanned[..|scanned|] == scanned;
      NeedyAreQueued(was, Db(), cfg, now, scanned);
    }

    // -------------------------------------------------------------- reconciliation

    /** Up to 128 unverified rows of a node. */
    method UnverifiedRows(n: Id) returns (ks: seq<Key>)
      ensures |ks| <= 128 && forall i, j :: 0 <= i < j < |ks| ==> ks[i] != ks[j]
      ensures forall k :: k in ks ==> k in replicas && k.node == n && replicas[k].state.Unverified?
      ensures |ks| < 128 ==> forall k :: k in replicas && k.node == n && replicas[k].state.Unverified? ==> k in ks
    {
      var rest := set k | k in replicas && k.node == n && replicas[k].state.Unverified?;
      ghost var all := rest;
      ks := [];
      while rest != {} && |ks| < 128
        invariant |ks| <= 128 && rest <= all && forall k :: k in all <==> k in ks || k in rest
        invariant forall k :: k in ks ==> k !in rest
        invariant forall i, j :: 0 <= i < j < |ks| ==> ks[i] != ks[j]
        decreases |rest|
      {
        var k :| k in rest;
        ks := ks + [k];
        rest := rest - {k};
      }
    }

    /** Enter what a node answered about one unverified row, if it still is the node that was asked. */
    method SettleRow(n: Id, volume: Id, instance: Id, c: Id, length: nat, valid: bool)
      requires Good(Db()) && (c in chunks ==> length == chunks[c].length)
      modifies this
      ensures Db() == T.SettleRow(old(Db()), n, volume, instance, c, length, valid) && Good(Db())
      ensures Settles(old(Db()), Db(), n, volume, instance, c, valid)
      ensures Key(c, n) in old(replicas) && old(replicas)[Key(c, n)].state.Unverified?
              && StillRegistered(old(Db()), n, volume, instance) ==>
                Key(c, n) in replicas && replicas[Key(c, n)].state == (if valid then Valid else Bad)
                && replicas[Key(c, n)].volume == volume
    {
      hide Good, Advances, T.Uncharge, OnlyBooks;
      SettleRowGood(Db(), n, volume, instance, c, length, valid);
      AnswerSettles(Db(), n, volume, instance, c, length, valid);
      var k := Key(c, n);
      if k in replicas && n in nodes && nodes[n].volume == volume && nodes[n].instance == instance {
        var oldVolume := replicas[k].volume;
        if replicas[k].state.Unverified? {
          replicas := replicas[k := replicas[k].(state := if valid then Valid else Bad, volume := volume)];
        }
        if !valid && oldVolume != volume {
          Uncharge(k, length);
        }
      }
    }

    method SettleListed(now: Time, n: Id, volume: Id, c: Id)
      requires Good(Db())
      modifies this
      ensures Db() == T.SettleListed(old(Db()), cfg, now, n, volume, c) && Good(Db())
      ensures Lists(old(Db()), Db(), cfg, now, n, volume, c)
    {
      hide Good, Advances, T.Enqueue, PhaseOf, HealthyNodes, Lists;
      ListedIsCleanedIfUnwanted(Db(), cfg, now, n, volume, c);
      SettleListedGood(Db(), cfg, now, n, volume, c);
      PhaseIsLinked(Db(), c);
      var k, phase := Key(c, n), PhaseOf(Db(), c);
      if phase.None? || phase == Some(Deleted) {
        Enqueue(DeleteOf(c, n), now + cfg.CleanupDelay());
      } else if k in replicas && replicas[k].volume == volume
                && (replicas[k].state.Reserved? || replicas[k].state.Valid? || replicas[k].state.Unverified?) {
      } else if phase == Some(Published) {
        if ObjectOf(Db(), c).replicas <= |HealthyNodes(Db(), cfg, now, c)| {
          Enqueue(DeleteOf(c, n), now + cfg.CleanupDelay());
        }
      }
    }

    // -------------------------------------------------------------- tasks

    /** Take the open task whose lease ran out first. */
    method Claim(now: Time, token: Id, ids: map<TaskKey, nat>) returns (job: Option<TaskKey>)
      requires Good(Db()) && Numbered(tasks, ids)
      modifies this`tasks
      ensures job.None? ==> Db() == old(Db()) && forall key :: !T.Claimable(old(Db()), now, key)
      ensures job.Some? ==>
                && T.Claimable(old(Db()), now, job.value) && Db() == T.Claim(old(Db()), cfg, now, job.value, token)
                && forall key :: T.Claimable(old(Db()), now, key) && key != job.value ==>
                   Sooner(old(tasks), ids, job.value, key)
      ensures job.Some? ==> Leases(old(Db()), Db(), cfg, now, job.value, token)
      ensures Good(Db())
    {
      hide Good, Advances, Leases;
      var due := set key | key in tasks && T.Claimable(Db(), now, key);
      if due == {} {
        assert forall key :: T.Claimable(Db(), now, key) ==> key in due;
        return None;
      }
      assert exists key :: key in due && forall other :: other in due && other != key ==>
          Sooner(tasks, ids, key, other) by {
        var _ := SoonestExists(tasks, ids, due);
      }
      var key :| key in due && forall other :: other in due && other != key ==> Sooner(tasks, ids, key, other);
      ClaimGood(Db(), cfg, now, key, token);
      ClaimLeases(Db(), cfg, now, key, token);
      assert forall other :: T.Claimable(Db(), now, other) ==> other in due;
      tasks := tasks[key := Task(Running, now + cfg.lease, Some(token))];
      job := Some(key);
    }

    method GiveBack(now: Time, key: TaskKey, token: Id)
      requires Good(Db())
      modifies this`tasks
      ensures Db() == T.GiveBack(old(Db()), now, key, token) && Good(Db())
      ensures GivesBack(old(Db()), Db(), now, key, token)
    {
      hide Good, Advances, GivesBack;
      ReturnedIsFree(Db(), now, key, token);
      GiveBackGood(Db(), now, key, token);
      if key in tasks && tasks[key].token == Some(token) && tasks[key].state.Running? {
        tasks := tasks[key := tasks[key].(state := Pending, lease := now + 2.0)];
      }
    }

    /** Start a removal nobody objects to, and mark its row. */
    method DeleteBegin(now: Time, c: Id, n: Id, token: Id) returns (r: Result<T.DeleteSnap>)
      requires Good(Db())
      modifies this`replicas
      ensures match T.DeleteBegin(old(Db()), cfg, now, c, n, token)
              case Ok(out) => r == Ok(out.1) && Db() == out.0
              case Fail(code) => r == Fail(code) && Db() == old(Db())
      ensures r.Ok? <==> HoldsTask(old(Db()), now, DeleteOf(c, n), token) && n in nodes
                         && Removable(old(Db()), cfg, now, c, n)
      ensures r.Ok? ==> Marks(old(Db()), Db(), c, n, r.value)
      ensures Good(Db())
    {
      hide Good, Advances, HealthyNodes, PhaseOf, Removable, HoldsTask, Marks, Linked;
      ghost var was := Db();
      DeletionBegunExactlyIf(was, cfg, now, c, n, token);
      LinkedKnown(was, c);
      var k := Key(c, n);
      if !T.Fenced(Db(), now, DeleteOf(c, n), token) {
        return Fail(Stale);
      }
      if n !in nodes {
        return Fail(NodeUnavailable);
      }
      var snap := T.DeleteSnap(nodes[n].instance, nodes[n].volume, if Linked(Db(), c) then Some(chunks[c].length)
                               else None);
      if Linked(Db(), c) && !ObjectOf(Db(), c).phase.Deleted? {
        if !ObjectOf(Db(), c).phase.Published? {
          return Fail(Busy);
        }
        if k in replicas && (replicas[k].state.Valid? || replicas[k].state.Reserved? || replicas[k].state.Unverified?) {
          return Fail(Busy);
        }
        if |HealthyNodes(Db(), cfg, now, c)| < ObjectOf(Db(), c).replicas {
          return Fail(Busy);
        }
      }
      if k in replicas {
        replicas := replicas[k := replicas[k].(state := Deleting)];
      }
      DeleteBeginGood(was, cfg, now, c, n, token, (Db(), snap));
      r := Ok(snap);
    }

    /** Finish a removal the node has answered. */
    method DeleteCommit(now: Time, c: Id, n: Id, token: Id, snap: T.DeleteSnap) returns (r: Result<()>)
      requires Good(Db()) && DeleteSnapFits(Db(), c, snap)
      modifies this
      ensures match T.DeleteCommit(old(Db()), now, c, n, token, snap)
              case Ok(t) => r == Ok(()) && Db() == t
              case Fail(code) => r == Fail(code) && Db() == old(Db())
      ensures r.Ok? <==> HoldsTask(old(Db()), now, DeleteOf(c, n), token)
                         && StillRegistered(old(Db()), n, snap.volume, snap.instance)
      ensures r.Ok? ==> Removes(old(Db()), Db(), c, n, snap)
      ensures Good(Db())
    {
      hide Good, Advances, T.Uncharge, HoldsTask, StillRegistered, Removes, T.AddToNode;
      ghost var was := Db();
      DeletionFinishedExactlyIf(was, now, c, n, token, snap);
      var key, k := DeleteOf(c, n), Key(c, n);
      if !T.Fenced(Db(), now, key, token) {
        return Fail(Stale);
      }
      if n !in nodes || nodes[n].instance != snap.instance || nodes[n].volume != snap.volume {
        return Fail(Stale);
      }
      if snap.length.Some? {
        UnchargeIs(Db(), k, snap.length.value);
        Uncharge(k, snap.length.value);
      }
      if k in replicas && replicas[k].state.Deleting? {
        replicas := replicas[k := replicas[k].(state := Gone)];
      }
      tasks := tasks[key := tasks[key].(state := Done, lease := 0.0)];
      DeleteCommitGood(was, now, c, n, token, snap, Db());
      r := Ok(());
    }

    /** Start a repair; a reservation left behind by an earlier attempt is used again. */
    method RepairBegin(now: Time, c: Id, token: Id)
      returns (r: Result<Option<T.RepairSnap>>, ghost pending: Option<Id>, ghost order: seq<Id>)
      requires Good(Db())
      modifies this
      ensures PendingChoice(old(Db()), c, pending)
      ensures match T.RepairBegin(old(Db()), cfg, now, c, token, pending, order)
              case Ok(out) => r == Ok(out.1) && Db() == out.0
              case Fail(code) => r == Fail(code) && Db() == old(Db())
      ensures r.Ok? ==>
                && BeginsRepair(old(Db()), Db(), cfg, now, c, pending, r.value)
                && if r.value.None? then NothingToRepair(old(Db()), cfg, now, c, token)
                   else MayRepair(old(Db()), cfg, now, c, token)
      ensures pending.None? && r.Ok? && r.value.Some? ==>
                IsLightest(old(Db()), cfg, now, r.value.value.length, T.Occupied(old(Db()), c), r.value.value.target)
      ensures r == Fail(OutOfCapacity) ==>
                c in old(chunks) && forall n :: !Candidate(old(Db()), cfg, now, old(chunks)[c].length,
                    T.Occupied(old(Db()), c), n)
      ensures Good(Db())
    {
      hide Good, Advances, HealthyNodes, T.Reserve, PhaseOf, T.ByLoad, Live, T.Fenced, IsLightest, Candidate,
        T.Occupied, BeginsRepair, NothingToRepair, MayRepair;
      var saved := Db();
      var reserved := T.ReservedNodes(Db(), c);
      var choice: Option<Id> := None;
      if reserved != {} {
        var n :| n in reserved;
        choice := Some(n);
      }
      pending, order := choice, [];
      if !T.Fenced(Db(), now, RepairOf(c), token) {
        return Fail(Stale), pending, order;
      }
      if !Linked(Db(), c) {
        return Fail(NotFound), pending, order;
      }
      var chunk, object_, oid := chunks[c], ObjectOf(Db(), c), ObjectIdOf(Db(), c);
      if !object_.phase.Published? {
        return Fail(ObjectDeleted), pending, order;
      }
      var sources := HealthyNodes(Db(), cfg, now, c);
      if object_.replicas <= |sources| {
        HeldTask(Db(), now, RepairOf(c), token);
        tasks := tasks[RepairOf(c) := tasks[RepairOf(c)].(state := Done, lease := 0.0)];
        RepairBeginGood(saved, cfg, now, c, token, pending, order, (Db(), None));
        RepairEndsExactlyIf(saved, cfg, now, c, token, pending, order);
        return Ok(None), pending, order;
      }
      if sources == {} {
        return Fail(DataUnavailable), pending, order;
      }
      var target;
      target, order := ChooseTarget(now, c, chunk.length, choice);
      if target.Fail? {
        return Fail(target.code), pending, order;
      }
      var n := target.value;
      if n !in nodes || !Live(nodes[n], cfg, now) {
        Rollback(saved);
        return Fail(NodeUnavailable), pending, order;
      }
      r := Ok(Some(T.RepairSnap(c, chunk.length, chunk.digest, chunk.upload, oid, object_.replicas,
                                sources, n, nodes[n].volume, nodes[n].instance)));
      RepairBeginGood(saved, cfg, now, c, token, pending, order, (Db(), r.value));
      RepairBegunExactlyIf(saved, cfg, now, c, token, pending, order);
    }

    method ChooseTarget(now: Time, c: Id, length: int, pending: Option<Id>)
      returns (r: Result<Id>, ghost order: seq<Id>)
      requires pending.Some? ==> pending.value in T.ReservedNodes(Db(), c)
      modifies this
      ensures match T.RepairTarget(old(Db()), cfg, now, c, length, pending, order)
              case Ok(out) => r == Ok(out.1) && Db() == out.0
              case Fail(code) => r == Fail(code) && Db() == old(Db())
      ensures pending.None? && r.Ok? ==> IsLightest(old(Db()), cfg, now, length, T.Occupied(old(Db()), c), r.value)
      ensures pending.None? ==> T.ByLoad(old(Db()), order)
      ensures r.Fail? ==>
                r == Fail(OutOfCapacity)
                    && forall n :: !Candidate(old(Db()), cfg, now, length, T.Occupied(old(Db()), c), n)
    {
      hide T.Reserve, T.ByLoad, IsLightest, Candidate;
      ghost var was := Db();
      if pending.Some? {
        return Ok(pending.value), [];
      }
      var chosen;
      chosen, order := Reserve(now, c, length, 1, T.Occupied(Db(), c));
      ReserveOne(was, cfg, now, c, length, T.Occupied(was, c), order);
      LightestReserved(was, cfg, now, c, length, T.Occupied(was, c), order);
      if chosen.Fail? {
        return Fail(chosen.code), order;
      }
      r := Ok(chosen.value[0]);
    }

    /** Record the copy a repair has written, or throw it away if enough others have become healthy. */
    method RepairCommit(now: Time, token: Id, snap: T.RepairSnap) returns (r: Result<()>)
      requires Good(Db()) && RepairSnapFits(Db(), snap)
      modifies this
      ensures match T.RepairCommit(old(Db()), cfg, now, token, snap)
              case Ok(t) => r == Ok(()) && Db() == t
              case Fail(code) => r == Fail(code) && Db() == old(Db())
      ensures r.Ok? <==> MayCommit(old(Db()), now, token, snap)
      ensures r.Ok? ==>
                && Records(old(Db()), Db(), cfg, now, snap) && Key(snap.chunk, snap.target) in replicas
                && var row := replicas[Key(snap.chunk, snap.target)];
                   if |HealthyNodes(old(Db()), cfg, now, snap.chunk)| < snap.required
                   then row.state.Valid? && row.charge.UsedCharge?
                   else row.state.Bad? && row.charge.NoCharge? && Open(Db(), DeleteOf(snap.chunk, snap.target))
      ensures Good(Db())
    {
      hide Good, Advances, HealthyNodes, T.Uncharge, T.Enqueue, T.AddToNode, Linked, RepairSnapFits, Records, MayCommit,
        Open;
      ghost var was := Db();
      RepairRecords(was, cfg, now, token, snap);
      CommitRecords(was, T.RepairCommit(was, cfg, now, token, snap), cfg, now, token, snap);
      var c, n := snap.chunk, snap.target;
      var key, k := RepairOf(c), Key(c, n);
      if !T.Fenced(Db(), now, key, token) {
        return Fail(Stale);
      }
      if snap.oid !in objects || !objects[snap.oid].phase.Published? {
        return Fail(ObjectDeleted);
      }
      if n !in nodes || nodes[n].volume != snap.volume || nodes[n].instance != snap.instance {
        return Fail(Stale);
      }
      if k !in replicas || !(replicas[k].state.Reserved? && replicas[k].charge.ReservedCharge?) {
        return Fail(Stale);
      }
      if snap.required <= |HealthyNodes(Db(), cfg, now, c)| {
        UnchargeIs(Db(), k, snap.length);
        Uncharge(k, snap.length);
        replicas := replicas[k := replicas[k].(state := Bad)];
        EnqueueShape(Db(), DeleteOf(c, n), now + cfg.CleanupDelay());
        Enqueue(DeleteOf(c, n), now + cfg.CleanupDelay());
      } else {
        replicas := replicas[k := replicas[k].(state := Valid, charge := UsedCharge)];
        AddKeepsTasks(Db(), n, -(snap.length as int), snap.length);
        AddToNode(n, -(snap.length as int), snap.length);
      }
      tasks := tasks[key := tasks[key].(state := Done, lease := 0.0)];
      RepairCommitGood(was, cfg, now, token, snap, Db());
      r := Ok(());
    }

    // -------------------------------------------------------------- progress

    /** The progress figure, and one page of the positions still missing. */
    method Status(up: Id, owner: Id, cursor: nat) returns (r: Result<(int, seq<nat>, Option<nat>)>)
      ensures match T.ActiveUpload(Db(), 0.0, up, Some(owner), false)
              case Fail(code) => r == Fail(code)
              case Ok(_) =>
                r == Ok((ConfirmedBytes(Db(), up), Page(MissingPositions(Db(), up), cursor).0,
                         Page(MissingPositions(Db(), up), cursor).1))
    {
      hide Page, MissingPositions;
      var row :- T.ActiveUpload(Db(), 0.0, up, Some(owner), false);
      var sum := ConfirmedSum(up);
      var (page, next) := Page(MissingPositions(Db(), up), cursor);
      r := Ok((sum, page, next));
    }
  }

  lemma DeletesFacts(t: Tables, r: Result<Tables>, cfg: Config, now: Time, oid: Id)
    ensures oid in t.objects && r.Ok? && Deletes(t, r.value, cfg, now, oid) ==>
              Retired(r.value, oid) && oid in r.value.objects && r.value.objects[oid].phase.Deleted?
  {
    hide OthersKept, CleanupQueued;
  }

  lemma CancelsFacts(t: Tables, r: Result<Tables>, cfg: Config, now: Time, up: Id)
    ensures up in t.uploads && r.Ok? && Cancels(t, r.value, cfg, now, up) ==>
              && Retired(r.value, t.uploads[up].oid) && up in r.value.uploads
              && (if Over(t.uploads[up].state) then r.value.uploads[up] == t.uploads[up]
                  else r.value.uploads[up].state.Cancelled?)
  {
    hide Retired, OthersKept, CleanupQueued;
  }

  lemma NoneServes(t: Tables, u: Tables, b: T.Beat)
    ensures Registers(t, u, b) && Changes(t, b) ==>
              forall k :: k in u.replicas && k.node == b.node ==>
                !u.replicas[k].state.Valid? && !u.replicas[k].state.Bad?
  {
  }

  lemma CommitRecords(t: Tables, r: Result<Tables>, cfg: Config, now: Time, token: Id, snap: T.RepairSnap)
    ensures r.Ok? && MayCommit(t, now, token, snap) && Records(t, r.value, cfg, now, snap) ==>
              Key(snap.chunk, snap.target) in r.value.replicas
              && var row := r.value.replicas[Key(snap.chunk, snap.target)];
                 if |HealthyNodes(t, cfg, now, snap.chunk)| < snap.required
                 then row.state.Valid? && row.charge.UsedCharge?
                 else row.state.Bad? && row.charge.NoCharge? && Open(r.value, DeleteOf(snap.chunk, snap.target))
  {
    hide HealthyNodes;
    if r.Ok? && MayCommit(t, now, token, snap) && Records(t, r.value, cfg, now, snap) {
      RecordedFacts(t, r.value, cfg, now, token, snap);
    }
  }

  predicate IsPiece(t: Tables, up: Id, seqNo: nat, c: Id) {
    c in t.chunks && t.chunks[c].upload == up && t.chunks[c].seqNo == seqNo && Linked(t, c)
  }

  lemma PreparedPiece(t: Tables, cfg: Config, now: Time, up: Id, owner: Id, seqNo: nat, digest: Digest)
    requires Good(t)
    ensures var r := T.Prepare(t, cfg, now, up, owner, seqNo, digest);
            && (forall c :: IsPiece(t, up, seqNo, c) ==>
                  && (r.Ok? <==> Sees(t, up, owner) && TakesData(t, now, up) && CanWrite(t, cfg, now, c, digest))
                  && (r.Ok? ==> r.value.1 == c && Prepares(t, r.value.0, cfg, now, c, digest, r.value.2)))
            && ((forall c :: !IsPiece(t, up, seqNo, c)) ==> r.Fail?)
  {
    hide T.Prepare, Good, CanWrite, Prepares, Linked, Owns;
    forall c | IsPiece(t, up, seqNo, c)
      ensures var r := T.Prepare(t, cfg, now, up, owner, seqNo, digest);
              && (r.Ok? <==> Sees(t, up, owner) && TakesData(t, now, up) && CanWrite(t, cfg, now, c, digest))
              && (r.Ok? ==> r.value.1 == c && Prepares(t, r.value.0, cfg, now, c, digest, r.value.2))
    {
      PreparedExactlyIf(t, cfg, now, c, owner, digest);
    }
    PieceExists(t, up, seqNo);
    PrepareUnfolds(t, cfg, now, up, owner, seqNo, digest);
  }

  lemma PieceExists(t: Tables, up: Id, seqNo: nat)
    requires Good(t)
    ensures ChunkAt(t, up, seqNo).Some? ==> IsPiece(t, up, seqNo, ChunkAt(t, up, seqNo).value)
  {
    hide Balanced, Rows, Tasks, Counts, Pieces, Pairs;
    if ChunkAt(t, up, seqNo).Some? {
      assert ChunkAt(t, up, seqNo).value in PiecesAt(t, up, seqNo);
    }
  }

  lemma PublishedIff(t: Tables, now: Time, up: Id, owner: Id)
    requires Good(t)
    ensures var r := T.Complete(t, now, up, owner);
            && (r.Ok? <==> Sees(t, up, owner)
                           && (t.uploads[up].state.Completed?
                               || (TakesData(t, now, up)
                                   && EveryPieceConfirmed(t, up, t.objects[t.uploads[up].oid].replicas))))
            && (r.Fail? ==> r.code == if up !in t.uploads then NotFound else if !Sees(t, up, owner) then Forbidden
                                      else if TakesData(t, now, up) then Incomplete else NotActive)
            && (r.Ok? ==> Publishes(t, r.value, up))
  {
    hide Good, T.Complete, EveryPieceConfirmed, Publishes;
    PublishingTouches(t, now, up, owner);
    if Sees(t, up, owner) {
      PublishedExactlyWhenWhole(t, now, up, owner);
    }
  }

  lemma BegunPiece(t: Tables, cfg: Config, now: Time, up: Id, asking: Option<Id>, seqNo: nat)
    requires Good(t)
    ensures var r := T.ConfirmBegin(t, cfg, now, up, asking, seqNo);
            && (forall c :: IsPiece(t, up, seqNo, c) ==>
                  && (r.Ok? <==>
                        && (asking.None? || Sees(t, up, asking.value)) && TakesData(t, now, up)
                        && t.chunks[c].digest.Some? && CanWrite(t, cfg, now, c, t.chunks[c].digest.value))
                  && (r.Ok? ==> AsksAbout(t, cfg, now, c, asking, r.value)))
            && ((forall c :: !IsPiece(t, up, seqNo, c)) ==> r.Fail?)
  {
    hide T.ConfirmBegin, Good, CanWrite, AsksAbout, Linked, Owns;
    forall c | IsPiece(t, up, seqNo, c)
      ensures var r := T.ConfirmBegin(t, cfg, now, up, asking, seqNo);
              && (r.Ok? <==>
                    && (asking.None? || Sees(t, up, asking.value)) && TakesData(t, now, up)
                    && t.chunks[c].digest.Some? && CanWrite(t, cfg, now, c, t.chunks[c].digest.value))
              && (r.Ok? ==> AsksAbout(t, cfg, now, c, asking, r.value))
    {
      ConfirmableExactlyIf(t, cfg, now, c, asking);
    }
    PieceExists(t, up, seqNo);
    NoPieceNoConfirm(t, cfg, now, up, asking, seqNo);
  }

  lemma NoPieceNoConfirm(t: Tables, cfg: Config, now: Time, up: Id, asking: Option<Id>, seqNo: nat)
    ensures ChunkAt(t, up, seqNo).None? ==> T.ConfirmBegin(t, cfg, now, up, asking, seqNo).Fail?
  {
    hide ChunkAt, T.Positions;
  }

  /** An upload that ran out of time, and its object. */
  predicate Ended(t: Tables, up: Id) {
    && up in t.uploads && t.uploads[up].state.Expired?
    && t.uploads[up].oid in t.objects && t.objects[t.uploads[up].oid].phase.Deleted?
  }

  /** Expiring ends the uploads of the list and leaves every other as it is. */
  lemma {:induction false} ExpireAllUploads(t: Tables, cfg: Config, now: Time, ups: seq<Id>)
    requires forall up :: up in ups ==> up in t.uploads
    ensures var u := ExpireAll(t, cfg, now, ups);
            && u.uploads.Keys == t.uploads.Keys
            && forall up :: up in t.uploads ==>
                 u.uploads[up] == if up in ups then t.uploads[up].(state := Expired) else t.uploads[up]
    decreases |ups|
  {
    hide T.Retire;
    if ups != [] {
      var rest, last := ups[..|ups| - 1], ups[|ups| - 1];
      assert ups == rest + [last];
      ExpireAllUploads(t, cfg, now, rest);
      RetireKeepsUploads(ExpireAll(t, cfg, now, rest), cfg, now, last, Expired);
    }
  }

  lemma ExpiredAreEnded(t: Tables, u: Tables, cfg: Config, now: Time, expired: seq<Id>)
    requires Good(u) && u == ExpireAll(t, cfg, now, expired) && forall up :: up in expired ==> T.Overdue(t, now, up)
    ensures forall up :: up in expired ==> Ended(u, up)
    ensures (forall up :: T.Overdue(t, now, up) ==> up in expired) ==>
              forall up :: up in u.uploads && u.uploads[up].state.Uploading? ==> now <= u.uploads[up].expires
  {
    hide Good, ExpireAll;
    ExpireAllUploads(t, cfg, now, expired);
    forall up | up in expired ensures Ended(u, up) {
      OverIsDeleted(u, up);
    }
    if forall up :: T.Overdue(t, now, up) ==> up in expired {
      forall up | up in u.uploads && u.uploads[up].state.Uploading? ensures now <= u.uploads[up].expires {
        assert up !in expired;
        assert !T.Overdue(t, now, up);
      }
    }
  }

  lemma ShortNeedRepair(t: Tables, cfg: Config, now: Time)
    ensures forall c :: IsShort(t, cfg, now, c) <==> T.NeedsRepair(t, cfg, now, c)
  {
    hide HealthyNodes;
  }

  lemma LinkedKnown(t: Tables, c: Id)
    ensures Linked(t, c) ==> c in t.chunks
  {
  }

  lemma PrepareUnfolds(t: Tables, cfg: Config, now: Time, up: Id, owner: Id, seqNo: nat, digest: Digest)
    ensures var p, row, at := T.Prepare(t, cfg, now, up, owner, seqNo, digest),
        T.ActiveUpload(t, now, up, Some(owner), false), ChunkAt(t, up, seqNo);
            if row.Fail? then p == Fail(row.code)
            else if !(row.value.state.Uploading? && now < row.value.expires) then p == Fail(NotActive)
            else if at.None? then p == Fail(NotFound)
            else at.value in t.chunks && p == PrepareChunk(t, cfg, now, up, row.value.oid, at.value, digest)
  {
  }

  function PrepareChunk(t: Tables, cfg: Config, now: Time, up: Id, oid: Id, c: Id, digest: Digest)
    : Result<(Tables, Id, seq<Ticket>)>
    requires c in t.chunks
  {
    var chunk := t.chunks[c];
    if chunk.digest.Some? && chunk.digest.value != digest then Fail(ChecksumConflict)
    else
      var t1 := t.(chunks := t.chunks[c := chunk.(digest := Some(digest))]);
      var positions :- T.Positions(t1, cfg, now, up, c, chunk.length, digest);
      if oid !in t.objects || |positions| != t.objects[oid].replicas then Fail(NodeUnavailable)
      else Ok((t1, c, positions))
  }

  lemma ChunkAtKnown(t: Tables, up: Id, seqNo: nat)
    ensures ChunkAt(t, up, seqNo).Some? ==> ChunkAt(t, up, seqNo).value in t.chunks
  {
  }

  /** A position has a chunk exactly if it is within the object. */
  lemma PieceIsThere(t: Tables, up: Id, seqNo: nat)
    requires Good(t) && up in t.uploads && t.uploads[up].oid in t.objects
    ensures ChunkSizeOf(t, up) > 0
    ensures ChunkAt(t, up, seqNo).Some? <==> seqNo < PieceCount(SizeOf(t, up), ChunkSizeOf(t, up))
    ensures var at := ChunkAt(t, up, seqNo);
            at.Some? ==> Linked(t, at.value) && t.chunks[at.value].upload == up && t.chunks[at.value].seqNo == seqNo
  {
    PiecesPartitionTheObject(t, up);
    hide PieceCount, Balanced, Rows, Tasks, Counts, Pieces, Pairs;
    if ChunkAt(t, up, seqNo).Some? {
      assert ChunkAt(t, up, seqNo).value in PiecesAt(t, up, seqNo);
    }
  }

  lemma UploadKnownGood(t: Tables, up: Id)
    requires Good(t) && up in t.uploads
    ensures t.uploads[up].oid in t.objects
  {
  }

  lemma RowsAreRows(t: Tables, u: Tables, up: Id)
    requires u.chunks == t.chunks && u.replicas == t.replicas
    ensures RowsOf(u, up) == RowsOf(t, up)
    ensures forall k :: k in RowsOf(t, up) ==> k in t.replicas && k.chunk in t.chunks
  {
  }

  lemma RetireKeepsChunks(t: Tables, rows: set<Key>, lease: Time)
    ensures T.RetireRows(t, rows, lease).chunks == t.chunks
  {
  }

  lemma TheUpload(t: Tables, oid: Id)
    requires Good(t) && oid in t.objects
    ensures UploadsOf(t, oid) != {} && forall up :: up in UploadsOf(t, oid) ==>
              up in t.uploads && UploadOf(t, oid) == Some(up)
  {
    hide Balanced, Rows, Tasks, Counts, Pieces, Pairs;
    assert UploadOf(t, oid).value in UploadsOf(t, oid);
  }

  lemma OneMoreTicket(positions: seq<Ticket>, i: nat)
    requires i < |positions|
    ensures T.TicketNodes(positions[..i + 1]) == T.TicketNodes(positions[..i]) + {positions[i].node}
  {
    assert positions[..i + 1] == positions[..i] + [positions[i]];
  }

  lemma GradingKeepsOverdue(t: Tables, cfg: Config, now: Time)
    ensures forall up :: T.Overdue(T.GradeNodes(t, cfg, now), now, up) <==> T.Overdue(t, now, up)
  {
  }

  lemma OverdueMayExpire(t: Tables, now: Time)
    ensures forall up :: T.Overdue(t, now, up) ==> MayRetire(t, up, Expired)
  {
  }

  lemma RetireKeepsUploads(t: Tables, cfg: Config, now: Time, up: Id, state: UploadState)
    requires up in t.uploads
    ensures T.Retire(t, cfg, now, up, state).uploads.Keys == t.uploads.Keys
    ensures forall other :: other in t.uploads ==>
                  T.Retire(t, cfg, now, up, state).uploads[other]
                  == if other == up then t.uploads[up].(state := state) else t.uploads[other]
  {
  }

  lemma SameNeeds(t: Tables, u: Tables, cfg: Config, now: Time)
    requires u == t.(tasks := u.tasks)
    ensures forall c :: T.NeedsRepair(u, cfg, now, c) == T.NeedsRepair(t, cfg, now, c) && PhaseOf(u, c) == PhaseOf(t, c)
  {
    assert forall c :: HealthyNodes(u, cfg, now, c) == HealthyNodes(t, cfg, now, c);
  }

  lemma NeedyIsPublished(t: Tables, cfg: Config, now: Time, c: Id)
    requires T.NeedsRepair(t, cfg, now, c)
    ensures PhaseOf(t, c) == Some(Published) && c in t.chunks
  {
  }

  lemma PhaseIsLinked(t: Tables, c: Id)
    ensures PhaseOf(t, c).Some? <==> Linked(t, c)
  {
  }

  lemma SoonestExists(tasks: map<TaskKey, Task>, ids: map<TaskKey, nat>, s: set<TaskKey>) returns (key: TaskKey)
    requires s != {} && s <= tasks.Keys && Numbered(tasks, ids)
    ensures key in s && forall other :: other in s && other != key ==> Sooner(tasks, ids, key, other)
  {
    var x :| x in s;
    key := x;
    if s != {x} {
      var y := SoonestExists(tasks, ids, s - {x});
      key := if Sooner(tasks, ids, x, y) then x else y;
      assert forall other :: other in s ==> other == x || other in s - {x};
    }
  }

  lemma AddKeepsTasks(t: Tables, n: Id, reserved: int, used: int)
    ensures T.AddToNode(t, n, reserved, used) == t.(nodes := T.AddToNode(t, n, reserved, used).nodes)
  {
  }

  lemma HeldTask(t: Tables, now: Time, key: TaskKey, token: Id)
    requires T.Fenced(t, now, key, token)
    ensures key in t.tasks
  {
  }

  lemma InitTooBig(t: Tables, cfg: Config, now: Time, owner: Id, size: nat, oid: Id, up: Id, cids: seq<Id>,
                   orders: seq<seq<Id>>)
    requires cfg.Valid() && size > cfg.chunk * cfg.maxChunks
    ensures T.Init(t, cfg, now, owner, size, oid, up, cids, orders) == Fail(Invalid)
  {
  }

  lemma PlaceNone(t: Tables, cfg: Config, now: Time, up: Id, size: nat)
    ensures T.PlaceChunks(t, cfg, now, up, size, 0, [], []) == Ok(t)
  {
  }

  lemma ByLoadIsDistinct(t: Tables, order: seq<Id>)
    requires T.ByLoad(t, order)
    ensures Distinct(order)
  {
    LoadOrderIsDistinct(t, order);
  }

  lemma LastPieceBound(size: nat, cfg: Config, cids: seq<Id>)
    requires cfg.Valid() && |cids| == PieceCount(size, cfg.chunk)
    ensures cids == [] || (0 + |cids| - 1) * cfg.chunk < size
  {
    T.LastPieceStarts(size, cfg.chunk);
  }
}
