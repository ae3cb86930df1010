/** Capacity bookkeeping: after every transaction a node's `reserved` and `used` figures are
    exactly the lengths of the chunks its replica rows are charged for. */
module Accounting {
  import opened Schema
  import opened Sums
  import opened Transactions

  ghost function Charged(t: Tables, n: Id, charge: Charge): int {
    Total(t.replicas.Keys, Weigher(t, n, charge))
  }

  ghost predicate NodeBalanced(t: Tables, n: Id)
    requires n in t.nodes
  {
    t.nodes[n].reserved == Charged(t, n, ReservedCharge) && t.nodes[n].used == Charged(t, n, UsedCharge)
  }

  ghost predicate Balanced(t: Tables) {
    && (forall n :: n in t.nodes ==> NodeBalanced(t, n))
    && RowsPlaced(t)
  }

  ghost predicate RowsPlaced(t: Tables) {
    forall k :: k in t.replicas ==> k.chunk in t.chunks && k.node in t.nodes
  }

  lemma BalancedRows(t: Tables)
    requires Balanced(t)
    ensures RowsPlaced(t)
  {
  }

  // ---------------------------------------------------------------- how sums move

  lemma ExtraKeysWeighNothing(t: Tables, keys: set<Key>, n: Id, charge: Charge)
    requires t.replicas.Keys <= keys
    ensures Total(keys, Weigher(t, n, charge)) == Charged(t, n, charge)
  {
    var extra, w := keys - t.replicas.Keys, Weigher(t, n, charge);
    assert keys == t.replicas.Keys + extra;
    TotalOfUnion(t.replicas.Keys, extra, w);
    TotalOfZeros(extra, w);
  }

  /** If all weights on a node agree but one, the sums differ by that one. */
  lemma OneWeightMoved(t: Tables, u: Tables, n: Id, charge: Charge, k: Key)
    requires forall j :: j != k ==> Weight(t, n, charge, j) == Weight(u, n, charge, j)
    ensures Charged(u, n, charge) == Charged(t, n, charge) - Weight(t, n, charge, k) + Weight(u, n, charge, k)
  {
    var keys := t.replicas.Keys + u.replicas.Keys + {k};
    ExtraKeysWeighNothing(t, keys, n, charge);
    ExtraKeysWeighNothing(u, keys, n, charge);
    TotalOneChanged(keys, Weigher(t, n, charge), Weigher(u, n, charge), k);
  }

  lemma NoWeightMoved(t: Tables, u: Tables, n: Id, charge: Charge)
    requires forall j :: Weight(t, n, charge, j) == Weight(u, n, charge, j)
    ensures Charged(u, n, charge) == Charged(t, n, charge)
  {
    OneWeightMoved(t, u, n, charge, Key(0, 0));
  }

  /** Rows keep their chunk lengths and charges. */
  ghost predicate SameCharges(t: Tables, u: Tables) {
    && u.replicas.Keys == t.replicas.Keys
    && (forall k :: k in t.replicas ==>
          u.replicas[k].charge == t.replicas[k].charge && k.chunk in u.chunks
          && (k.chunk in t.chunks ==> u.chunks[k.chunk].length == t.chunks[k.chunk].length))
  }

  ghost predicate SameFigures(t: Tables, u: Tables) {
    && t.nodes.Keys <= u.nodes.Keys
    && (forall n :: n in t.nodes ==> u.nodes[n].reserved == t.nodes[n].reserved && u.nodes[n].used == t.nodes[n].used)
    && (forall n :: n in u.nodes && n !in t.nodes ==> u.nodes[n].reserved == 0 && u.nodes[n].used == 0)
  }

  lemma UntouchedNode(t: Tables, u: Tables, n: Id)
    requires RowsPlaced(t) && SameCharges(t, u) && SameFigures(t, u)
    requires n in u.nodes && (n in t.nodes ==> NodeBalanced(t, n))
    ensures NodeBalanced(u, n)
  {
    NoWeightMoved(t, u, n, ReservedCharge);
    NoWeightMoved(t, u, n, UsedCharge);
    if n !in t.nodes {
      TotalOfZeros(u.replicas.Keys, Weigher(u, n, ReservedCharge));
      TotalOfZeros(u.replicas.Keys, Weigher(u, n, UsedCharge));
    }
  }

  lemma UntouchedBooks(t: Tables, u: Tables)
    requires Balanced(t) && SameCharges(t, u) && SameFigures(t, u)
    ensures Balanced(u)
  {
    hide NodeBalanced;
    forall n | n in u.nodes ensures NodeBalanced(u, n) {
      UntouchedNode(t, u, n);
    }
  }

  /** One row changes its charge, and its node's figures follow. */
  ghost predicate OneRowMoved(t: Tables, u: Tables, k: Key) {
    && u.nodes.Keys == t.nodes.Keys && u.chunks == t.chunks && k.node in t.nodes
    && (forall j :: j != k ==> (j in t.replicas <==> j in u.replicas))
    && (forall j :: j != k && j in t.replicas ==> u.replicas[j] == t.replicas[j])
    && (forall n :: n in t.nodes && n != k.node ==> u.nodes[n] == t.nodes[n])
    && (k in u.replicas ==> k.chunk in t.chunks)
    && FigureMoved(t, u, k, t.nodes[k.node].reserved, u.nodes[k.node].reserved, ReservedCharge)
    && FigureMoved(t, u, k, t.nodes[k.node].used, u.nodes[k.node].used, UsedCharge)
  }

  ghost predicate FigureMoved(t: Tables, u: Tables, k: Key, was: int, is_: int, charge: Charge) {
    is_ == was - Weight(t, k.node, charge, k) + Weight(u, k.node, charge, k)
  }

  lemma OtherWeights(t: Tables, u: Tables, k: Key, n: Id, charge: Charge)
    requires OneRowMoved(t, u, k)
    ensures forall j :: j != k ==> Weight(t, n, charge, j) == Weight(u, n, charge, j)
    ensures n != k.node ==> Weight(t, n, charge, k) == Weight(u, n, charge, k) == 0
  {
  }

  lemma MovedNode(t: Tables, u: Tables, k: Key, n: Id)
    requires OneRowMoved(t, u, k) && n in t.nodes && NodeBalanced(t, n)
    ensures NodeBalanced(u, n)
  {
    hide Weight, Charged;
    OtherWeights(t, u, k, n, ReservedCharge);
    OtherWeights(t, u, k, n, UsedCharge);
    OneWeightMoved(t, u, n, ReservedCharge, k);
    OneWeightMoved(t, u, n, UsedCharge, k);
  }

  lemma MovedBooks(t: Tables, u: Tables, k: Key)
    requires Balanced(t) && OneRowMoved(t, u, k)
    ensures Balanced(u)
  {
    hide NodeBalanced, FigureMoved;
    forall n | n in u.nodes ensures NodeBalanced(u, n) {
      MovedNode(t, u, k, n);
    }
  }

  // ---------------------------------------------------------------- transactions that move charges

  lemma UnchargeBalances(t: Tables, k: Key, length: int)
    requires Balanced(t)
    requires k.chunk in t.chunks ==> length == t.chunks[k.chunk].length
    ensures Balanced(Uncharge(t, k, length))
  {
    hide Balanced;
    BalancedRows(t);
    var u := Uncharge(t, k, length);
    if k in t.replicas && !t.replicas[k].charge.NoCharge? {
      UnchargeMoves(t, k, length);
      MovedBooks(t, u, k);
    }
  }

  lemma UnchargeMoves(t: Tables, k: Key, length: int)
    requires RowsPlaced(t) && k in t.replicas && !t.replicas[k].charge.NoCharge?
    requires length == t.chunks[k.chunk].length
    ensures OneRowMoved(t, Uncharge(t, k, length), k)
  {
    var u := Uncharge(t, k, length);
    if t.replicas[k].charge.ReservedCharge? {
      assert u.nodes[k.node] == t.nodes[k.node].(reserved := t.nodes[k.node].reserved - length);
    } else {
      assert u.nodes[k.node] == t.nodes[k.node].(used := t.nodes[k.node].used - length);
    }
  }

  lemma SetRowBalances(t: Tables, k: Key, r: Replica)
    requires Balanced(t) && k in t.replicas && r.charge == t.replicas[k].charge
    ensures Balanced(SetRow(t, k, r))
  {
    hide Balanced;
    BalancedRows(t);
    UntouchedBooks(t, SetRow(t, k, r));
  }

  lemma PlaceBalances(t: Tables, c: Id, n: Id, length: int)
    requires Balanced(t) && n in t.nodes && c in t.chunks && length == t.chunks[c].length
    requires Key(c, n) in t.replicas ==> t.replicas[Key(c, n)].charge.NoCharge?
    ensures Balanced(Place(t, c, n, length))
  {
    hide Balanced;
    BalancedRows(t);
    var u := Place(t, c, n, length);
    assert OneRowMoved(t, u, Key(c, n));
    MovedBooks(t, u, Key(c, n));
  }

  ghost predicate Distinct(order: seq<Id>) {
    forall i, j :: 0 <= i < j < |order| ==> order[i] != order[j]
  }

  lemma {:induction false} ReserveBalances(t: Tables, cfg: Config, now: Time, c: Id, length: int, count: nat,
                                           excluded: set<Id>, order: seq<Id>)
    requires Balanced(t) && c in t.chunks && length == t.chunks[c].length && Distinct(order)
    requires forall n :: n in order && n !in excluded && Key(c, n) in t.replicas ==>
                  t.replicas[Key(c, n)].charge.NoCharge?
    ensures Reserve(t, cfg, now, c, length, count, excluded, order).Ok?
            ==> Balanced(Reserve(t, cfg, now, c, length, count, excluded, order).value.0)
    decreases |order|
  {
    hide Balanced, Eligible;
    if count > 0 && order != [] {
      var n := order[0];
      if n !in t.nodes || n in excluded || !Eligible(t.nodes[n], cfg, now, length) {
        ReserveBalances(t, cfg, now, c, length, count, excluded, order[1..]);
      } else {
        PlaceBalances(t, c, n, length);
        ReserveBalances(Place(t, c, n, length), cfg, now, c, length, count - 1, excluded, order[1..]);
      }
    }
  }

  lemma ConvertBalances(t: Tables, c: Id, length: int, nodes: set<Id>)
    requires Balanced(t) && (c in t.chunks ==> length == t.chunks[c].length)
    requires forall n :: Converts(t, c, nodes, n) ==> t.replicas[Key(c, n)].charge.ReservedCharge?
    ensures Balanced(ConvertRows(t, c, length, nodes))
  {
    hide NodeBalanced;
    var u := ConvertRows(t, c, length, nodes);
    forall n | n in u.nodes ensures NodeBalanced(u, n) {
      ConvertNode(t, c, length, nodes, n);
    }
  }

  lemma ConvertWeights(t: Tables, c: Id, length: int, nodes: set<Id>, n: Id, charge: Charge)
    ensures forall j :: j != Key(c, n) ==>
                  Weight(t, n, charge, j) == Weight(ConvertRows(t, c, length, nodes), n, charge, j)
  {
  }

  lemma ConvertNode(t: Tables, c: Id, length: int, nodes: set<Id>, n: Id)
    requires n in t.nodes && NodeBalanced(t, n) && RowsPlaced(t) && (c in t.chunks ==> length == t.chunks[c].length)
    requires Converts(t, c, nodes, n) ==> t.replicas[Key(c, n)].charge.ReservedCharge?
    ensures NodeBalanced(ConvertRows(t, c, length, nodes), n)
  {
    hide Charged;
    var u := ConvertRows(t, c, length, nodes);
    ConvertWeights(t, c, length, nodes, n, ReservedCharge);
    ConvertWeights(t, c, length, nodes, n, UsedCharge);
    OneWeightMoved(t, u, n, ReservedCharge, Key(c, n));
    OneWeightMoved(t, u, n, UsedCharge, Key(c, n));
  }

  lemma RetireBalances(t: Tables, rows: set<Key>, lease: Time)
    requires Balanced(t) && rows <= t.replicas.Keys
    ensures Balanced(RetireRows(t, rows, lease))
  {
    hide NodeBalanced;
    var u := RetireRows(t, rows, lease);
    forall n | n in u.nodes ensures NodeBalanced(u, n) {
      RetireNode(t, rows, lease, n);
    }
  }

  lemma RetireWeights(t: Tables, rows: set<Key>, lease: Time, n: Id)
    ensures forall j :: Weight(RetireRows(t, rows, lease), n, UsedCharge, j) == Weight(t, n, UsedCharge, j)
    ensures forall j :: Weight(RetireRows(t, rows, lease), n, ReservedCharge, j)
                        == if j in rows then 0 else Weight(t, n, ReservedCharge, j)
  {
  }

  lemma RetireNode(t: Tables, rows: set<Key>, lease: Time, n: Id)
    requires n in t.nodes && NodeBalanced(t, n) && rows <= t.replicas.Keys
    ensures NodeBalanced(RetireRows(t, rows, lease), n)
  {
    hide Weight, RetireRows, Total;
    var u, rest := RetireRows(t, rows, lease), t.replicas.Keys - rows;
    RetireWeights(t, rows, lease, n);
    NoWeightMoved(t, u, n, UsedCharge);
    assert t.replicas.Keys == rows + rest;
    RetiredShape(t, rows, lease, n);
    TotalOfUnion(rows, rest, Weigher(t, n, ReservedCharge));
    TotalOfUnion(rows, rest, Weigher(u, n, ReservedCharge));
    TotalOfZeros(rows, Weigher(u, n, ReservedCharge));
    TotalAgrees(rest, Weigher(t, n, ReservedCharge), Weigher(u, n, ReservedCharge));
  }

  lemma RetiredShape(t: Tables, rows: set<Key>, lease: Time, n: Id)
    requires n in t.nodes
    ensures var u := RetireRows(t, rows, lease);
            && n in u.nodes && u.replicas.Keys == t.replicas.Keys && u.nodes[n].used == t.nodes[n].used
            && u.nodes[n].reserved == t.nodes[n].reserved - ReservedFor(t, rows, n)
  {
  }

  lemma FiguresNonNegative(t: Tables, n: Id)
    requires Balanced(t) && n in t.nodes
    ensures 0 <= t.nodes[n].reserved && 0 <= t.nodes[n].used
  {
    assert NodeBalanced(t, n);
    TotalNonNegative(t.replicas.Keys, Weigher(t, n, ReservedCharge));
    TotalNonNegative(t.replicas.Keys, Weigher(t, n, UsedCharge));
  }
}
