/**
 * Inventory announcements (`inv` messages) and the per-item classification
 * that `tx_sentinel::inventory_received` applies to them.
 *
 * Everything here is pure: it says which observer deliveries and which log
 * entries an announcement gives rise to, in announcement order.  The handler
 * in module Sentinel is proved against these functions.
 */
module Inventory {

  newtype Byte = x: int | 0 <= x < 256

  /** A `bc::hash_digest`: exactly 32 bytes. */
  type HashDigest = s: seq<Byte> | |s| == 32 witness seq(32, _ => 0 as Byte)

  /**
   * The type tag of an inventory item.  Only `transaction` and `block` are
   * distinguished by the sentinel; every other tag is kept, opaque, as `Other`.
   */
  datatype InventoryTypeId = Transaction | Block | Other(code: nat)

  /** One `bc::inventory_vector_type`: a type tag and a hash. */
  datatype InventoryVector = InventoryVector(kind: InventoryTypeId, hash: HashDigest)

  /** One `bc::inventory_type` message: its ordered list of items. */
  datatype InventoryMessage = InventoryMessage(inventories: seq<InventoryVector>)

  /** What the sentinel does with one item. */
  datatype Action = Deliver(hash: HashDigest) | Ignore | Warn

  /**
   * The branch taken for one item: a transaction is delivered, a block is an
   * empty statement, anything else is warned about.
   */
  function Classify(ivec: InventoryVector): (a: Action)
    ensures a.Deliver? <==> ivec.kind == Transaction
    ensures a.Deliver? ==> a.hash == ivec.hash
    ensures a.Ignore? <==> ivec.kind == Block
    ensures a.Warn? <==> ivec.kind.Other?
  {
    match ivec.kind
    case Transaction => Deliver(ivec.hash)
    case Block => Ignore
    case Other(_) => Warn
  }

  /** The hashes delivered to the observer for `items`, in delivery order. */
  function TxHashes(items: seq<InventoryVector>): (hs: seq<HashDigest>)
    ensures |hs| <= |items|
  {
    if items == [] then []
    else
      var init := TxHashes(items[..|items| - 1]);
      match Classify(items[|items| - 1])
      case Deliver(h) => init + [h]
      case _ => init
  }

  /** The number of warnings `items` gives rise to. */
  function UnknownCount(items: seq<InventoryVector>): nat
  {
    if items == [] then 0
    else UnknownCount(items[..|items| - 1]) + (if Classify(items[|items| - 1]).Warn? then 1 else 0)
  }

  /** The number of block items in `items` (each of which has no effect). */
  function BlockCount(items: seq<InventoryVector>): nat
  {
    if items == [] then 0
    else BlockCount(items[..|items| - 1]) + (if Classify(items[|items| - 1]).Ignore? then 1 else 0)
  }

  /**
   * The positions of the transaction items of `items`, in increasing order:
   * an independent description of which items are delivered.
   */
  function TxPositions(items: seq<InventoryVector>): (ps: seq<nat>)
    ensures forall k :: 0 <= k < |ps| ==> ps[k] < |items| && items[ps[k]].kind == Transaction
    ensures forall k, l :: 0 <= k < l < |ps| ==> ps[k] < ps[l]
    ensures forall i :: 0 <= i < |items| && items[i].kind == Transaction ==> i in ps
  {
    if items == [] then []
    else
      var n := |items| - 1;
      var init := TxPositions(items[..n]);
      assert forall i :: 0 <= i < n ==> items[..n][i] == items[i];
      if items[n].kind == Transaction then init + [n] else init
  }

  /**
   * Order and exactness of delivery: the k-th delivered hash is the hash of
   * the k-th transaction item, and there is one delivery per transaction item.
   */
  lemma {:induction false} TxHashesInOrder(items: seq<InventoryVector>)
    ensures |TxHashes(items)| == |TxPositions(items)|
    ensures forall k :: 0 <= k < |TxPositions(items)| ==>
              TxHashes(items)[k] == items[TxPositions(items)[k]].hash
  {
    if items != [] {
      var n := |items| - 1;
      var init := items[..n];
      TxHashesInOrder(init);
      var hs, ps := TxHashes(init), TxPositions(init);
      forall k | 0 <= k < |ps| ensures hs[k] == items[ps[k]].hash {
        assert init[ps[k]] == items[ps[k]];
      }
      if items[n].kind == Transaction {
        var hs', ps' := hs + [items[n].hash], ps + [n];
        assert TxHashes(items) == hs' && TxPositions(items) == ps';
        forall k | 0 <= k < |ps'| ensures hs'[k] == items[ps'[k]].hash {
          if k < |ps| { assert hs'[k] == hs[k] && ps'[k] == ps[k]; }
        }
      } else {
        assert TxHashes(items) == hs && TxPositions(items) == ps;
      }
    }
  }

  /** Every item is exactly one of transaction, block or unknown: T + B + U = N. */
  lemma {:induction false} KindsPartition(items: seq<InventoryVector>)
    ensures |TxHashes(items)| + BlockCount(items) + UnknownCount(items) == |items|
  {
    if items != [] {
      KindsPartition(items[..|items| - 1]);
    }
  }

  /**
   * Items are handled independently: the effects of a concatenation are the
   * effects of its parts, one after the other.
   */
  lemma {:induction false} EffectsOfConcatenation(a: seq<InventoryVector>, b: seq<InventoryVector>)
    ensures TxHashes(a + b) == TxHashes(a) + TxHashes(b)
    ensures UnknownCount(a + b) == UnknownCount(a) + UnknownCount(b)
    ensures BlockCount(a + b) == BlockCount(a) + BlockCount(b)
  {
    if b != [] {
      var m := |b| - 1;
      assert (a + b)[..|a + b| - 1] == a + b[..m];
      assert (a + b)[|a + b| - 1] == b[m];
      EffectsOfConcatenation(a, b[..m]);
    } else {
      assert a + b == a;
    }
  }

  /** A mixed announcement: [tx h1, block h2, tx h3, type 0xFF h4]. */
  lemma MixedAnnouncement(h1: HashDigest, h2: HashDigest, h3: HashDigest, h4: HashDigest)
    ensures var items := [InventoryVector(Transaction, h1), InventoryVector(Block, h2),
                          InventoryVector(Transaction, h3), InventoryVector(Other(0xFF), h4)];
            TxHashes(items) == [h1, h3] && UnknownCount(items) == 1 && BlockCount(items) == 1
  {
    var items := [InventoryVector(Transaction, h1), InventoryVector(Block, h2),
                  InventoryVector(Transaction, h3), InventoryVector(Other(0xFF), h4)];
    assert items[..1] == [items[0]] && items[..1][..0] == [];
    assert items[..2][..1] == items[..1];
    assert items[..3][..2] == items[..2];
    assert items[..4 - 1] == items[..3];
    assert TxHashes(items[..1]) == [h1] && TxHashes(items[..2]) == [h1];
    assert TxHashes(items[..3]) == [h1, h3];
    assert UnknownCount(items[..1]) == 0 && BlockCount(items[..1]) == 0;
    assert UnknownCount(items[..2]) == 0 && BlockCount(items[..2]) == 1;
    assert UnknownCount(items[..3]) == 0 && BlockCount(items[..3]) == 1;
  }
}
