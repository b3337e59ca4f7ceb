/**
 * The Blockchain object: a head (genesis) block, an insertion pointer
 * `nextFree` and the next block id, updated in place by add_resource.
 */
module Ledger {
  import opened Blocks
  import opened LedgerSpec

  class Blockchain {
    var head: Block
    var nextFree: Block
    var nextId: uint64

    /** The blocks reachable from `head`, in link order. */
    ghost var nodes: seq<Block>
    /** Their data fields, in the same order. */
    ghost var chain: seq<BlockValue>
    /** The index of `nextFree` in `nodes`. */
    ghost var cursor: nat

    /**
     * `nodes` is the acyclic list reachable from `head`: each links to the
     * following one, the last has no successor, none occurs twice, and
     * `nextFree` is one of them.
     */
    ghost predicate Valid()
      reads this, nodes
    {
      |nodes| == |chain| && 0 < |nodes| && cursor < |nodes|
      && nodes[0] == head && nodes[cursor] == nextFree
      && (forall i :: 0 <= i < |nodes| ==> nodes[i].Value() == chain[i])
      && (forall i :: 0 <= i < |nodes| - 1 ==> nodes[i].next == nodes[i + 1])
      && nodes[|nodes| - 1].next == null
      && (forall i, j :: 0 <= i < j < |nodes| ==> nodes[i] != nodes[j])
    }

    /** The ledger as a value. */
    ghost function View(): LedgerView
      reads this
    {
      LedgerView(chain, cursor, nextId)
    }

    /** Builds the genesis block at time `now`, points the cursor at it and sets the next id to 1. */
    constructor (now: int)
      ensures Valid() && fresh(head)
      ensures View() == Init(now)
      ensures nextFree == head && head.next == null && nextId == 1
    {
      var genesis := new Block(BlockEvtStart, BlockStatusAccept, 0, 0, now);
      head := genesis;
      nextFree := genesis;
      nextId := 1;
      nodes := [genesis];
      chain := [genesis.Value()];
      cursor := 0;
    }

    /**
     * add_resource(usr_id) as written: a new INSERT/ACCEPT block for `usrId`
     * with the current next id replaces the successor of `nextFree`; the
     * counter advances; `head`, `nextFree` and every existing block's data
     * are left alone. Always returns 1.
     */
    method AddResource(usrId: uint64, now: int) returns (r: int)
      requires Valid()
      modifies this`nextId, this`nodes, this`chain, nextFree`next
      ensures Valid()
      ensures View() == Link(old(View()), usrId, now)
      ensures r == 1
      ensures head == old(head) && nextFree == old(nextFree) && cursor == old(cursor)
      ensures head.Value() == old(head.Value())
      ensures nextFree.next != null && fresh(nextFree.next) && nextFree.next.next == null
      ensures nextFree.next.Value() == InsertBlock(usrId, old(nextId), now)
    {
      var b := new Block(BlockEvtInsert, BlockStatusAccept, usrId, nextId, now);
      nextFree.next := b;
      nodes := nodes[..cursor + 1] + [b];
      chain := chain[..cursor + 1] + [b.Value()];
      nextId := Next64(nextId);
      r := 1;
    }

    /**
     * add_resource as its doc comment describes it: the same new block, linked
     * after `nextFree`, after which `nextFree` moves onto it, so the next call
     * links after it instead of displacing it.
     */
    method AddResourceAtEnd(usrId: uint64, now: int) returns (r: int)
      requires Valid()
      modifies this`nextId, this`nextFree, this`nodes, this`chain, this`cursor, nextFree`next
      ensures Valid()
      ensures View() == LinkAtEnd(old(View()), usrId, now)
      ensures r == 1
      ensures head == old(head) && head.Value() == old(head.Value())
      ensures fresh(nextFree) && old(nextFree).next == nextFree && nextFree.next == null
      ensures nextFree.Value() == InsertBlock(usrId, old(nextId), now)
    {
      var b := new Block(BlockEvtInsert, BlockStatusAccept, usrId, nextId, now);
      nextFree.next := b;
      nextFree := b;
      nodes := nodes[..cursor + 1] + [b];
      chain := chain[..cursor + 1] + [b.Value()];
      cursor := cursor + 1;
      nextId := Next64(nextId);
      r := 1;
    }
  }

  /**
   * Two insertions into a fresh ledger: the head's successor is the second
   * block (id 2, by user 8), it has no successor, and the first block (id 1)
   * is no longer reachable from the head.
   */
  method TwoInserts(t0: int, t1: int, t2: int) returns (secondId: uint64, secondUsr: uint64, chainEnds: bool)
    ensures secondId == 2 && secondUsr == 8 && chainEnds
  {
    var ledger := new Blockchain(t0);
    var r1 := ledger.AddResource(7, t1);
    var r2 := ledger.AddResource(8, t2);
    var second := ledger.head.next;
    secondId := second.blockId;
    secondUsr := second.id;
    chainEnds := second.next == null;
  }

  /**
   * The same two insertions made as the doc comment describes: both blocks
   * stay reachable from the head, in order (ids 1 and 2), and the chain ends
   * after the second.
   */
  method TwoInsertsAtEnd(t0: int, t1: int, t2: int) returns (firstId: uint64, secondId: uint64, chainEnds: bool)
    ensures firstId == 1 && secondId == 2 && chainEnds
  {
    var ledger := new Blockchain(t0);
    var r1 := ledger.AddResourceAtEnd(7, t1);
    var r2 := ledger.AddResourceAtEnd(8, t2);
    var first := ledger.head.next;
    var second := first.next;
    firstId := first.blockId;
    secondId := second.blockId;
    chainEnds := second.next == null;
  }
}
