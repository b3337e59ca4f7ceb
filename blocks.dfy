/**
 * The block record of the ledger: the event and status codes a block carries,
 * the fixed-width integer types of its fields, and the heap object itself.
 */
module Blocks {

  /** The C++ `uint8_t` and `uint64_t` field types. */
  newtype uint8 = x: int | 0 <= x < 0x100
  newtype uint64 = x: int | 0 <= x < 0x1_0000_0000_0000_0000

  /** Number of values of a `uint64_t`; unsigned arithmetic wraps modulo this. */
  const Uint64Modulus: int := 0x1_0000_0000_0000_0000

  /** Event codes. */
  const BlockEvtStart: uint8 := 0
  const BlockEvtRequest: uint8 := 1
  const BlockEvtInsert: uint8 := 2

  /** Status codes. */
  const BlockStatusAccept: uint8 := 0
  const BlockStatusReject: uint8 := 1

  /** The three event codes name three different events, and the two status codes two statuses. */
  lemma CodesDistinct()
    ensures BlockEvtStart != BlockEvtRequest && BlockEvtStart != BlockEvtInsert
    ensures BlockEvtRequest != BlockEvtInsert
    ensures BlockStatusAccept != BlockStatusReject
  {
  }

  /** `x++` on a `uint64_t`: the successor, wrapping from the largest value to 0. */
  function Next64(x: uint64): (r: uint64)
    ensures r as int == (x as int + 1) % Uint64Modulus
  {
    if x as int == Uint64Modulus - 1 then 0 else x + 1
  }

  /** The data fields of one block, without its link: what a block records. */
  datatype BlockValue = BlockValue(event: uint8, status: uint8, id: uint64, blockId: uint64, timeStamp: int)

  /**
   * One block: its data fields and a single link to its successor, so a block
   * has at most one successor. The only constructor takes all four codes and
   * ids; there is no default block.
   */
  class Block {
    var next: Block?
    var timeStamp: int
    var event: uint8
    var status: uint8
    var id: uint64
    var blockId: uint64

    /** The data fields, read field by field so that relinking `next` leaves them untouched. */
    function Value(): BlockValue
      reads this`event, this`status, this`id, this`blockId, this`timeStamp
    {
      BlockValue(event, status, id, blockId, timeStamp)
    }

    /** Stores the four arguments, stamps the block with the current time `now`, and leaves it unlinked. */
    constructor (event: uint8, status: uint8, id: uint64, blockId: uint64, now: int)
      ensures this.event == event && this.status == status
      ensures this.id == id && this.blockId == blockId
      ensures timeStamp == now
      ensures next == null
    {
      this.timeStamp := now;
      this.event := event;
      this.status := status;
      this.id := id;
      this.blockId := blockId;
      this.next := null;
    }
  }
}
