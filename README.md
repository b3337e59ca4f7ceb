# Blockchain ledger: a Dafny model

This project models the early ledger of the distributed access-control simulator. The ledger is a
`Blockchain` object that owns a singly linked list of `block` records. Each block carries an
event code, a status code, the id of the acting user, its own block id, a time stamp and one
`next` link. The `Blockchain` holds the `head` (genesis) block, an insertion pointer `next_free`
and the counter `next_id`. It has two operations: the constructor, and `add_resource(usr_id)`.

The model has three modules:

- `Blocks` (`blocks.dfy`) covers `blockchain.hpp`. It has the `uint8_t`/`uint64_t` field types,
  the event and status macros, and the heap class `Block` with its only constructor.
- `LedgerSpec` (`ledger_spec.dfy`) is the ledger as a value. A `LedgerView` holds the data of the
  blocks reachable from `head` in link order, the index of `next_free` in that list, and
  `next_id`. `Link` is one `add_resource` call on that value, and `Run` is a sequence of calls.
  The lemmas say what any run of calls leaves behind.
- `Ledger` (`blockchain.dfy`) covers `blockchain.cpp`. It has the class `Blockchain` with the
  fields `head`, `nextFree` and `nextId`, plus ghost fields for the reachable `nodes`, their
  data and the cursor. `Valid()` states that `nodes` is the acyclic list from `head` and that
  `nextFree` is in it. Each method's `ensures` ties its new `View()` to `Init` or `Link` of the
  old one.

The class and the value model are connected like this. The constructor ends with
`View() == Init(now)`, and every `AddResource` ends with `View() == Link(old(View()), …)`. So after
any sequence of calls on one object, `View()` equals `Run(Init(now), calls)`, and
`LedgerSpec.RunFromInit` applies to it.

`add_resource` is modelled as the code does it, not as its doc comment says. The comment
(`blockchain/src/blockchain.cpp:32`) says the resource is added "on the end". The code never
advances `next_free`, so every call replaces the genesis block's successor. The chain reachable
from `head` therefore never holds more than two blocks.

The clock is a parameter. `std::time(nullptr)` becomes an argument `now: int`, passed to the
block constructor, the `Blockchain` constructor and `AddResource`. `next_id` is a `uint64`, and
its post-increment wraps from 2^64 − 1 to 0, as `uint64_t` arithmetic does.

## Model

| member | source | states |
|---|---|---|
| `Blocks.CodesDistinct` | blockchain/src/blockchain.hpp:15-20 | START, REQUEST and INSERT are pairwise distinct codes, and ACCEPT and REJECT are distinct |
| `Blocks.Next64` | blockchain/src/blockchain.hpp:55 | `next_id++` on a `uint64_t`: the result is the old value plus one, modulo 2^64 |
| `Blocks.Block.constructor` | blockchain/src/blockchain.cpp:14-19 | the only way to make a block takes event, status, id and block id; the new block stores exactly those, is stamped with the clock reading, and has no successor |
| `LedgerSpec.Init` | blockchain/src/blockchain.cpp:25-29 | a fresh ledger has one reachable block, with the cursor on it |
| `LedgerSpec.Link` | blockchain/src/blockchain.cpp:37-41 | one add_resource call keeps the cursor inside the chain |
| `LedgerSpec.Run` | blockchain/src/blockchain.cpp:37-41 | any sequence of add_resource calls keeps the cursor inside the chain |
| `LedgerSpec.Inserts` | blockchain/src/blockchain.cpp:38 | one block is created per call |
| `LedgerSpec.InsertsAt` | blockchain/src/blockchain.cpp:38 | the k-th call creates an INSERT/ACCEPT block carrying its caller's user id and clock reading, with block id (first id + k) mod 2^64 |
| `LedgerSpec.RunOverwrites` | blockchain/src/blockchain.cpp:37-41 | after one or more calls: the chain up to the cursor is unchanged, the cursor is unchanged, exactly one block follows it (the last call's), and next_id has advanced by the number of calls mod 2^64 |
| `LedgerSpec.RunFromInit` | blockchain/src/blockchain.cpp:25-41 | from a fresh ledger, any run of calls leaves the unchanged genesis block plus at most one more: the most recent insert, whose block id is the number of calls; next_id is one past it |
| `LedgerSpec.SuccessiveIds` | blockchain/src/blockchain.cpp:28-38 | below the wrap-around, successive calls from a fresh ledger get the block ids 1, 2, 3, … |
| `LedgerSpec.LinkAtEnd` | blockchain/src/blockchain.cpp:32-38 | corrected add_resource (link, then advance the cursor) keeps the cursor inside the chain |
| `LedgerSpec.RunAtEnd` | blockchain/src/blockchain.cpp:32-38 | a run of corrected calls keeps the cursor inside the chain |
| `LedgerSpec.RunAtEndAppends` | blockchain/src/blockchain.cpp:32-38 | with the cursor on the tail, corrected calls append every created block in order and lose none; the cursor stays on the tail |
| `Ledger.Blockchain.constructor` | blockchain/src/blockchain.cpp:25-29 | head is a fresh genesis block (START, ACCEPT, id 0, block id 0) with no successor; next_free == head; next_id == 1 |
| `Ledger.Blockchain.AddResource` | blockchain/src/blockchain.cpp:37-41 | returns 1; writes only next_free->next and next_id; the new successor of next_free is a fresh INSERT/ACCEPT block for usr_id with the old next_id and no successor; next_id is incremented (mod 2^64); head, next_free and the genesis block's data are unchanged |
| `Ledger.Blockchain.AddResourceAtEnd` | blockchain/src/blockchain.cpp:32-38 | corrected add_resource: the same new block is linked after next_free, and next_free then moves onto it |
| `Ledger.TwoInserts` | blockchain/src/blockchain.cpp:25-41 | two calls on a fresh ledger leave head's successor as block 2 (user 8) with no successor, so block 1 is unreachable |
| `Ledger.TwoInsertsAtEnd` | blockchain/src/blockchain.cpp:32-38 | the same two calls, made the corrected way, leave blocks 1 and 2 reachable in order and the chain ending after block 2 |

Each block has at most one successor because `Block` has a single `next: Block?` field
(`blockchain/src/blockchain.hpp:30`). There is no default block because `Block` declares only
the four-argument constructor (`blockchain/src/blockchain.hpp:28-29`). Both facts are built into
the types, so no lemma states them.

## Findings

| source | as written | input that shows it | evidently intended | confidence | as-written member | corrected member |
|---|---|---|---|---|---|---|
| blockchain/src/blockchain.cpp:32-41 | `add_resource` assigns `next_free->next` but never advances `next_free`, so each call replaces the genesis block's successor | on a fresh `Blockchain`, call `add_resource(7)` then `add_resource(8)`: the chain from `head` is genesis → block 2, and block 1 is unreachable | add "on the end", as the doc comment says: link after `next_free`, then move `next_free` onto the new block | not executed; high, because the comment and the field name `next_free` both describe appending | `Ledger.TwoInserts`, `LedgerSpec.RunFromInit` | `Ledger.Blockchain.AddResourceAtEnd`, `LedgerSpec.RunAtEndAppends`, `Ledger.TwoInsertsAtEnd` |

The main model (`AddResource`, `Link`, `Run`) follows the code as written, because that model
describes the ledger's actual behaviour. The corrected definitions sit beside it, each with its
appending property proved.

## Left out

- `time_stamp` / `std::time(nullptr)`: the wall clock is a foreign call. It is the argument
  `now`, and the model says nothing about the values it takes.
- `std::shared_ptr` reference counting: `next` is a nullable reference. Freeing a block once
  an overwrite makes it unreachable is memory management and is not modelled. Such a block just
  drops out of the reachable `nodes`.
- The destructor `~Blockchain() = default` (`blockchain/src/blockchain.hpp:45`) only releases
  memory.
- `src/random_sim.cpp` is file and console I/O. It calls `add_user`, `add_attribute`,
  `user2id`, `audit` and a four-argument `add_resource`, and none of these is defined in the
  ledger's header or source, so they are not part of this model.
- `gen_plot.py` is plotting and interactive input.
- User and role registries, access-request evaluation and size counters: no ledger source file
  defines them. `BLOCK_EVT_REQUEST` and `BLOCK_STATUS_REJECT` are only constants, and the only
  property stated about them is that they are distinct.
- Blocks.Block.constructor: accepts any `uint8` event and status, just as the C++ constructor
  does. The macros are not enforced.
