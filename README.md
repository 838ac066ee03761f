# dokuztas node: a Dafny model of NodeComponent and NasComponent

dokuztas is a small proof-of-work ledger in which every process is a node of a
peer-to-peer network. This project models the node's bookkeeping in
`dokuztas/node.py`:

- **`NodeComponent`** holds the chain, the `stop_mining` flag its mining thread polls,
  the loose transactions `pending_txs` and the FIFO queue `pending_blocks`.
  - A miner collects transactions. Once more than 10 wait, it turns all of them into one pending block at the tail of the queue.
  - It mines the head of the queue, or else an ad-hoc block made of the leftover transactions.
  - It removes finished work when its own thread reports success, and notifies its peers.
  - It accepts a block a peer found without checking it. It stops, drops the head pending block if there is one, and restarts.
  - When it joins, it builds a genesis chain if there are no peers. Otherwise it adopts the chain of the first peer that answered.
- **`NasComponent`** is the node's directory of known peers. It has no duplicates and keeps insertion order.

The project has four files:

- `node_spec.dfy` (module `NodeSpec`) describes the node's state as a value:
  - the fields the source changes;
  - the ordered event logs `started` (blocks handed to a mining thread) and `notified` (blocks passed to the `cb_notify_nodes` callback).

  Each operation is a function that gives the state it leaves and the exception it raises. Exceptions are
  reported together with the state reached, because `block_found` and `pick_honest_chain` change fields before
  they raise. The module also has the invariant `Inv`, a trace semantics `Run` over the events the environment
  can cause, and `SubmitAll`, which submits a list of transactions one after another.
- `node_lemmas.dfy` (module `NodeLemmas`) proves the properties of those functions.
- `node_component.dfy` (module `Node`) is the class `NodeComponent`. It has the source's fields, ghost logs and
  one method per source method. Each method is proved to leave exactly the state its `NodeSpec` function gives,
  and to keep `Valid()`, the invariant.
- `nas_component.dfy` (module `Nas`) is the class `NasComponent`, with the function `Inserted` that specifies
  `add_node` and lemmas about repeated insertion.

Where a docstring of `dokuztas/node.py` and its code disagree, the model follows the code:

- The docstring of `add_transaction` (dokuztas/node.py:76) says mining is triggered once the
  transaction count reaches 10. The code (dokuztas/node.py:84-88) batches only when `len(pending_txs) > 10`,
  i.e. at the eleventh transaction, and takes all 11 into the block, leaving nothing loose.
- `block_added` (dokuztas/node.py:149) appends a peer's block to the chain without any check of it.

Starting a mining thread reads `self.chain.mine` (dokuztas/node.py:115). On a miner without a chain, `mine`
therefore raises AttributeError whenever there is work. By then the stop flag is already lowered and, for an
ad-hoc block, the loose transactions are already taken. The model states this outcome wherever mining can start.

A property of the code as written, proved in `BlockFoundDropsLateTransactions`:

- After an ad-hoc block is started, `pending_txs` is already empty.
- Transactions that arrive while that block is mined are thrown away when the block is reported found.
- They are never handed to a miner.

## Model

| member | source | states |
|---|---|---|
| `Node.NodeComponent.constructor` | dokuztas/node.py:12-19 | a new node has no chain, the stop flag down, no loose transactions, an empty queue; defaults: not a miner, no callback, difficulty 4 |
| `Node.NodeComponent.CreateGenesisChain` | dokuztas/node.py:21-25 | the chain becomes a new chain of the node's difficulty holding only the genesis block; nothing else changes |
| `Node.NodeComponent.PickHonestChain` | dokuztas/node.py:27-39 | with candidates, the chain becomes the first candidate's block list at the node's difficulty and nothing is raised; with none, IndexError after a fresh empty chain was assigned |
| `Node.NodeComponent.LoadChain` | dokuztas/node.py:41-50 | no candidates gives the genesis chain, otherwise the first candidate's blocks; nothing but the chain changes |
| `Node.NodeComponent.GetBlocks` | dokuztas/node.py:52-55 | raises ChainNotCreatedException exactly when no chain exists, otherwise returns the chain's blocks |
| `Node.NodeComponent.MinerCheck` | dokuztas/node.py:57-60 | raises MinerException exactly when the node is not a miner |
| `Node.NodeComponent.TerminateMining` | dokuztas/node.py:62-69 | returns the current stop flag |
| `Node.NodeComponent.AddTransaction` | dokuztas/node.py:71-91 | a non-miner raises and nothing changes; below 10 the transaction is appended; at 10 all 11 become one block at the queue's tail and the loose list empties; the loose list never exceeds 10; with a chain nothing is raised; without one, forming a batch into an empty queue raises AttributeError and starts nothing |
| `Node.NodeComponent.BlockFound` | dokuztas/node.py:93-105 | removes exactly the queue's head (or, with an empty queue, all loose transactions), restarts mining, then notifies the last chain block when a callback is set; on a miner without a chain nothing is started or notified, and AttributeError is raised when work is left or a callback is set |
| `Node.NodeComponent.InternalMine` | dokuztas/node.py:107-117 | with a chain, records that `block` was handed to a mining thread and nothing else changes; without one, raises AttributeError and changes nothing |
| `Node.NodeComponent.NotifyNodes` | dokuztas/node.py:104-105 | records that `block` was passed to the notification callback; nothing else changes |
| `Node.NodeComponent.Mine` | dokuztas/node.py:119-139 | leaves the queue and chain alone and changes exactly what the three-way choice of `mine` changes; a miner without a chain but with work raises AttributeError, starts nothing and leaves the flag lowered |
| `Node.NodeComponent.BlockAdded` | dokuztas/node.py:141-158 | without a chain raises AttributeError and changes nothing; otherwise appends the block unchecked, and a non-miner changes nothing else |
| `NodeLemmas.AddTransactionRoleGuard` | dokuztas/node.py:57-60 | add_transaction on a non-miner raises MinerException and leaves the whole state as it was |
| `NodeLemmas.AddTransactionBelowThreshold` | dokuztas/node.py:82-84 | with fewer than 10 loose transactions a miner only appends `tx`: queue, chain, flag and logs unchanged, nothing raised |
| `NodeLemmas.AddTransactionAtThreshold` | dokuztas/node.py:84-88 | with 10 loose transactions one block of all 11, in arrival order, is put at the queue's tail; earlier entries are untouched and the loose list is empty; AttributeError is raised exactly when the queue was empty and there is no chain |
| `NodeLemmas.AddTransactionStartsMining` | dokuztas/node.py:90-91 | `mine` runs exactly when a batch is formed into an empty queue: the flag is lowered and, with a chain, the new block is started; without a chain AttributeError is raised and nothing starts; otherwise nothing is started, raised, or changed in the flag |
| `NodeLemmas.FlattenAppend` | dokuztas/node.py:87 | enqueuing a block at the tail puts its transactions after those of the blocks ahead of it |
| `NodeLemmas.AddTransactionKeepsArrivalOrder` | dokuztas/node.py:80-91 | for a miner, the waiting transactions (queued blocks, then loose ones) grow by exactly `tx` at the end |
| `NodeLemmas.MineRoleGuard` | dokuztas/node.py:125 | mine on a non-miner raises MinerException and changes nothing |
| `NodeLemmas.MineQueuedBlock` | dokuztas/node.py:127-131 | with a non-empty queue the whole new state: the stop flag is lowered and, with a chain, the head block is started without being removed; without a chain AttributeError and nothing started; nothing else changes |
| `NodeLemmas.MineLeftovers` | dokuztas/node.py:132-139 | with an empty queue and leftovers the whole new state: the flag is lowered, the loose list empties and, with a chain, one ad-hoc block of all of them is started; without a chain AttributeError, the leftovers still gone; nothing else changes |
| `NodeLemmas.MineIdle` | dokuztas/node.py:119-139 | with no work at all mine changes nothing and raises nothing |
| `NodeLemmas.BlockFoundDequeuesHead` | dokuztas/node.py:98-102 | the queue loses exactly its head and keeps the order of the rest; mining restarts on the next block, or on the leftovers, or not at all; without a chain the restart starts nothing and raises AttributeError, notifying nothing |
| `NodeLemmas.BlockFoundEmptyQueue` | dokuztas/node.py:100-102 | with an empty queue all loose transactions are discarded and nothing else but the notification log changes |
| `NodeLemmas.BlockFoundNotifies` | dokuztas/node.py:104-105 | with a callback the last chain block is notified, a missing chain raises AttributeError, an empty block list raises IndexError; without one nothing is notified, and nothing is raised when there is a chain; without a chain AttributeError exactly when a callback is set or work is left |
| `NodeLemmas.BlockFoundOnNonMiner` | dokuztas/node.py:98-102 | on a non-miner the work is still dropped, then the restart raises MinerException and nothing is notified or started |
| `NodeLemmas.BlockFoundDropsLateTransactions` | dokuztas/node.py:98-102 | after a found block, a late transaction and another found block, only the leftovers' ad-hoc block was ever started (none, without a chain) and nothing waits: the late transaction is lost |
| `NodeLemmas.BlockAddedWithoutChain` | dokuztas/node.py:149 | with no chain the call raises AttributeError and changes nothing |
| `NodeLemmas.BlockAddedAppends` | dokuztas/node.py:149-158 | the chain grows by exactly the new block at the end, no validation; a non-miner changes nothing else; a miner's queue loses its head if it has one (an empty queue is a no-op) |
| `NodeLemmas.BlockAddedStopFlag` | dokuztas/node.py:150-158 | a miner's stop flag stays raised exactly when neither a second queued block nor a loose transaction was left, and then nothing is started; otherwise exactly the second queued block is restarted (loose list kept), or else one ad-hoc block of all the loose transactions (loose list emptied) |
| `NodeLemmas.BlockAddedTwice` | dokuztas/node.py:152-157 | two peer blocks while one block is queued: neither raises, the queue ends empty and both blocks are appended in order |
| `NodeLemmas.LoadChainWithoutPeers` | dokuztas/node.py:47-48 | no candidates: a fresh genesis chain of length 1, nothing else changes |
| `NodeLemmas.LoadChainAdoptsFirst` | dokuztas/node.py:38-39 | candidates: the first one's blocks are adopted whatever the other candidates hold |
| `NodeLemmas.PickHonestChainWithoutCandidates` | dokuztas/node.py:38-39 | an empty candidate list raises IndexError after the chain was replaced by a fresh empty one |
| `NodeLemmas.GetBlocksOutcome` | dokuztas/node.py:52-55 | get_blocks fails with ChainNotCreatedException iff there is no chain, otherwise gives its blocks |
| `NodeLemmas.InitialInv` | dokuztas/node.py:18-19 | a new node satisfies the invariant |
| `NodeLemmas.MinePreservesInv` | dokuztas/node.py:119-139 | mine keeps the invariant (at most 10 loose transactions, every queued block 11) |
| `NodeLemmas.AddTransactionPreservesInv` | dokuztas/node.py:82-88 | add_transaction keeps the invariant; in particular at most 10 transactions are loose after every call |
| `NodeLemmas.DropHeadPreservesInv` | dokuztas/node.py:99 | removing the head of a queue of full batches leaves a queue of full batches |
| `NodeLemmas.BlockFoundPreservesInv` | dokuztas/node.py:93-105 | block_found keeps the invariant |
| `NodeLemmas.BlockAddedPreservesInv` | dokuztas/node.py:141-158 | block_added keeps the invariant |
| `NodeLemmas.LoadChainPreservesInv` | dokuztas/node.py:41-50 | load_chain keeps the invariant |
| `NodeLemmas.RunPreservesInv` | dokuztas/node.py:71-158 | under any interleaving of submissions, local completions and peer blocks the invariant holds |
| `NodeLemmas.SubmitAllSplit` | dokuztas/node.py:71-91 | submitting `a` then `b` is submitting `a + b` |
| `NodeLemmas.SubmitBelowThreshold` | dokuztas/node.py:82-84 | while at most 10 are loose, submissions only collect, in order |
| `NodeLemmas.ElevenSubmissions` | dokuztas/node.py:84-91 | 11 submissions to an idle miner give one pending block holding all 11 in order, start mining it once (not at all without a chain), and leave nothing loose |
| `NodeLemmas.SubmitAllKeepsArrivalOrder` | dokuztas/node.py:80-91 | a miner keeps every submitted transaction waiting, in arrival order, behind those already waiting |
| `Nas.NasComponent.constructor` | dokuztas/node.py:166-167 | a new directory is empty |
| `Nas.NasComponent.AddNode` | dokuztas/node.py:169-171 | a node not yet listed is appended at the end; a listed one changes nothing; the directory stays duplicate-free |
| `Nas.NasComponent.GetNodes` | dokuztas/node.py:173-174 | returns the directory as it is |
| `Nas.InsertedExtends` | dokuztas/node.py:169-171 | adding keeps the old directory as a prefix and holds exactly the old nodes and the new one |
| `Nas.InsertedKeepsNoDuplicates` | dokuztas/node.py:170-171 | adding keeps the directory duplicate-free |
| `Nas.InsertedIdempotent` | dokuztas/node.py:170 | adding a listed node changes nothing, so adding twice is adding once |
| `Nas.InsertAllDirectory` | dokuztas/node.py:169-171 | after any sequence of additions the directory is duplicate-free, starts with what it held and holds exactly the nodes ever added |
| `Nas.InsertAllBound` | dokuztas/node.py:169-171 | the directory never holds more entries than were added |

## Left out

- `Blockchain` and `PendingBlock` (`dokuztas/blockchain.py`, not part of this model).
  - A chain is a value: its difficulty and its list of blocks. A block is an opaque type.
  - A pending block is its list of transactions. `add_txs` is taken to store them in the given order.
  - No hashing, linkage or difficulty check is modelled; `node.py` performs none.
  - A freshly constructed `Blockchain` is taken to hold no blocks.
  - Genesis generation is taken to leave exactly one block, which is passed to the constructor as `genesis`.
  - A `Blockchain` object is taken to be truthy whenever it is not `None`.
- `PickHonestChain`: the state it leaves on an empty candidate list rests on the assumption above about a fresh
  `Blockchain`. `blockchain.py` is not part of this model, so this cannot be checked.
- Aliasing. The model copies values and does not capture any of these:
  - `pick_honest_chain` (dokuztas/node.py:39) stores the candidate's own list.
  - `block_added` appends in place (dokuztas/node.py:149). After an adopted chain, this also changes the candidate's list.
  - `get_blocks` (dokuztas/node.py:55) and `get_nodes` (dokuztas/node.py:174) return the live lists, which the caller may then change.
- `MiningThread`, threading and the race on `stop_mining` (`dokuztas/_internals`, not part of this model).
  - Starting a thread is recorded as an event in `started`.
  - `block_found` is a method the environment may call at any time.
  - `stop_mining` has only its sequential value.
  - There is no proof-of-work search, so the mined block never reaches the chain through this model.
    `Blockchain.mine` would append it, and that is not part of this model.
- The `cb_notify_nodes` callback is recorded as an event in `notified`. What it sends over the network is not
  modelled, and neither is any exception it raises.
- The Flask routes, the HTTP clients (`get_other_nodes`, `connect_to_network`, `broadcast_nodes`, the
  module-level `load_chain` and `notify_nodes`) and jsonpickle serialisation: these are network I/O.
- Process start-up (argparse, the sqlite peer store, `random`, the module globals): start-up I/O.
- Logging through `_log`: it has no effect on the node's state.
- Python exceptions are return values (`Option<NodeError>`, `Result`), not control flow. AttributeError and
  IndexError stand for the errors the code would raise on a missing chain or an empty list.
