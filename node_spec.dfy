/** The abstract state of a dokuztas node (class NodeComponent in dokuztas/node.py)
    and one pure function per operation, giving the state the operation leaves
    behind and the exception it raises, if any.

    Blocks, transactions and peers are opaque type parameters.  The Blockchain
    object is a value holding its difficulty and its list of blocks; the mining
    thread and the peer-notification callback are recorded as event logs
    (`started`, `notified`) in the state. */
module NodeSpec {

  /** `add_transaction` batches once MORE than this many transactions wait. */
  const BatchThreshold: nat := 10

  /** Default proof-of-work difficulty of a new node. */
  const DefaultDifficulty: int := 4

  datatype Option<T> = None | Some(value: T)

  /** The exceptions the node's operations can raise. */
  datatype NodeError =
    | MinerException              // the node is not a miner
    | ChainNotCreatedException    // `get_blocks` before any chain exists
    | AttributeError              // `self.chain.blocks` while `chain` is None
    | IndexError                  // indexing an empty list

  datatype Result<T> = Ok(value: T) | Err(error: NodeError)

  /** A batch of transactions waiting to be mined, in arrival order. */
  datatype PendingBlock<Tx> = PendingBlock(txs: seq<Tx>)

  /** A Blockchain object: its difficulty and its list of blocks. */
  datatype Chain<Block> = Chain(difficulty: int, blocks: seq<Block>)

  /** What a node is given at construction and never changes: whether it mines,
      whether a `cb_notify_nodes` callback is set, the difficulty, and the block
      the Blockchain's genesis generation produces. */
  datatype Config<Block> = Config(miner: bool, notifies: bool, difficulty: int, genesis: Block)

  /** Everything a node changes.  `started` lists, in order, the pending blocks
      handed to a mining thread; `notified` lists the blocks passed to the
      peer-notification callback. */
  datatype State<Tx, Block> = State(
    chain: Option<Chain<Block>>,
    stopMining: bool,
    pendingTxs: seq<Tx>,
    pendingBlocks: seq<PendingBlock<Tx>>,
    started: seq<PendingBlock<Tx>>,
    notified: seq<Block>)

  /** The state an operation leaves and the exception it raised (None: returned normally).
      The state is reported also when an exception is raised, because the
      operations change fields before the point where they raise. */
  datatype Step<Tx, Block> = Step(next: State<Tx, Block>, raised: Option<NodeError>)

  /** A freshly constructed node. */
  function Initial<Tx, Block>(): State<Tx, Block>
  {
    State(None, false, [], [], [], [])
  }

  /** A Blockchain just constructed, before any block was put into it. */
  function NewChain<Block>(c: Config<Block>): Chain<Block>
  {
    Chain(c.difficulty, [])
  }

  /** A Blockchain after genesis generation: the genesis block alone. */
  function GenesisChain<Block>(c: Config<Block>): Chain<Block>
  {
    Chain(c.difficulty, [c.genesis])
  }

  function CreateGenesisStep<Tx, Block>(c: Config<Block>, s: State<Tx, Block>): State<Tx, Block>
  {
    s.(chain := Some(GenesisChain(c)))
  }

  /** Adopts the block list of the FIRST candidate; an empty candidate list fails
      on `node_chains[0]` after the new Blockchain has already been assigned. */
  function PickHonestChainStep<Peer, Tx, Block>(c: Config<Block>, s: State<Tx, Block>, nodeChains: seq<(Peer, seq<Block>)>): Step<Tx, Block>
  {
    if |nodeChains| == 0 then Step(s.(chain := Some(NewChain(c))), Some(IndexError))
    else Step(s.(chain := Some(Chain(c.difficulty, nodeChains[0].1))), None)
  }

  function LoadChainStep<Peer, Tx, Block>(c: Config<Block>, s: State<Tx, Block>, nodesChains: seq<(Peer, seq<Block>)>): State<Tx, Block>
  {
    if |nodesChains| == 0 then CreateGenesisStep(c, s)
    else PickHonestChainStep(c, s, nodesChains).next
  }

  function GetBlocksResult<Tx, Block>(s: State<Tx, Block>): Result<seq<Block>>
  {
    if s.chain.None? then Err(ChainNotCreatedException) else Ok(s.chain.value.blocks)
  }

  function MinerCheckResult<Block>(c: Config<Block>): Option<NodeError>
  {
    if c.miner then None else Some(MinerException)
  }

  /** `_internal_mine`: starting a mining thread reads `chain.mine`, so without
      a chain it raises AttributeError and starts nothing. */
  function InternalMineStep<Tx, Block>(s: State<Tx, Block>, block: PendingBlock<Tx>): Step<Tx, Block>
  {
    if s.chain.None? then Step(s, Some(AttributeError))
    else Step(s.(started := s.started + [block]), None)
  }

  /** `mine`: hand the head pending block to a miner, or else turn the leftover
      transactions into an ad-hoc block, or else do nothing.  The stop flag is
      lowered (and the leftovers taken) before the thread is started. */
  function MineStep<Tx, Block>(c: Config<Block>, s: State<Tx, Block>): Step<Tx, Block>
  {
    if !c.miner then Step(s, Some(MinerException))
    else if |s.pendingBlocks| > 0 then
      InternalMineStep(s.(stopMining := false), s.pendingBlocks[0])
    else if |s.pendingTxs| > 0 then
      InternalMineStep(s.(stopMining := false, pendingTxs := []), PendingBlock(s.pendingTxs))
    else
      Step(s, None)
  }

  /** `add_transaction` */
  function AddTransactionStep<Tx, Block>(c: Config<Block>, s: State<Tx, Block>, tx: Tx): Step<Tx, Block>
  {
    if !c.miner then Step(s, Some(MinerException))
    else
      var txs := s.pendingTxs + [tx];
      if |txs| > BatchThreshold then
        var batched := s.(pendingTxs := [], pendingBlocks := s.pendingBlocks + [PendingBlock(txs)]);
        if |batched.pendingBlocks| == 1 then MineStep(c, batched) else Step(batched, None)
      else
        Step(s.(pendingTxs := txs), None)
  }

  /** `block_found`: drop the completed work, restart mining, then notify peers
      with the last block of the chain when a callback is set. */
  function BlockFoundStep<Tx, Block>(c: Config<Block>, s: State<Tx, Block>): Step<Tx, Block>
  {
    var dequeued :=
      if |s.pendingBlocks| > 0 then s.(pendingBlocks := s.pendingBlocks[1..])
      else if |s.pendingTxs| > 0 then s.(pendingTxs := [])
      else s;
    var mined := MineStep(c, dequeued);
    if mined.raised.Some? || !c.notifies then mined
    else if mined.next.chain.None? then Step(mined.next, Some(AttributeError))
    else
      var blocks := mined.next.chain.value.blocks;
      if |blocks| == 0 then Step(mined.next, Some(IndexError))
      else Step(mined.next.(notified := mined.next.notified + [blocks[|blocks| - 1]]), None)
  }

  /** `block_added`: append a peer's block unchecked; a miner also stops, drops
      the head pending block if there is one, and restarts mining. */
  function BlockAddedStep<Tx, Block>(c: Config<Block>, s: State<Tx, Block>, newBlock: Block): Step<Tx, Block>
  {
    if s.chain.None? then Step(s, Some(AttributeError))
    else
      var appended := s.(chain := Some(s.chain.value.(blocks := s.chain.value.blocks + [newBlock])));
      if !c.miner then Step(appended, None)
      else
        MineStep(c, appended.(stopMining := true,
                              pendingBlocks := if |s.pendingBlocks| > 0 then s.pendingBlocks[1..] else s.pendingBlocks))
  }

  /** What holds of every state a node reaches: at most BatchThreshold loose
      transactions, and every queued block a full batch of BatchThreshold + 1. */
  ghost predicate Inv<Tx, Block>(s: State<Tx, Block>)
  {
    && |s.pendingTxs| <= BatchThreshold
    && forall i :: 0 <= i < |s.pendingBlocks| ==> |s.pendingBlocks[i].txs| == BatchThreshold + 1
  }

  /** The transactions of a queue of pending blocks, in queue order. */
  function Flatten<Tx>(q: seq<PendingBlock<Tx>>): seq<Tx>
  {
    if q == [] then [] else q[0].txs + Flatten(q[1..])
  }

  /** The transactions waiting in queued blocks and loose, oldest first. */
  function Queued<Tx, Block>(s: State<Tx, Block>): seq<Tx>
  {
    Flatten(s.pendingBlocks) + s.pendingTxs
  }

  /** What the environment may do to a node once its chain is loaded: submit a
      transaction (`/add`, `/added`), let the mining thread report success, or
      report a block a peer found (`/found`). */
  datatype Event<Tx, Block> = Submit(tx: Tx) | Found | Added(block: Block)

  function Apply<Tx, Block>(c: Config<Block>, s: State<Tx, Block>, e: Event<Tx, Block>): Step<Tx, Block>
  {
    match e
    case Submit(tx) => AddTransactionStep(c, s, tx)
    case Found => BlockFoundStep(c, s)
    case Added(b) => BlockAddedStep(c, s, b)
  }

  /** The state after a trace of events; an exception ends only its own call. */
  function Run<Tx, Block>(c: Config<Block>, s: State<Tx, Block>, trace: seq<Event<Tx, Block>>): State<Tx, Block>
    decreases |trace|
  {
    if trace == [] then s else Run(c, Apply(c, s, trace[0]).next, trace[1..])
  }

  /** The state after submitting `txs` one after the other. */
  function SubmitAll<Tx, Block>(c: Config<Block>, s: State<Tx, Block>, txs: seq<Tx>): State<Tx, Block>
    decreases |txs|
  {
    if txs == [] then s else SubmitAll(c, AddTransactionStep(c, s, txs[0]).next, txs[1..])
  }
}
