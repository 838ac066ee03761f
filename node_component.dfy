/** Class NodeComponent of dokuztas/node.py: one node of the network, with its
    chain, its stop flag for the mining thread, its loose transactions and its
    FIFO queue of pending blocks.  Each operation is proved to leave exactly the
    state the matching function of NodeSpec gives; the properties of those
    functions are in NodeLemmas. */
module Node {
  import opened NodeSpec
  import NodeLemmas

  class NodeComponent<Tx, Block> {
    var chain: Option<Chain<Block>>
    var stopMining: bool
    const difficulty: int
    /** Whether a `cb_notify_nodes` callback was given. */
    const notifies: bool
    const miner: bool
    /** The block that genesis generation of a new Blockchain produces. */
    const genesis: Block
    var pendingTxs: seq<Tx>
    var pendingBlocks: seq<PendingBlock<Tx>>
    /** The pending blocks handed to a mining thread, in order. */
    ghost var started: seq<PendingBlock<Tx>>
    /** The blocks passed to `cb_notify_nodes`, in order. */
    ghost var notified: seq<Block>

    function Configuration(): Config<Block>
    {
      Config(miner, notifies, difficulty, genesis)
    }

    ghost function State(): State<Tx, Block>
      reads this
    {
      NodeSpec.State(chain, stopMining, pendingTxs, pendingBlocks, started, notified)
    }

    ghost predicate Valid()
      reads this
    {
      Inv(State())
    }

    constructor(genesis: Block, miner: bool := false, notifies: bool := false, difficulty: int := DefaultDifficulty)
      ensures Valid()
      ensures State() == Initial()
      ensures Configuration() == Config(miner, notifies, difficulty, genesis)
    {
      this.chain := None;
      this.stopMining := false;
      this.difficulty := difficulty;
      this.notifies := notifies;
      this.miner := miner;
      this.genesis := genesis;
      this.pendingTxs := [];
      this.pendingBlocks := [];
      this.started := [];
      this.notified := [];
    }

    method CreateGenesisChain()
      requires Valid()
      modifies this
      ensures Valid()
      ensures State() == CreateGenesisStep(Configuration(), old(State()))
      ensures chain == Some(Chain(difficulty, [genesis]))
    {
      chain := Some(GenesisChain(Configuration()));
    }

    method PickHonestChain<Peer>(nodeChains: seq<(Peer, seq<Block>)>) returns (err: Option<NodeError>)
      requires Valid()
      modifies this
      ensures Valid()
      ensures State() == PickHonestChainStep(Configuration(), old(State()), nodeChains).next
      ensures err == PickHonestChainStep(Configuration(), old(State()), nodeChains).raised
      ensures |nodeChains| > 0 ==> err == None && chain == Some(Chain(difficulty, nodeChains[0].1))
    {
      chain := Some(NewChain(Configuration()));
      if |nodeChains| == 0 {
        return Some(IndexError);
      }
      chain := Some(chain.value.(blocks := nodeChains[0].1));
      err := None;
    }

    method LoadChain<Peer>(nodesChains: seq<(Peer, seq<Block>)>)
      requires Valid()
      modifies this
      ensures Valid()
      ensures State() == LoadChainStep(Configuration(), old(State()), nodesChains)
      ensures chain == Some(if nodesChains == [] then Chain(difficulty, [genesis]) else Chain(difficulty, nodesChains[0].1))
    {
      if |nodesChains| == 0 {
        CreateGenesisChain();
      } else {
        var _ := PickHonestChain(nodesChains);
      }
    }

    method GetBlocks() returns (r: Result<seq<Block>>)
      ensures r == GetBlocksResult(State())
      ensures r.Err? <==> chain.None?
      ensures r.Err? ==> r.error == ChainNotCreatedException
      ensures r.Ok? ==> chain.Some? && r.value == chain.value.blocks
    {
      if chain.None? {
        return Err(ChainNotCreatedException);
      }
      r := Ok(chain.value.blocks);
    }

    method MinerCheck() returns (err: Option<NodeError>)
      ensures err == MinerCheckResult(Configuration())
      ensures err == None <==> miner
      ensures err != None ==> err == Some(MinerException)
    {
      if !miner {
        return Some(MinerException);
      }
      err := None;
    }

    /** The flag the mining thread polls: true asks it to give up its block. */
    method TerminateMining() returns (stop: bool)
      ensures stop <==> stopMining
    {
      stop := stopMining;
    }

    /** Hands `block` to a new mining thread bound to `chain.mine`; only the
        event is recorded.  Without a chain there is no `mine` to bind. */
    method InternalMine(block: PendingBlock<Tx>) returns (err: Option<NodeError>)
      modifies this
      ensures State() == InternalMineStep(old(State()), block).next
      ensures err == InternalMineStep(old(State()), block).raised
      ensures old(chain).None? ==> err == Some(AttributeError) && State() == old(State())
      ensures old(chain).Some? ==> err == None && State() == old(State()).(started := old(started) + [block])
    {
      if chain.None? {
        return Some(AttributeError);
      }
      started := started + [block];
      err := None;
    }

    /** Calls `cb_notify_nodes` with `block`; only the event is recorded. */
    method NotifyNodes(block: Block)
      modifies this
      ensures notified == old(notified) + [block]
      ensures State() == old(State()).(notified := old(notified) + [block])
    {
      notified := notified + [block];
    }

    method AddTransaction(tx: Tx) returns (err: Option<NodeError>)
      requires Valid()
      modifies this
      ensures Valid()
      ensures State() == AddTransactionStep(Configuration(), old(State()), tx).next
      ensures err == AddTransactionStep(Configuration(), old(State()), tx).raised
      ensures !miner ==> err == Some(MinerException) && State() == old(State())
      ensures miner ==> |pendingTxs| <= BatchThreshold
      ensures miner && old(chain).Some? ==> err == None
      ensures miner && old(chain).None? && |old(pendingTxs)| == BatchThreshold && old(pendingBlocks) == [] ==>
                err == Some(AttributeError) && started == old(started)
      ensures miner && |old(pendingTxs)| < BatchThreshold ==>
                pendingTxs == old(pendingTxs) + [tx] && pendingBlocks == old(pendingBlocks) && started == old(started)
      ensures miner && |old(pendingTxs)| == BatchThreshold ==>
                pendingTxs == [] && pendingBlocks == old(pendingBlocks) + [PendingBlock(old(pendingTxs) + [tx])]
    {
      NodeLemmas.AddTransactionPreservesInv(Configuration(), State(), tx);
      err := MinerCheck();
      if err != None {
        return;
      }
      pendingTxs := pendingTxs + [tx];
      if |pendingTxs| > BatchThreshold {
        var pBlock := PendingBlock(pendingTxs);
        pendingBlocks := pendingBlocks + [pBlock];
        pendingTxs := [];
        if |pendingBlocks| == 1 {
          err := Mine();
        }
      }
    }

    method BlockFound() returns (err: Option<NodeError>)
      requires Valid()
      modifies this
      ensures Valid()
      ensures State() == BlockFoundStep(Configuration(), old(State())).next
      ensures err == BlockFoundStep(Configuration(), old(State())).raised
      ensures |old(pendingBlocks)| > 0 ==> pendingBlocks == old(pendingBlocks)[1..]
      ensures old(pendingBlocks) == [] ==> pendingBlocks == [] && pendingTxs == []
      ensures miner && old(chain).None? ==> started == old(started) && notified == old(notified)
      ensures miner && old(chain).None? && (notifies || |old(pendingBlocks)| > 1 || (|old(pendingBlocks)| == 1 && old(pendingTxs) != [])) ==>
                err == Some(AttributeError)
    {
      NodeLemmas.BlockFoundPreservesInv(Configuration(), State());
      if |pendingBlocks| > 0 {
        pendingBlocks := pendingBlocks[1..];
      } else if |pendingTxs| > 0 {
        pendingTxs := [];
      }
      err := Mine();
      if err != None {
        return;
      }
      if notifies {
        if chain.None? {
          return Some(AttributeError);
        }
        var blocks := chain.value.blocks;
        if |blocks| == 0 {
          return Some(IndexError);
        }
        NotifyNodes(blocks[|blocks| - 1]);
      }
    }

    method Mine() returns (err: Option<NodeError>)
      requires Valid()
      modifies this
      ensures Valid()
      ensures State() == MineStep(Configuration(), old(State())).next
      ensures err == MineStep(Configuration(), old(State())).raised
      ensures pendingBlocks == old(pendingBlocks) && chain == old(chain)
      ensures miner && chain.None? && (old(pendingBlocks) != [] || old(pendingTxs) != []) ==>
                err == Some(AttributeError) && started == old(started) && !stopMining
    {
      NodeLemmas.MinePreservesInv(Configuration(), State());
      err := MinerCheck();
      if err != None {
        return;
      }
      if |pendingBlocks| > 0 {
        stopMining := false;
        err := InternalMine(pendingBlocks[0]);
      } else if |pendingTxs| > 0 {
        stopMining := false;
        var tempBlock := PendingBlock(pendingTxs);
        pendingTxs := [];
        err := InternalMine(tempBlock);
      }
    }

    method BlockAdded(newBlock: Block) returns (err: Option<NodeError>)
      requires Valid()
      modifies this
      ensures Valid()
      ensures State() == BlockAddedStep(Configuration(), old(State()), newBlock).next
      ensures err == BlockAddedStep(Configuration(), old(State()), newBlock).raised
      ensures old(chain).None? ==> err == Some(AttributeError) && State() == old(State())
      ensures old(chain).Some? ==> err == None && chain == Some(old(chain).value.(blocks := old(chain).value.blocks + [newBlock]))
      ensures old(chain).Some? && !miner ==> State() == old(State()).(chain := chain)
    {
      NodeLemmas.BlockAddedPreservesInv(Configuration(), State(), newBlock);
      if chain.None? {
        return Some(AttributeError);
      }
      chain := Some(chain.value.(blocks := chain.value.blocks + [newBlock]));
      err := None;
      if miner {
        stopMining := true;
        if |pendingBlocks| > 0 {
          pendingBlocks := pendingBlocks[1..];
        }
        err := Mine();
      }
    }
  }
}
