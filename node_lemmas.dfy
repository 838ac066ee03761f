/** Properties of the node operations of module NodeSpec: the batching threshold,
    when mining starts, FIFO removal from the pending queue, the empty-queue
    no-op, first-candidate chain selection, the exceptions, and the invariant
    every reachable state keeps. */
module NodeLemmas {
  import opened NodeSpec

  // ---------------------------------------------------------------- add_transaction

  /** A non-miner raises MinerException and changes nothing. */
  lemma AddTransactionRoleGuard<Tx, Block>(c: Config<Block>, s: State<Tx, Block>, tx: Tx)
    requires !c.miner
    ensures AddTransactionStep(c, s, tx).next == s
    ensures AddTransactionStep(c, s, tx).raised == Some(MinerException)
  {
  }

  /** Below the threshold the transaction is only appended. */
  lemma AddTransactionBelowThreshold<Tx, Block>(c: Config<Block>, s: State<Tx, Block>, tx: Tx)
    requires c.miner && |s.pendingTxs| < BatchThreshold
    ensures AddTransactionStep(c, s, tx).raised == None
    ensures AddTransactionStep(c, s, tx).next == s.(pendingTxs := s.pendingTxs + [tx])
  {
  }

  /** The eleventh transaction turns all eleven, in arrival order, into one new
      pending block at the tail of the queue and empties the loose list.  The
      call raises only when that block must be mined and there is no chain. */
  lemma AddTransactionAtThreshold<Tx, Block>(c: Config<Block>, s: State<Tx, Block>, tx: Tx)
    requires c.miner && |s.pendingTxs| == BatchThreshold
    ensures var st := AddTransactionStep(c, s, tx);
      && st.raised == (if s.pendingBlocks == [] && s.chain.None? then Some(AttributeError) else None)
      && st.next.pendingTxs == []
      && st.next.pendingBlocks == s.pendingBlocks + [PendingBlock(s.pendingTxs + [tx])]
      && |st.next.pendingBlocks[|s.pendingBlocks|].txs| == BatchThreshold + 1
      && st.next.chain == s.chain
      && st.next.notified == s.notified
  {
  }

  /** `mine` is called exactly when a batch is formed and it is the only queued
      block: the stop flag is lowered and, if a chain exists, that block is
      handed to the miner; without a chain the start fails and nothing runs. */
  lemma AddTransactionStartsMining<Tx, Block>(c: Config<Block>, s: State<Tx, Block>, tx: Tx)
    requires c.miner
    ensures var st := AddTransactionStep(c, s, tx);
      var mines := |s.pendingTxs| >= BatchThreshold && s.pendingBlocks == [];
      && st.next.started == (if mines && s.chain.Some? then s.started + [PendingBlock(s.pendingTxs + [tx])] else s.started)
      && st.next.stopMining == (if mines then false else s.stopMining)
      && st.raised == (if mines && s.chain.None? then Some(AttributeError) else None)
  {
  }

  lemma {:induction false} FlattenAppend<Tx>(q: seq<PendingBlock<Tx>>, b: PendingBlock<Tx>)
    ensures Flatten(q + [b]) == Flatten(q) + b.txs
    decreases |q|
  {
    if q == [] {
      assert [] + [b] == [b];
    } else {
      assert (q + [b])[1..] == q[1..] + [b];
      FlattenAppend(q[1..], b);
    }
  }

  /** A miner loses no transaction and keeps arrival order: the waiting
      transactions grow by exactly `tx` at the end. */
  lemma AddTransactionKeepsArrivalOrder<Tx, Block>(c: Config<Block>, s: State<Tx, Block>, tx: Tx)
    requires c.miner
    ensures Queued(AddTransactionStep(c, s, tx).next) == Queued(s) + [tx]
  {
    if |s.pendingTxs| + 1 > BatchThreshold {
      FlattenAppend(s.pendingBlocks, PendingBlock(s.pendingTxs + [tx]));
    }
  }

  // ---------------------------------------------------------------- mine

  lemma MineRoleGuard<Tx, Block>(c: Config<Block>, s: State<Tx, Block>)
    requires !c.miner
    ensures MineStep(c, s).next == s
    ensures MineStep(c, s).raised == Some(MinerException)
  {
  }

  /** With a queued block the stop flag is lowered and the head is handed to
      the miner, staying queued; without a chain the start raises instead.
      Nothing else changes. */
  lemma MineQueuedBlock<Tx, Block>(c: Config<Block>, s: State<Tx, Block>)
    requires c.miner && |s.pendingBlocks| > 0
    ensures s.chain.Some? ==>
      MineStep(c, s) == Step(s.(stopMining := false, started := s.started + [s.pendingBlocks[0]]), None)
    ensures s.chain.None? ==>
      MineStep(c, s) == Step(s.(stopMining := false), Some(AttributeError))
    ensures Queued(MineStep(c, s).next) == Queued(s)
  {
  }

  /** With an empty queue the stop flag is lowered and the leftover transactions
      all leave the loose list for one ad-hoc block, handed to the miner; without
      a chain the start raises and the leftovers are gone all the same.
      Nothing else changes. */
  lemma MineLeftovers<Tx, Block>(c: Config<Block>, s: State<Tx, Block>)
    requires c.miner && s.pendingBlocks == [] && s.pendingTxs != []
    ensures s.chain.Some? ==>
      MineStep(c, s) == Step(s.(stopMining := false, pendingTxs := [], started := s.started + [PendingBlock(s.pendingTxs)]), None)
    ensures s.chain.None? ==>
      MineStep(c, s) == Step(s.(stopMining := false, pendingTxs := []), Some(AttributeError))
    ensures Queued(MineStep(c, s).next) == []
  {
  }

  /** With no work at all nothing changes. */
  lemma MineIdle<Tx, Block>(c: Config<Block>, s: State<Tx, Block>)
    requires c.miner && s.pendingBlocks == [] && s.pendingTxs == []
    ensures MineStep(c, s) == Step(s, None)
  {
  }

  // ---------------------------------------------------------------- block_found

  /** Local completion removes exactly the head of the queue, keeps the order of
      the rest, and restarts mining on the next unit of work; without a chain
      that restart raises and starts nothing. */
  lemma BlockFoundDequeuesHead<Tx, Block>(c: Config<Block>, s: State<Tx, Block>)
    requires c.miner && |s.pendingBlocks| > 0
    ensures var st := BlockFoundStep(c, s);
      var chained := s.chain.Some?;
      && st.next.pendingBlocks == s.pendingBlocks[1..]
      && st.next.chain == s.chain
      && (|s.pendingBlocks| > 1 ==>
            && st.next.pendingTxs == s.pendingTxs
            && st.next.started == s.started + (if chained then [s.pendingBlocks[1]] else [])
            && !st.next.stopMining)
      && (|s.pendingBlocks| == 1 && s.pendingTxs != [] ==>
            && st.next.pendingTxs == []
            && st.next.started == s.started + (if chained then [PendingBlock(s.pendingTxs)] else [])
            && !st.next.stopMining)
      && (|s.pendingBlocks| == 1 && s.pendingTxs == [] ==>
            st.next.pendingTxs == [] && st.next.started == s.started && st.next.stopMining == s.stopMining)
      && (!chained && (|s.pendingBlocks| > 1 || s.pendingTxs != []) ==>
            st.raised == Some(AttributeError) && st.next.notified == s.notified)
  {
  }

  /** With an empty queue local completion discards all loose transactions and
      starts nothing. */
  lemma BlockFoundEmptyQueue<Tx, Block>(c: Config<Block>, s: State<Tx, Block>)
    requires c.miner && s.pendingBlocks == []
    ensures var st := BlockFoundStep(c, s);
      st.next == s.(pendingTxs := [], notified := st.next.notified)
  {
  }

  /** Peers are told of the last block of the chain when a callback is set;
      a missing chain or an empty block list raises instead.  Without a chain
      the restart itself raises first whenever work is left after dequeuing. */
  lemma BlockFoundNotifies<Tx, Block>(c: Config<Block>, s: State<Tx, Block>)
    requires c.miner
    ensures var st := BlockFoundStep(c, s);
      var workLeft := |s.pendingBlocks| > 1 || (|s.pendingBlocks| == 1 && s.pendingTxs != []);
      && (!c.notifies ==> st.next.notified == s.notified)
      && (!c.notifies && s.chain.Some? ==> st.raised == None)
      && (s.chain.None? ==>
            st.raised == (if c.notifies || workLeft then Some(AttributeError) else None) && st.next.notified == s.notified)
      && (c.notifies && s.chain.Some? && s.chain.value.blocks == [] ==>
            st.raised == Some(IndexError) && st.next.notified == s.notified)
      && (c.notifies && s.chain.Some? && s.chain.value.blocks != [] ==>
            st.raised == None && st.next.notified == s.notified + [s.chain.value.blocks[|s.chain.value.blocks| - 1]])
  {
  }

  /** On a non-miner the work is dropped, then the restart raises and nobody is notified. */
  lemma BlockFoundOnNonMiner<Tx, Block>(c: Config<Block>, s: State<Tx, Block>)
    requires !c.miner
    ensures var st := BlockFoundStep(c, s);
      && st.raised == Some(MinerException)
      && st.next.notified == s.notified
      && st.next.started == s.started
      && st.next.pendingBlocks == (if |s.pendingBlocks| > 0 then s.pendingBlocks[1..] else [])
  {
  }

  /** Transactions that arrive while an ad-hoc block is being mined are thrown
      away when that block is reported found: they are never handed to a miner
      and no longer wait anywhere.  (Without a chain not even the ad-hoc block
      is started, and the late transaction is lost the same way.) */
  lemma BlockFoundDropsLateTransactions<Tx, Block>(c: Config<Block>, s: State<Tx, Block>, leftovers: seq<Tx>, late: Tx)
    requires c.miner
    requires |s.pendingBlocks| == 1 && s.pendingTxs == leftovers
    requires 0 < |leftovers| <= BatchThreshold
    ensures var t := Run(c, s, [Found, Submit(late), Found]);
      && t.started == s.started + (if s.chain.Some? then [PendingBlock(leftovers)] else [])
      && Queued(t) == []
  {
    var s1 := BlockFoundStep(c, s).next;
    assert s1.pendingTxs == [] && s1.pendingBlocks == [];
    assert s1.started == s.started + (if s.chain.Some? then [PendingBlock(leftovers)] else []);
    var s2 := AddTransactionStep(c, s1, late).next;
    assert s2.pendingTxs == [late] && s2.pendingBlocks == [];
    var s3 := BlockFoundStep(c, s2).next;
    assert s3.started == s1.started && Queued(s3) == [];
    assert Run(c, s, [Found, Submit(late), Found]) == Run(c, s1, [Submit(late), Found]);
    assert Run(c, s1, [Submit(late), Found]) == Run(c, s2, [Found]);
    assert Run(c, s2, [Found]) == Run(c, s3, []);
  }

  // ---------------------------------------------------------------- block_added

  /** Without a chain the append fails on `chain.blocks` and nothing changes. */
  lemma BlockAddedWithoutChain<Tx, Block>(c: Config<Block>, s: State<Tx, Block>, b: Block)
    requires s.chain.None?
    ensures BlockAddedStep(c, s, b) == Step(s, Some(AttributeError))
  {
  }

  /** A peer's block is appended as it is, at the end of the chain; a non-miner
      changes nothing else, a miner drops the head pending block if there is one. */
  lemma BlockAddedAppends<Tx, Block>(c: Config<Block>, s: State<Tx, Block>, b: Block)
    requires s.chain.Some?
    ensures var st := BlockAddedStep(c, s, b);
      && st.raised == None
      && st.next.chain == Some(Chain(s.chain.value.difficulty, s.chain.value.blocks + [b]))
      && st.next.notified == s.notified
      && (!c.miner ==> st.next == s.(chain := st.next.chain))
      && (c.miner ==> st.next.pendingBlocks == if |s.pendingBlocks| > 0 then s.pendingBlocks[1..] else [])
  {
  }

  /** After a miner accepts a peer's block the stop flag stays raised exactly
      when no work is left once the head pending block is dropped; otherwise
      mining restarted on the next queued block, or on the leftovers. */
  lemma BlockAddedStopFlag<Tx, Block>(c: Config<Block>, s: State<Tx, Block>, b: Block)
    requires c.miner && s.chain.Some?
    ensures var st := BlockAddedStep(c, s, b);
      && (st.next.stopMining <==> |s.pendingBlocks| <= 1 && s.pendingTxs == [])
      && (st.next.stopMining ==> st.next.started == s.started && st.next.pendingTxs == [])
      && (|s.pendingBlocks| > 1 ==>
            st.next.started == s.started + [s.pendingBlocks[1]] && st.next.pendingTxs == s.pendingTxs)
      && (|s.pendingBlocks| <= 1 && s.pendingTxs != [] ==>
            st.next.started == s.started + [PendingBlock(s.pendingTxs)] && st.next.pendingTxs == [])
  {
  }

  /** Two peers reporting a block while one block is queued: the second report
      finds the queue empty and is a no-op on it, not an error. */
  lemma BlockAddedTwice<Tx, Block>(c: Config<Block>, s: State<Tx, Block>, b1: Block, b2: Block)
    requires c.miner && s.chain.Some? && |s.pendingBlocks| == 1
    ensures var first := BlockAddedStep(c, s, b1);
      var second := BlockAddedStep(c, first.next, b2);
      && first.raised == None
      && second.raised == None
      && first.next.pendingBlocks == []
      && second.next.pendingBlocks == []
      && second.next.chain == Some(Chain(s.chain.value.difficulty, s.chain.value.blocks + [b1, b2]))
  {
    assert s.chain.value.blocks + [b1] + [b2] == s.chain.value.blocks + [b1, b2];
  }

  // ---------------------------------------------------------------- chain selection and access

  /** The first node of the network creates a genesis chain of one block. */
  lemma LoadChainWithoutPeers<Peer, Tx, Block>(c: Config<Block>, s: State<Tx, Block>)
    ensures var t := LoadChainStep<Peer, Tx, Block>(c, s, []);
      && t.chain == Some(Chain(c.difficulty, [c.genesis]))
      && |t.chain.value.blocks| == 1
      && t == s.(chain := t.chain)
  {
  }

  /** Otherwise the first candidate's block list is adopted, whatever the other
      candidates hold and however long their chains are. */
  lemma LoadChainAdoptsFirst<Peer, Tx, Block>(c: Config<Block>, s: State<Tx, Block>, first: (Peer, seq<Block>), rest: seq<(Peer, seq<Block>)>)
    ensures var t := LoadChainStep(c, s, [first] + rest);
      && t.chain == Some(Chain(c.difficulty, first.1))
      && t == LoadChainStep(c, s, [first])
      && t == s.(chain := t.chain)
  {
  }

  /** Called directly with no candidates, pick_honest_chain fails on the first
      entry after it has already replaced the chain by a fresh, empty one. */
  lemma PickHonestChainWithoutCandidates<Peer, Tx, Block>(c: Config<Block>, s: State<Tx, Block>)
    ensures var st := PickHonestChainStep<Peer, Tx, Block>(c, s, []);
      && st.raised == Some(IndexError)
      && st.next.chain == Some(Chain(c.difficulty, []))
  {
  }

  lemma GetBlocksOutcome<Tx, Block>(s: State<Tx, Block>)
    ensures GetBlocksResult(s) == Err(ChainNotCreatedException) <==> s.chain.None?
    ensures s.chain.Some? ==> GetBlocksResult(s) == Ok(s.chain.value.blocks)
  {
  }

  // ---------------------------------------------------------------- the invariant

  lemma InitialInv<Tx, Block>()
    ensures Inv(Initial<Tx, Block>())
  {
  }

  lemma MinePreservesInv<Tx, Block>(c: Config<Block>, s: State<Tx, Block>)
    requires Inv(s)
    ensures Inv(MineStep(c, s).next)
  {
  }

  lemma AddTransactionPreservesInv<Tx, Block>(c: Config<Block>, s: State<Tx, Block>, tx: Tx)
    requires Inv(s)
    ensures Inv(AddTransactionStep(c, s, tx).next)
    ensures |AddTransactionStep(c, s, tx).next.pendingTxs| <= BatchThreshold
  {
    if c.miner && |s.pendingTxs| + 1 > BatchThreshold {
      var batched := s.(pendingTxs := [], pendingBlocks := s.pendingBlocks + [PendingBlock(s.pendingTxs + [tx])]);
      assert Inv(batched);
      MinePreservesInv(c, batched);
    }
  }

  /** Dropping the head of a queue of full batches leaves a queue of full batches. */
  lemma DropHeadPreservesInv<Tx, Block>(s: State<Tx, Block>)
    requires Inv(s) && |s.pendingBlocks| > 0
    ensures Inv(s.(pendingBlocks := s.pendingBlocks[1..]))
  {
    forall i | 0 <= i < |s.pendingBlocks| - 1
      ensures |s.pendingBlocks[1..][i].txs| == BatchThreshold + 1
    {
      assert s.pendingBlocks[1..][i] == s.pendingBlocks[i + 1];
    }
  }

  lemma BlockFoundPreservesInv<Tx, Block>(c: Config<Block>, s: State<Tx, Block>)
    requires Inv(s)
    ensures Inv(BlockFoundStep(c, s).next)
  {
    if |s.pendingBlocks| > 0 {
      DropHeadPreservesInv(s);
      MinePreservesInv(c, s.(pendingBlocks := s.pendingBlocks[1..]));
    } else if |s.pendingTxs| > 0 {
      MinePreservesInv(c, s.(pendingTxs := []));
    } else {
      MinePreservesInv(c, s);
    }
  }

  lemma BlockAddedPreservesInv<Tx, Block>(c: Config<Block>, s: State<Tx, Block>, b: Block)
    requires Inv(s)
    ensures Inv(BlockAddedStep(c, s, b).next)
  {
    if s.chain.Some? && c.miner {
      var appended := s.(chain := Some(s.chain.value.(blocks := s.chain.value.blocks + [b])), stopMining := true);
      if |s.pendingBlocks| > 0 {
        DropHeadPreservesInv(appended);
        MinePreservesInv(c, appended.(pendingBlocks := s.pendingBlocks[1..]));
      } else {
        MinePreservesInv(c, appended);
      }
    }
  }

  lemma LoadChainPreservesInv<Peer, Tx, Block>(c: Config<Block>, s: State<Tx, Block>, nodesChains: seq<(Peer, seq<Block>)>)
    requires Inv(s)
    ensures Inv(LoadChainStep(c, s, nodesChains))
  {
  }

  /** Whatever the environment does, in whatever order, the invariant holds. */
  lemma {:induction false} RunPreservesInv<Tx, Block>(c: Config<Block>, s: State<Tx, Block>, trace: seq<Event<Tx, Block>>)
    requires Inv(s)
    ensures Inv(Run(c, s, trace))
    decreases |trace|
  {
    if trace != [] {
      var next := Apply(c, s, trace[0]).next;
      match trace[0] {
        case Submit(tx) => AddTransactionPreservesInv(c, s, tx);
        case Found => BlockFoundPreservesInv(c, s);
        case Added(b) => BlockAddedPreservesInv(c, s, b);
      }
      RunPreservesInv(c, next, trace[1..]);
    }
  }

  // ---------------------------------------------------------------- runs of submissions

  lemma {:induction false} SubmitAllSplit<Tx, Block>(c: Config<Block>, s: State<Tx, Block>, a: seq<Tx>, b: seq<Tx>)
    ensures SubmitAll(c, s, a + b) == SubmitAll(c, SubmitAll(c, s, a), b)
    decreases |a|
  {
    if a == [] {
      assert a + b == b;
    } else {
      assert (a + b)[0] == a[0];
      assert (a + b)[1..] == a[1..] + b;
      SubmitAllSplit(c, AddTransactionStep(c, s, a[0]).next, a[1..], b);
    }
  }

  /** Up to the threshold, submissions only collect, in order. */
  lemma {:induction false} SubmitBelowThreshold<Tx, Block>(c: Config<Block>, s: State<Tx, Block>, txs: seq<Tx>)
    requires c.miner && |s.pendingTxs| + |txs| <= BatchThreshold
    ensures SubmitAll(c, s, txs) == s.(pendingTxs := s.pendingTxs + txs)
    decreases |txs|
  {
    if txs == [] {
      assert s.pendingTxs + txs == s.pendingTxs;
    } else {
      var s1 := s.(pendingTxs := s.pendingTxs + [txs[0]]);
      assert AddTransactionStep(c, s, txs[0]).next == s1;
      SubmitBelowThreshold(c, s1, txs[1..]);
      assert s1.pendingTxs + txs[1..] == s.pendingTxs + txs;
    }
  }

  /** Eleven submissions to an idle miner form exactly one pending block holding
      all eleven in order, hand it to the miner, and leave nothing loose. */
  lemma ElevenSubmissions<Tx, Block>(c: Config<Block>, s: State<Tx, Block>, txs: seq<Tx>)
    requires c.miner && s.pendingTxs == [] && s.pendingBlocks == []
    requires |txs| == BatchThreshold + 1
    ensures var t := SubmitAll(c, s, txs);
      && t.pendingBlocks == [PendingBlock(txs)]
      && t.pendingTxs == []
      && t.started == s.started + (if s.chain.Some? then [PendingBlock(txs)] else [])
      && !t.stopMining
      && t.chain == s.chain
      && t.notified == s.notified
  {
    var first, last := txs[..BatchThreshold], txs[BatchThreshold..];
    assert txs == first + last;
    SubmitAllSplit(c, s, first, last);
    SubmitBelowThreshold(c, s, first);
    var s10 := s.(pendingTxs := first);
    assert s.pendingTxs + first == first;
    assert SubmitAll(c, s, first) == s10;
    assert last == [txs[BatchThreshold]] && last[1..] == [];
    assert first + [txs[BatchThreshold]] == txs;
    var t := AddTransactionStep(c, s10, txs[BatchThreshold]).next;
    assert t == s.(pendingBlocks := [PendingBlock(txs)], stopMining := false,
                   started := s.started + (if s.chain.Some? then [PendingBlock(txs)] else []));
    assert SubmitAll(c, s10, last) == SubmitAll(c, t, []) == t;
    assert SubmitAll(c, s, txs) == SubmitAll(c, s10, last);
  }

  /** A miner keeps every submitted transaction waiting, in arrival order,
      behind those already waiting. */
  lemma {:induction false} SubmitAllKeepsArrivalOrder<Tx, Block>(c: Config<Block>, s: State<Tx, Block>, txs: seq<Tx>)
    requires c.miner
    ensures Queued(SubmitAll(c, s, txs)) == Queued(s) + txs
    decreases |txs|
  {
    if txs == [] {
      assert Queued(s) + txs == Queued(s);
    } else {
      var s1 := AddTransactionStep(c, s, txs[0]).next;
      AddTransactionKeepsArrivalOrder(c, s, txs[0]);
      SubmitAllKeepsArrivalOrder(c, s1, txs[1..]);
      assert Queued(s) + [txs[0]] + txs[1..] == Queued(s) + txs;
    }
  }
}
