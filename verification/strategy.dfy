/**
 * The event loop of the sandwich strategy. At start-up the pools whose two
 * tokens are both known are indexed by address. A new block drops the
 * transactions it confirmed and the ones admitted three or more blocks ago,
 * with their promising sandwiches. A pending transaction that is priced at
 * or above the base fee (or, for other transaction types, was not seen
 * before and has no receipt) and swaps on a known pair with a main currency
 * is admitted, served by the appetizer, and then the main dish builds
 * bundles out of everything promising.
 */
module Strategy {
  import opened Eth
  import opened Wrappers
  import opened Utils
  import opened Streams
  import opened Evm
  import opened Simulation
  import opened MainDish
  import Pools
  import Tokens
  import Appetizer

  // ---------------------------------------------------------------------------
  // Start-up: the pools the strategy watches
  // ---------------------------------------------------------------------------

  /** Both tokens of the pool are in the token map. */
  predicate Known(p: Pools.Pool, tokensMap: map<Address, Tokens.Token>) {
    p.token0 in tokensMap && p.token1 in tokensMap
  }

  /** The pools whose two tokens are known, in their original order. */
  function FilterPools(pools: seq<Pools.Pool>, tokensMap: map<Address, Tokens.Token>): (r: seq<Pools.Pool>)
    ensures |r| <= |pools|
    ensures forall k :: 0 <= k < |r| ==> Known(r[k], tokensMap)
  {
    if pools == [] then []
    else
      var last := pools[|pools| - 1];
      FilterPools(pools[..|pools| - 1], tokensMap) + (if Known(last, tokensMap) then [last] else [])
  }

  /** A pool is kept exactly when it is listed and both of its tokens are known. */
  lemma {:induction false} FilterPoolsMembers(pools: seq<Pools.Pool>, tokensMap: map<Address, Tokens.Token>, p: Pools.Pool)
    ensures p in FilterPools(pools, tokensMap) <==> p in pools && Known(p, tokensMap)
  {
    if pools != [] {
      var init := pools[..|pools| - 1];
      FilterPoolsMembers(init, tokensMap, p);
      assert pools == init + [pools[|pools| - 1]];
    }
  }

  /** Filtering keeps the order: filtering a concatenation concatenates the filtered parts. */
  lemma {:induction false} FilterPoolsAppend(xs: seq<Pools.Pool>, ys: seq<Pools.Pool>, tokensMap: map<Address, Tokens.Token>)
    ensures FilterPools(xs + ys, tokensMap) == FilterPools(xs, tokensMap) + FilterPools(ys, tokensMap)
  {
    if ys == [] {
      assert xs + ys == xs;
    } else {
      var yinit := ys[..|ys| - 1];
      FilterPoolsAppend(xs, yinit, tokensMap);
      assert (xs + ys)[..|xs + ys| - 1] == xs + yinit;
      assert (xs + ys)[|xs + ys| - 1] == ys[|ys| - 1];
    }
  }

  /** The pools indexed by address; a later pool with the same address replaces an earlier one. */
  function PoolsMap(pools: seq<Pools.Pool>): (m: map<Address, Pools.Pool>)
    ensures forall a :: a in m ==> m[a].address == a
    ensures forall k :: 0 <= k < |pools| ==> pools[k].address in m
  {
    if pools == [] then map[]
    else
      var last := pools[|pools| - 1];
      PoolsMap(pools[..|pools| - 1])[last.address := last]
  }

  /** Every indexed pool is one of the listed pools. */
  lemma {:induction false} PoolsMapValues(pools: seq<Pools.Pool>, a: Address)
    requires a in PoolsMap(pools)
    ensures PoolsMap(pools)[a] in pools
  {
    var init := pools[..|pools| - 1];
    if a != pools[|pools| - 1].address {
      PoolsMapValues(init, a);
    }
  }

  /** The pool indexed under an address is the last listed pool with that address. */
  lemma {:induction false} PoolsMapLast(pools: seq<Pools.Pool>, i: nat)
    requires i < |pools|
    requires forall j :: i < j < |pools| ==> pools[j].address != pools[i].address
    ensures PoolsMap(pools)[pools[i].address] == pools[i]
  {
    var init := pools[..|pools| - 1];
    if i < |pools| - 1 {
      PoolsMapLast(init, i);
    }
  }

  /** The watched pools: only known-token pools, each under its own address. */
  predicate Watched(poolsMap: map<Address, Pools.Pool>, tokensMap: map<Address, Tokens.Token>) {
    forall a :: a in poolsMap ==> poolsMap[a].address == a && Known(poolsMap[a], tokensMap)
  }

  /** The start-up index watches only pools whose tokens are both known. */
  lemma StartupWatched(pools: seq<Pools.Pool>, tokensMap: map<Address, Tokens.Token>)
    ensures Watched(PoolsMap(FilterPools(pools, tokensMap)), tokensMap)
  {
    var kept := FilterPools(pools, tokensMap);
    forall a | a in PoolsMap(kept) ensures Known(PoolsMap(kept)[a], tokensMap) {
      PoolsMapValues(kept, a);
    }
  }

  // ---------------------------------------------------------------------------
  // Admission of a pending transaction
  // ---------------------------------------------------------------------------

  /** The outcome of asking the node for a transaction's receipt. */
  datatype ReceiptLookup = Confirmed | NotFound | LookupFailed

  /**
   * Whether a pending transaction is traced, and the gas price the victim is
   * replayed with. Only a transaction not seen before is looked up, and only
   * a missing receipt admits it; but a legacy (type 0) or EIP-1559 (type 2)
   * transaction is then decided by its price alone: the gas price, or the
   * maximum fee per gas, against the current base fee. Other types keep the
   * lookup's verdict and are replayed at gas price 0.
   */
  function Admission(tx: Transaction, alreadyReceived: bool, receipt: ReceiptLookup, baseFee: nat): (r: (bool, nat))
    ensures tx.transactionType == Some(0) ==> r.1 == tx.gasPrice.GetOr(0)
    ensures tx.transactionType == Some(2) ==> r.1 == tx.maxFeePerGas.GetOr(0)
    ensures tx.transactionType in {Some(0), Some(2)} ==> (r.0 <==> r.1 >= baseFee)
    ensures tx.transactionType !in {Some(0), Some(2)} ==>
              r.1 == 0 && (r.0 <==> !alreadyReceived && receipt == NotFound)
  {
    var unseen := !alreadyReceived && receipt == NotFound;
    match tx.transactionType
    case Some(t) =>
      if t == 0 then (tx.gasPrice.GetOr(0) >= baseFee, tx.gasPrice.GetOr(0))
      else if t == 2 then (tx.maxFeePerGas.GetOr(0) >= baseFee, tx.maxFeePerGas.GetOr(0))
      else (unseen, 0)
    case None => (unseen, 0)
  }

  /**
   * For a legacy or EIP-1559 transaction neither an earlier sighting nor a
   * receipt matters: a transaction seen twice, or already confirmed, is
   * admitted again when its price covers the base fee.
   */
  lemma AdmissionByPrice(tx: Transaction, a1: bool, r1: ReceiptLookup, a2: bool, r2: ReceiptLookup, baseFee: nat)
    requires tx.transactionType in {Some(0), Some(2)}
    ensures Admission(tx, a1, r1, baseFee) == Admission(tx, a2, r2, baseFee)
  {
  }

  /** An admitted transaction is either priced at or above the base fee, or untyped-priced, new and unconfirmed. */
  lemma AdmittedPriced(tx: Transaction, alreadyReceived: bool, receipt: ReceiptLookup, baseFee: nat)
    requires Admission(tx, alreadyReceived, receipt, baseFee).0
    ensures Admission(tx, alreadyReceived, receipt, baseFee).1 >= baseFee
            || (!alreadyReceived && receipt == NotFound && Admission(tx, alreadyReceived, receipt, baseFee).1 == 0)
  {
  }

  /** The swaps `extract_swap_info` reports for a trace (none when tracing failed). */
  function SwapsOf(trace: Option<CallFrame>, poolsMap: map<Address, Pools.Pool>, txHash: Hash): seq<SwapInfo> {
    if trace.None? then [] else SwapsIn(FrameLogs(trace.value), poolsMap, txHash)
  }

  /** Every reported swap is on a watched pair and funded by a main currency. */
  predicate SwapsOnWatched(swaps: seq<SwapInfo>, poolsMap: map<Address, Pools.Pool>) {
    forall k :: 0 <= k < |swaps| ==> IsMainCurrency(swaps[k].mainCurrency) && swaps[k].targetPair in poolsMap
  }

  lemma SwapsOfWatched(trace: Option<CallFrame>, poolsMap: map<Address, Pools.Pool>, txHash: Hash)
    ensures SwapsOnWatched(SwapsOf(trace, poolsMap, txHash), poolsMap)
  {
    if trace.Some? {
      var logs := FrameLogs(trace.value);
      var swaps := SwapsIn(logs, poolsMap, txHash);
      forall k | 0 <= k < |swaps| ensures IsMainCurrency(swaps[k].mainCurrency) && swaps[k].targetPair in poolsMap {
        SwapsInSound(logs, poolsMap, txHash, k);
      }
    }
  }

  // ---------------------------------------------------------------------------
  // New blocks
  // ---------------------------------------------------------------------------

  /** Admitted fewer than three blocks before `blockNumber`. */
  predicate Young(info: PendingTxInfo, blockNumber: nat) {
    info.pendingTx.addedBlock.Some? && blockNumber < info.pendingTx.addedBlock.value + 3
  }

  /** The pending transactions that survive a block: not confirmed by it, and young. */
  function Surviving(pending: map<Hash, PendingTxInfo>, confirmed: seq<Hash>, blockNumber: nat)
    : map<Hash, PendingTxInfo>
  {
    map h | h in pending && h !in confirmed && Young(pending[h], blockNumber) :: pending[h]
  }

  /**
   * A transaction admitted at block `b` and not confirmed survives the
   * blocks `b`, `b + 1` and `b + 2` and is dropped from `b + 3` on.
   */
  lemma SurvivingLifetime(pending: map<Hash, PendingTxInfo>, confirmed: seq<Hash>, blockNumber: nat, h: Hash, b: nat)
    requires h in pending && h !in confirmed && pending[h].pendingTx.addedBlock == Some(b) && b <= blockNumber
    ensures h in Surviving(pending, confirmed, blockNumber) <==> blockNumber - b < 3
  {
  }

  /** The entries of `m` whose keys are in `keys`. */
  function Restrict<V>(m: map<Hash, V>, keys: set<Hash>): (r: map<Hash, V>)
    ensures r.Keys == m.Keys * keys
    ensures forall h :: h in r ==> r[h] == m[h]
  {
    map h | h in m && h in keys :: m[h]
  }

  /**
   * What the strategy keeps consistent between events: every promising entry
   * belongs to a pending transaction and is servable; every pending
   * transaction was admitted at or before the current block and swaps only
   * on watched pairs with a main currency.
   */
  predicate Tracking(pending: map<Hash, PendingTxInfo>, promising: map<Hash, seq<Sandwich>>,
                     poolsMap: map<Address, Pools.Pool>, blockNumber: nat) {
    && promising.Keys <= pending.Keys
    && Servable(promising)
    && (forall h :: h in pending ==>
          && pending[h].pendingTx.addedBlock.Some?
          && pending[h].pendingTx.addedBlock.value <= blockNumber
          && SwapsOnWatched(pending[h].touchedPairs, poolsMap))
  }

  /**
   * The loop over a block's transactions: each one that is pending is
   * removed from the pending transactions and from the promising sandwiches.
   */
  method DropConfirmed(pending: map<Hash, PendingTxInfo>, promising: map<Hash, seq<Sandwich>>, confirmed: seq<Hash>)
    returns (pending': map<Hash, PendingTxInfo>, promising': map<Hash, seq<Sandwich>>)
    requires promising.Keys <= pending.Keys
    ensures pending' == map h | h in pending && h !in confirmed :: pending[h]
    ensures promising' == map h | h in promising && h !in confirmed :: promising[h]
  {
    pending', promising' := pending, promising;
    for i := 0 to |confirmed|
      invariant pending' == map h | h in pending && h !in confirmed[..i] :: pending[h]
      invariant promising' == map h | h in promising && h !in confirmed[..i] :: promising[h]
    {
      assert confirmed[..i + 1] == confirmed[..i] + [confirmed[i]];
      var h := confirmed[i];
      if h in pending' {
        pending' := pending' - {h};
        promising' := promising' - {h};
      }
    }
    assert confirmed[..|confirmed|] == confirmed;
  }

  /** A later block keeps the strategy's state consistent. */
  lemma BlockTracking(pending: map<Hash, PendingTxInfo>, promising: map<Hash, seq<Sandwich>>,
                      poolsMap: map<Address, Pools.Pool>, confirmed: seq<Hash>, blockNumber: nat, newBlockNumber: nat)
    requires Tracking(pending, promising, poolsMap, blockNumber) && blockNumber <= newBlockNumber
    ensures var surviving := Surviving(pending, confirmed, newBlockNumber);
            Tracking(surviving, Restrict(promising, surviving.Keys), poolsMap, newBlockNumber)
  {
  }

  /**
   * Admitting a transaction with its swaps at the current block, and
   * appending what the appetizer recorded for it, keeps the state consistent.
   */
  lemma AdmitTracking(pending: map<Hash, PendingTxInfo>, promising: map<Hash, seq<Sandwich>>,
                      poolsMap: map<Address, Pools.Pool>, blockNumber: nat, h: Hash, info: PendingTxInfo,
                      added: seq<Sandwich>, picked: seq<nat>, victimTx: VictimTx, simulate: Simulator)
    requires Tracking(pending, promising, poolsMap, blockNumber)
    requires info.pendingTx.addedBlock == Some(blockNumber) && SwapsOnWatched(info.touchedPairs, poolsMap)
    requires Appetizer.Tracked(added, picked, info.touchedPairs, victimTx, simulate, |info.touchedPairs|)
    ensures Tracking(pending[h := info],
                     if added == [] then promising else promising[h := Appetizer.Recorded(promising, h) + added],
                     poolsMap, blockNumber)
  {
    if added != [] {
      var before := Appetizer.Recorded(promising, h);
      var entry := before + added;
      forall k | 0 <= k < |entry|
        ensures entry[k].optimizedSandwich.Some? && IsMainCurrency(entry[k].swapInfo.mainCurrency)
      {
        if k >= |before| {
          var j := k - |before|;
          assert entry[k] == added[j];
          assert Appetizer.Promoted(added[j], info.touchedPairs[picked[j]], victimTx, simulate);
        }
      }
    }
  }

  // ---------------------------------------------------------------------------
  // The strategy state
  // ---------------------------------------------------------------------------

  /** The capacity of the history of simulated bundle ids. */
  const HISTORY_CAPACITY: nat := 30

  /** The bribe `main_dish` is called with: 99% of the revenue, in basis points. */
  const BRIBE_PCT: nat := 9900

  class SandwichStrategy {
    const tokensMap: map<Address, Tokens.Token>
    const poolsMap: map<Address, Pools.Pool>
    const history: BundleHistory
    var block: NewBlock
    var pendingTxs: map<Hash, PendingTxInfo>
    var promising: map<Hash, seq<Sandwich>>

    /**
     * Every promising entry belongs to a pending transaction and is
     * servable; every pending transaction was admitted at or before the
     * current block and swaps only on watched pairs with a main currency.
     */
    ghost predicate Valid()
      reads this, history
    {
      && history.Valid() && history.capacity == HISTORY_CAPACITY
      && Watched(poolsMap, tokensMap)
      && Tracking(pendingTxs, promising, poolsMap, block.blockNumber)
    }

    /**
     * Start-up: index the known-token pools, take the latest block with its
     * predicted next base fee, and start with nothing pending and an empty
     * history of capacity 30. `seed` is the random part of the fee prediction.
     */
    constructor(pools: seq<Pools.Pool>, tokensMap: map<Address, Tokens.Token>, blockNumber: nat, baseFee: nat,
                gasUsed: nat, gasLimit: nat, seed: nat)
      requires seed <= 8
      ensures Valid() && fresh(history)
      ensures this.tokensMap == tokensMap && poolsMap == PoolsMap(FilterPools(pools, tokensMap))
      ensures block == NewBlock(blockNumber, baseFee, NextBaseFee(gasUsed, gasLimit, baseFee, seed))
      ensures pendingTxs == map[] && promising == map[] && history.ids == []
    {
      StartupWatched(pools, tokensMap);
      this.tokensMap := tokensMap;
      poolsMap := PoolsMap(FilterPools(pools, tokensMap));
      history := new BundleHistory(HISTORY_CAPACITY);
      block := NewBlock(blockNumber, baseFee, NextBaseFee(gasUsed, gasLimit, baseFee, seed));
      pendingTxs := map[];
      promising := map[];
    }

    /**
     * A new block: remove each pending transaction it confirmed together
     * with its promising sandwiches, then keep only transactions admitted
     * fewer than three blocks ago and the promising entries of those that
     * remain. `confirmed` stands for the hashes of the block's transactions.
     */
    method OnBlock(newBlock: NewBlock, confirmed: seq<Hash>)
      requires Valid() && block.blockNumber <= newBlock.blockNumber
      modifies this
      ensures Valid()
      ensures block == newBlock
      ensures pendingTxs == Surviving(old(pendingTxs), confirmed, newBlock.blockNumber)
      ensures promising == Restrict(old(promising), pendingTxs.Keys)
    {
      var pending, kept := DropConfirmed(pendingTxs, promising, confirmed);
      pending := map h | h in pending && Young(pending[h], newBlock.blockNumber) :: pending[h];
      assert pending == Surviving(pendingTxs, confirmed, newBlock.blockNumber);
      BlockTracking(pendingTxs, promising, poolsMap, confirmed, block.blockNumber, newBlock.blockNumber);
      var promising' := map h | h in kept && h in pending :: kept[h];
      assert promising' == Restrict(promising, pending.Keys);
      pendingTxs, promising := pending, promising';
      block := newBlock;
    }

    /**
     * A pending transaction. It is traced only when admitted; when the
     * trace shows swaps on watched pairs it is recorded as pending at the
     * current block (replacing an earlier entry), the appetizer appends the
     * sandwiches it promotes, and if anything at all is promising the main
     * dish builds bundles with a 99% bribe. `receipt` stands for the
     * receipt lookup, `trace` for the trace of the transaction (`None` when
     * tracing failed), and the remaining parameters for what the two stages
     * query.
     */
    method OnPendingTx(ptx: NewPendingTx, receipt: ReceiptLookup, trace: Option<CallFrame>, simulate: Simulator,
                       debug: bool, owner: Address, botAddress: Address, balanceOf: Address -> Option<nat>,
                       score: Ingredient -> int)
      returns (bundles: seq<BundleOrder>, ghost picked: seq<nat>, ghost added: seq<Sandwich>,
               ghost order: seq<Hash>, ghost plate: seq<Ingredient>)
      requires Valid() && GasReported(simulate)
      modifies this, history
      ensures Valid()
      ensures block == old(block)
      ensures var h := ptx.tx.hash;
              var admission := Admission(ptx.tx, h in old(pendingTxs), receipt, block.baseFee);
              var swaps := if admission.0 then SwapsOf(trace, poolsMap, h) else [];
              && (swaps == [] ==>
                    pendingTxs == old(pendingTxs) && promising == old(promising)
                    && bundles == [] && history.ids == old(history.ids))
              && (swaps != [] ==>
                    && pendingTxs == old(pendingTxs)[h := PendingTxInfo(ptx.(addedBlock := Some(block.blockNumber)), swaps)]
                    && promising == (if added == [] then old(promising)
                                     else old(promising)[h := Appetizer.Recorded(old(promising), h) + added])
                    && Appetizer.Tracked(added, picked, swaps, Appetizer.VictimTxOf(h, ptx.tx, admission.1), simulate, |swaps|)
                    && Appetizer.Covers(picked, swaps, Appetizer.VictimTxOf(h, ptx.tx, admission.1), simulate, |swaps|)
                    && (promising == map[] ==> bundles == [] && history.ids == old(history.ids))
                    && (promising != map[] ==>
                          && Enumerates(order, promising)
                          && multiset(plate) == multiset(PlateOf(promising, order))
                          && Sorting.SortedBy(plate, Descending(score))
                          && Sorting.SameFilters(plate, PlateOf(promising, order), Descending(score))
                          && Funded(plate, BotBalances(debug, balanceOf))
                          && (history.ids, bundles)
                             == Run(old(history.ids), HISTORY_CAPACITY, Prefixes(plate, BotBalances(debug, balanceOf)),
                                    DishContext(block, BRIBE_PCT, pendingTxs, simulate, debug, owner, botAddress))))
    {
      var h := ptx.tx.hash;
      var admission := Admission(ptx.tx, h in pendingTxs, receipt, block.baseFee);
      var swaps: seq<SwapInfo> := [];
      if admission.0 {
        swaps := ExtractSwapInfo(trace, poolsMap, h);
      }
      bundles, picked, added, order, plate := [], [], [], [], [];
      if swaps != [] {
        SwapsOfWatched(trace, poolsMap, h);
        var info := PendingTxInfo(ptx.(addedBlock := Some(block.blockNumber)), swaps);
        var promising';
        promising', picked, added := Appetizer.Appetizer(h, admission.1, pendingTxs[h := info], simulate, promising);
        AdmitTracking(pendingTxs, promising, poolsMap, block.blockNumber, h, info, added, picked,
                      Appetizer.VictimTxOf(h, ptx.tx, admission.1), simulate);
        pendingTxs, promising := pendingTxs[h := info], promising';
        if promising != map[] {
          bundles, order, plate := MainDish.MainDish(history, debug, owner, botAddress, balanceOf, promising, score,
                                                     block, BRIBE_PCT, pendingTxs, simulate);
        }
      }
    }
  }
}
