/**
 * The first stage of the strategy for one victim transaction: for every
 * buy the victim makes on a known pair, probe a small sandwich, and if the
 * probe is profitable search for the best input amount; sandwiches with a
 * positive best revenue are recorded as promising under the victim's hash.
 */
module Appetizer {
  import opened Eth
  import opened Wrappers
  import opened Utils
  import opened Evm
  import opened Streams
  import opened Simulation

  /**
   * The victim as replayed in simulation: a contract creation is replayed
   * as a call to the zero address, and the gas price is the one the caller
   * computed for the victim.
   */
  function VictimTxOf(txHash: Hash, tx: Transaction, victimGasPrice: nat): (v: VictimTx)
    ensures v.txHash == txHash && v.from == tx.from && v.data == tx.input && v.value == tx.value
    ensures tx.to.Some? ==> v.to == tx.to.value
    ensures tx.to.None? ==> v.to == ZERO_ADDRESS
    ensures v.gasPrice == victimGasPrice && v.gasLimit == Some(tx.gas)
  {
    VictimTx(txHash, tx.from, tx.to.GetOr(ZERO_ADDRESS), tx.input, tx.value, victimGasPrice, Some(tx.gas))
  }

  /** The probe input: 0.01 WETH, otherwise ten whole units of the main currency. */
  function ProbeAmount(mainCurrency: Address): (r: nat)
    ensures r > 0
  {
    var decimals := CurrencyOf(mainCurrency).Decimals();
    if IsWeth(mainCurrency) then Pow(10, decimals - 2) else 10 * Pow(10, decimals)
  }

  /** The upper end of the search: 100 WETH, otherwise 300000 whole units of the main currency. */
  function Ceiling(mainCurrency: Address): (r: nat)
    ensures r > 0
  {
    var decimals := CurrencyOf(mainCurrency).Decimals();
    if IsWeth(mainCurrency) then 100 * Pow(10, 18) else 300000 * Pow(10, decimals)
  }

  /**
   * The probe is 0.01 WETH or 10 USDT/USDC, the ceiling 100 WETH or 300000
   * USDT/USDC, so the ceiling is ten thousand probes for WETH and thirty
   * thousand for the stablecoins, and the probe always lies in the searched range.
   */
  lemma ProbeAndCeiling(mainCurrency: Address)
    requires IsMainCurrency(mainCurrency)
    ensures IsWeth(mainCurrency) ==>
              ProbeAmount(mainCurrency) == 10_000_000_000_000_000
              && Ceiling(mainCurrency) == 100_000_000_000_000_000_000
              && Ceiling(mainCurrency) == 10_000 * ProbeAmount(mainCurrency)
    ensures !IsWeth(mainCurrency) ==>
              ProbeAmount(mainCurrency) == 10_000_000
              && Ceiling(mainCurrency) == 300_000_000_000
              && Ceiling(mainCurrency) == 30_000 * ProbeAmount(mainCurrency)
    ensures ProbeAmount(mainCurrency) < Ceiling(mainCurrency)
  {
    assert Pow(10, 6) == 1_000_000;
    assert Pow(10, 16) == 10_000_000_000_000_000;
    assert Pow(10, 18) == 100 * Pow(10, 16);
  }

  /** The sandwich that is probed first for a swap. */
  function Probe(info: SwapInfo, victimTx: VictimTx): (s: Sandwich)
    ensures s.swapInfo == info && s.victimTx == victimTx && s.optimizedSandwich.None?
    ensures s.amountIn == ProbeAmount(info.mainCurrency)
  {
    Sandwich(ProbeAmount(info.mainCurrency), info, victimTx, None)
  }

  /** The probe of a swap simulated without access lists, and its profit is positive. */
  predicate ProbeProfitable(simulate: Simulator, info: SwapInfo, victimTx: VictimTx) {
    var r := simulate(BatchSandwich([Probe(info, victimTx)]), None, None, None, None);
    r.Some? && r.value.profit > 0
  }

  /**
   * What a recorded sandwich is: the probe of a buy whose probe was
   * profitable, carrying the result of the search over `[0, ceiling]` with
   * the probe's access lists. That result is a simulated amount within the
   * ceiling with positive revenue, whose gas and calldata it reports, and no
   * amount of the first round of the search earns more.
   */
  predicate Promoted(s: Sandwich, info: SwapInfo, victimTx: VictimTx, simulate: Simulator) {
    var probe := simulate(BatchSandwich([Probe(info, victimTx)]), None, None, None, None);
    && info.direction == Buy && probe.Some? && probe.value.profit > 0
    && s.optimizedSandwich.Some?
    && s == Probe(info, victimTx).(optimizedSandwich := s.optimizedSandwich)
    && var opt := s.optimizedSandwich.value;
       var sim := SingleSim(simulate, Probe(info, victimTx), probe.value.frontAccessList, probe.value.backAccessList);
       var r := SimulateSandwich(sim, opt.amountIn);
       && opt.maxRevenue > 0
       && opt.amountIn <= Ceiling(info.mainCurrency)
       && opt.frontAccessList == probe.value.frontAccessList && opt.backAccessList == probe.value.backAccessList
       && r.revenue == opt.maxRevenue && r.frontGasUsed == opt.frontGasUsed && r.backGasUsed == opt.backGasUsed
       && r.frontCalldata == opt.frontCalldata && r.backCalldata == opt.backCalldata
       && forall a :: a in SampleSet(0, Ceiling(info.mainCurrency) / INTERVALS) ==> SimulateSandwich(sim, a).revenue <= opt.maxRevenue
  }

  /**
   * A swap the search has to record: a buy whose probe succeeds with a
   * positive profit, and where one of the eleven amounts of the first round
   * of the search, simulated with the probe's access lists, earns a positive
   * revenue.
   */
  predicate Recordable(info: SwapInfo, victimTx: VictimTx, simulate: Simulator) {
    var probe := simulate(BatchSandwich([Probe(info, victimTx)]), None, None, None, None);
    && info.direction == Buy && probe.Some? && probe.value.profit > 0
    && var sim := SingleSim(simulate, Probe(info, victimTx), probe.value.frontAccessList, probe.value.backAccessList);
       exists a :: a in SampleSet(0, Ceiling(info.mainCurrency) / INTERVALS) && SimulateSandwich(sim, a).revenue > 0
  }

  /** The first round of the search always runs: a tenth of the ceiling exceeds the tolerance. */
  lemma CeilingAboveTolerance(mainCurrency: Address)
    ensures Ceiling(mainCurrency) / INTERVALS > Tolerance(mainCurrency)
  {
    if IsWeth(mainCurrency) {
      assert Pow(10, 14) == 100_000_000_000_000;
      assert Pow(10, 18) == 10_000 * Pow(10, 14);
    } else {
      var p := Pow(10, CurrencyOf(mainCurrency).Decimals());
      assert Pow(10, 3) == 1000;
      assert Ceiling(mainCurrency) == 300000 * p && p >= 1;
    }
  }

  /** The sandwiches recorded under a hash, none if the hash is absent. */
  function Recorded(promising: map<Hash, seq<Sandwich>>, h: Hash): seq<Sandwich> {
    if h in promising then promising[h] else []
  }

  /** Appending one more sandwich to the entry of `h` extends what was appended so far. */
  lemma AppendStep(promising: map<Hash, seq<Sandwich>>, h: Hash, added: seq<Sandwich>, s: Sandwich)
    ensures var m := if added == [] then promising else promising[h := Recorded(promising, h) + added];
            m[h := Recorded(m, h) + [s]] == promising[h := Recorded(promising, h) + (added + [s])]
  {
    if added == [] {
      assert added + [s] == [s];
    } else {
      assert Recorded(promising, h) + added + [s] == Recorded(promising, h) + (added + [s]);
    }
  }

  /** Extending one entry leaves every other entry as it was and only lengthens that one. */
  lemma AppendedFrame(promising: map<Hash, seq<Sandwich>>, h: Hash, added: seq<Sandwich>)
    ensures var m := if added == [] then promising else promising[h := Recorded(promising, h) + added];
            && m.Keys <= promising.Keys + {h}
            && (forall g :: g in promising && g != h ==> g in m && m[g] == promising[g])
            && (h in promising ==> h in m && promising[h] <= m[h])
  {
  }

  /**
   * The loop body of `appetizer` for one swap: the sandwich to record, if
   * any. Sells, failed or unprofitable probes and searches that find no
   * revenue record nothing.
   */
  method Serve(swap: SwapInfo, victimTx: VictimTx, simulate: Simulator) returns (r: Option<Sandwich>)
    ensures swap.direction == Sell ==> r.None?
    ensures !ProbeProfitable(simulate, swap, victimTx) ==> r.None?
    ensures r.Some? ==> Promoted(r.value, swap, victimTx, simulate)
    ensures Recordable(swap, victimTx, simulate) ==> r.Some?
  {
    r := None;
    if swap.direction == Buy {
      var sandwich := Probe(swap, victimTx);
      var probe := simulate(BatchSandwich([sandwich]), None, None, None, None);
      if probe.Some? && probe.value.profit > 0 {
        var ceiling := Ceiling(swap.mainCurrency);
        var front, back := probe.value.frontAccessList, probe.value.backAccessList;
        var opt, optimized;
        ghost var sampled;
        opt, optimized, sampled := Optimize(sandwich, ceiling, front, back, SingleSim(simulate, sandwich, front, back));
        CeilingAboveTolerance(swap.mainCurrency);
        if opt.maxRevenue > 0 {
          r := Some(optimized);
        }
      }
    }
  }

  /**
   * `added[k]` was recorded for the swap at position `picked[k]`, the
   * positions ascend and lie below `bound`.
   */
  predicate Tracked(added: seq<Sandwich>, picked: seq<nat>, touched: seq<SwapInfo>, victimTx: VictimTx,
                    simulate: Simulator, bound: nat) {
    && |added| == |picked|
    && (forall k :: 0 <= k < |picked| ==> picked[k] < bound && picked[k] < |touched|)
    && (forall k :: 0 < k < |picked| ==> picked[k - 1] < picked[k])
    && (forall k :: 0 <= k < |picked| ==> Promoted(added[k], touched[picked[k]], victimTx, simulate))
  }

  lemma TrackedExtend(added: seq<Sandwich>, picked: seq<nat>, touched: seq<SwapInfo>, victimTx: VictimTx,
                      simulate: Simulator, i: nat, s: Sandwich)
    requires Tracked(added, picked, touched, victimTx, simulate, i)
    requires i < |touched| && Promoted(s, touched[i], victimTx, simulate)
    ensures Tracked(added + [s], picked + [i], touched, victimTx, simulate, i + 1)
  {
    var a, p := added + [s], picked + [i];
    forall k | 0 <= k < |p| ensures p[k] < i + 1 && p[k] < |touched| {
      if k < |picked| {
        assert p[k] == picked[k];
      }
    }
    forall k | 0 < k < |p| ensures p[k - 1] < p[k] {
      assert p[k - 1] == picked[k - 1];
      if k < |picked| {
        assert p[k] == picked[k];
      }
    }
    forall k | 0 <= k < |p| ensures Promoted(a[k], touched[p[k]], victimTx, simulate) {
      if k < |picked| {
        assert a[k] == added[k] && p[k] == picked[k];
      }
    }
  }

  /** Every swap below `bound` that has to be recorded was recorded. */
  predicate Covers(picked: seq<nat>, touched: seq<SwapInfo>, victimTx: VictimTx, simulate: Simulator, bound: nat) {
    forall j :: 0 <= j < bound && j < |touched| && Recordable(touched[j], victimTx, simulate) ==> j in picked
  }

  lemma CoversStep(picked: seq<nat>, touched: seq<SwapInfo>, victimTx: VictimTx, simulate: Simulator, i: nat,
                   taken: bool)
    requires Covers(picked, touched, victimTx, simulate, i) && i < |touched|
    requires Recordable(touched[i], victimTx, simulate) ==> taken
    ensures Covers(if taken then picked + [i] else picked, touched, victimTx, simulate, i + 1)
  {
  }

  /**
   * One iteration of `appetizer`: serve the swap at position `i` and, when
   * it yields a sandwich, append it to the victim's entry of `current`,
   * which holds what earlier iterations appended to `promising`.
   */
  method ServeAt(txHash: Hash, touched: seq<SwapInfo>, i: nat, victimTx: VictimTx, simulate: Simulator,
                 promising: map<Hash, seq<Sandwich>>, current: map<Hash, seq<Sandwich>>,
                 ghost picked: seq<nat>, ghost added: seq<Sandwich>)
    returns (next: map<Hash, seq<Sandwich>>, ghost picked': seq<nat>, ghost added': seq<Sandwich>)
    requires i < |touched|
    requires current == if added == [] then promising else promising[txHash := Recorded(promising, txHash) + added]
    requires Tracked(added, picked, touched, victimTx, simulate, i)
    requires Covers(picked, touched, victimTx, simulate, i)
    ensures next == if added' == [] then promising else promising[txHash := Recorded(promising, txHash) + added']
    ensures Tracked(added', picked', touched, victimTx, simulate, i + 1)
    ensures Covers(picked', touched, victimTx, simulate, i + 1)
  {
    var found := Serve(touched[i], victimTx, simulate);
    CoversStep(picked, touched, victimTx, simulate, i, found.Some?);
    next, picked', added' := current, picked, added;
    if found.Some? {
      AppendStep(promising, txHash, added, found.value);
      next := current[txHash := Recorded(current, txHash) + [found.value]];
      TrackedExtend(added, picked, touched, victimTx, simulate, i, found.value);
      picked', added' := picked + [i], added + [found.value];
    }
  }

  /**
   * `appetizer`: for each touched pair in order, skip sells; probe the buy
   * and skip it when the simulation fails or its profit is not positive;
   * search for the best input up to the ceiling with the probe's access
   * lists; when the best revenue is positive, append the sandwich (with the
   * search result attached) to the victim's entry, creating the entry if
   * needed. Entries of other transactions are left alone. `picked` is the
   * ascending list of positions in the touched pairs that were recorded.
   */
  method Appetizer(txHash: Hash, victimGasPrice: nat, pendingTxs: map<Hash, PendingTxInfo>,
                   simulate: Simulator, promising: map<Hash, seq<Sandwich>>)
    returns (promising': map<Hash, seq<Sandwich>>, ghost picked: seq<nat>, ghost added: seq<Sandwich>)
    requires txHash in pendingTxs
    ensures promising'.Keys <= promising.Keys + {txHash}
    ensures forall h :: h in promising && h != txHash ==> h in promising' && promising'[h] == promising[h]
    ensures txHash in promising ==> txHash in promising' && promising[txHash] <= promising'[txHash]
    ensures promising' == if added == [] then promising
                          else promising[txHash := Recorded(promising, txHash) + added]
    ensures var touched := pendingTxs[txHash].touchedPairs;
            var victimTx := VictimTxOf(txHash, pendingTxs[txHash].pendingTx.tx, victimGasPrice);
            Tracked(added, picked, touched, victimTx, simulate, |touched|)
    ensures var touched := pendingTxs[txHash].touchedPairs;
            var victimTx := VictimTxOf(txHash, pendingTxs[txHash].pendingTx.tx, victimGasPrice);
            Covers(picked, touched, victimTx, simulate, |touched|)
  {
    var info := pendingTxs[txHash];
    var victimTx := VictimTxOf(txHash, info.pendingTx.tx, victimGasPrice);
    var touched := info.touchedPairs;
    promising' := promising;
    picked, added := [], [];
    for i := 0 to |touched|
      invariant promising' == if added == [] then promising
                              else promising[txHash := Recorded(promising, txHash) + added]
      invariant Tracked(added, picked, touched, victimTx, simulate, i)
      invariant Covers(picked, touched, victimTx, simulate, i)
    {
      promising', picked, added := ServeAt(txHash, touched, i, victimTx, simulate, promising, promising', picked, added);
    }
    AppendedFrame(promising, txHash, added);
  }
}
