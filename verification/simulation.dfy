/**
 * The sandwich core: Uniswap V2 output amounts, reading swaps out of a
 * victim's call trace, the packed calldata of the front-run and back-run
 * transactions, bundle ids, and the grid search for the best input amount.
 * EVM simulation is an oracle (a function parameter).
 */
module Simulation {
  import opened Eth
  import opened Wrappers
  import opened Arith
  import opened Utils
  import opened Evm
  import opened Streams
  import Pools
  import BigEndian
  import Text
  import Sorting

  // ---------------------------------------------------------------------------
  // Data
  // ---------------------------------------------------------------------------

  datatype SwapDirection = Buy | Sell

  /** One swap of the victim on a known pair, seen from the main currency's side. */
  datatype SwapInfo = SwapInfo(
    txHash: Hash,
    targetPair: Address,
    mainCurrency: Address,
    targetToken: Address,
    version: nat,
    token0IsMain: bool,
    direction: SwapDirection)

  /** An EIP-2930 access list: addresses with storage keys. */
  datatype AccessList = AccessList(items: seq<(Address, seq<Hash>)>)

  datatype OptimizedSandwich = OptimizedSandwich(
    amountIn: nat,
    maxRevenue: nat,
    frontGasUsed: nat,
    backGasUsed: nat,
    frontAccessList: AccessList,
    backAccessList: AccessList,
    frontCalldata: Bytes,
    backCalldata: Bytes)

  datatype Sandwich = Sandwich(
    amountIn: nat,
    swapInfo: SwapInfo,
    victimTx: VictimTx,
    optimizedSandwich: Option<OptimizedSandwich>)

  datatype BatchSandwich = BatchSandwich(sandwiches: seq<Sandwich>)

  /** What one EVM simulation of a batch reports. */
  datatype SimulatedSandwich = SimulatedSandwich(
    revenue: I128,
    profit: I128,
    gasCost: I128,
    frontGasUsed: nat,
    backGasUsed: nat,
    frontAccessList: AccessList,
    backAccessList: AccessList,
    frontCalldata: Bytes,
    backCalldata: Bytes)

  /** A pending transaction and the swaps it makes on known pairs. */
  datatype PendingTxInfo = PendingTxInfo(pendingTx: NewPendingTx, touchedPairs: seq<SwapInfo>)

  // ---------------------------------------------------------------------------
  // Uniswap V2 output amount
  // ---------------------------------------------------------------------------

  /**
   * `get_v2_amount_out`: the constant-product output for `amountIn` after the
   * 0.3% fee, rounded down; 0 when the denominator is 0. Its exact value is
   * stated by `AmountOutIsFloor`.
   */
  function GetV2AmountOut(amountIn: nat, reserveIn: nat, reserveOut: nat): (r: nat)
    ensures r <= reserveOut
    ensures amountIn == 0 ==> r == 0
  {
    var amountInWithFee := amountIn * 997;
    var numerator := amountInWithFee * reserveOut;
    var denominator := reserveIn * 1000 + amountInWithFee;
    if denominator == 0 then 0
    else
      QuotientBelowReserve(amountInWithFee, reserveOut, reserveIn * 1000);
      numerator / denominator
  }

  lemma QuotientBelowReserve(fee: nat, reserveOut: nat, base: nat)
    requires 0 < base + fee
    ensures 0 <= fee * reserveOut / (base + fee) <= reserveOut
    ensures fee == 0 ==> fee * reserveOut / (base + fee) == 0
  {
    MulMonotone(reserveOut, fee, base + fee);
    FloorQuotient(fee * reserveOut, base + fee, reserveOut);
  }

  /**
   * The output is the largest amount whose price, at the fee-adjusted
   * marginal rate, the input covers: `out * den <= num < (out + 1) * den`.
   */
  lemma AmountOutIsFloor(amountIn: nat, reserveIn: nat, reserveOut: nat)
    ensures var out := GetV2AmountOut(amountIn, reserveIn, reserveOut);
            var num := amountIn * 997 * reserveOut;
            var den := reserveIn * 1000 + amountIn * 997;
            (den == 0 ==> out == 0) && (den > 0 ==> out * den <= num < (out + 1) * den)
  {
    var fee := amountIn * 997;
    var den := reserveIn * 1000 + fee;
    if den > 0 {
      MulMonotone(reserveOut, fee, den);
      FloorQuotient(fee * reserveOut, den, reserveOut);
    }
  }

  /**
   * The swap keeps the pool's constant product: after paying in `amountIn`
   * and taking out the computed amount, `reserveIn * reserveOut` has not
   * decreased.
   */
  lemma AmountOutKeepsProduct(amountIn: nat, reserveIn: nat, reserveOut: nat)
    ensures var out := GetV2AmountOut(amountIn, reserveIn, reserveOut);
            (reserveIn + amountIn) * (reserveOut - out) >= reserveIn * reserveOut
  {
    var out := GetV2AmountOut(amountIn, reserveIn, reserveOut);
    var fee := amountIn * 997;
    var den := reserveIn * 1000 + fee;
    if den > 0 {
      AmountOutIsFloor(amountIn, reserveIn, reserveOut);
      assert out * den <= fee * reserveOut;
      MulMonotone(out, 997 * (reserveIn + amountIn), den);
      assert 997 * (out * (reserveIn + amountIn)) <= 997 * (amountIn * reserveOut);
      MulCancel(997, out * (reserveIn + amountIn), amountIn * reserveOut);
      ProductKept(reserveIn, reserveOut, amountIn, out);
    }
  }

  lemma ProductKept(x: nat, y: nat, a: nat, out: nat)
    requires out <= y && out * (x + a) <= a * y
    ensures (x + a) * (y - out) >= x * y
  {
    assert (x + a) * (y - out) == (x + a) * y - (x + a) * out;
    assert (x + a) * y == x * y + a * y;
  }

  /** More input never buys less output from the same reserves. */
  lemma AmountOutMonotone(a1: nat, a2: nat, reserveIn: nat, reserveOut: nat)
    requires a1 <= a2
    ensures GetV2AmountOut(a1, reserveIn, reserveOut) <= GetV2AmountOut(a2, reserveIn, reserveOut)
  {
    var out1 := GetV2AmountOut(a1, reserveIn, reserveOut);
    var f1, f2 := a1 * 997, a2 * 997;
    var c := reserveIn * 1000;
    if c + f1 > 0 {
      AmountOutIsFloor(a1, reserveIn, reserveOut);
      AmountOutIsFloor(a2, reserveIn, reserveOut);
      MoreFeeCovers(f1, f2, c, reserveOut, out1);
      DivLowerBound(f2 * reserveOut, c + f2, out1);
    }
  }

  lemma MoreFeeCovers(f1: nat, f2: nat, c: nat, r: nat, q: nat)
    requires f1 <= f2 && q <= r && q * (c + f1) <= f1 * r
    ensures q * (c + f2) <= f2 * r
  {
    MulMonotone(f2 - f1, q, r);
    assert q * (c + f2) == q * (c + f1) + (f2 - f1) * q;
    assert f2 * r == f1 * r + (f2 - f1) * r;
  }

  // ---------------------------------------------------------------------------
  // Call traces and swap detection
  // ---------------------------------------------------------------------------

  /** A log emitted inside a traced call. */
  datatype CallLogFrame = CallLogFrame(address: Address, topics: Option<seq<Hash>>, data: Bytes)

  /** A node of a `callTracer` trace: its own logs, then its sub-calls in order. */
  datatype CallFrame = CallFrame(logs: seq<CallLogFrame>, calls: seq<CallFrame>)

  function Concat<T>(parts: seq<seq<T>>): seq<T> {
    if parts == [] then [] else Concat(parts[..|parts| - 1]) + parts[|parts| - 1]
  }

  /** The trace's logs in pre-order: a frame's own logs before those of its sub-calls. */
  function FrameLogs(f: CallFrame): seq<CallLogFrame>
    decreases f, 1
  {
    f.logs + Concat(ChildLogs(f))
  }

  /** The flattened logs of each sub-call, in call order. */
  function ChildLogs(f: CallFrame): seq<seq<CallLogFrame>>
    decreases f, 0
  {
    seq(|f.calls|, j requires 0 <= j < |f.calls| => FrameLogs(f.calls[j]))
  }

  /**
   * `extract_logs`: appends the frame's logs, then recurses into each
   * sub-call, all onto the same buffer.
   */
  method ExtractLogs(f: CallFrame, logs: seq<CallLogFrame>) returns (r: seq<CallLogFrame>)
    ensures r == logs + FrameLogs(f)
    decreases f
  {
    r := logs + f.logs;
    ghost var parts := ChildLogs(f);
    for i := 0 to |f.calls|
      invariant r == logs + f.logs + Concat(parts[..i])
    {
      r := ExtractLogs(f.calls[i], r);
      assert parts[..i + 1][..i] == parts[..i];
    }
    assert parts[..|f.calls|] == parts;
  }

  /**
   * Pre-order: the flattened logs of sub-call `i` sit, as one contiguous
   * block, right after the frame's own logs and those of sub-calls `0..i`.
   */
  lemma ChildLogsContiguous(f: CallFrame, i: nat)
    requires i < |f.calls|
    ensures var off := |f.logs| + |Concat(ChildLogs(f)[..i])|;
            var child := FrameLogs(f.calls[i]);
            off + |child| <= |FrameLogs(f)| && FrameLogs(f)[off..off + |child|] == child
  {
    ConcatSlice(f.logs, ChildLogs(f), i);
  }

  /** Part `i` sits in the concatenation right after the parts before it. */
  lemma ConcatSlice<T>(own: seq<T>, parts: seq<seq<T>>, i: nat)
    requires i < |parts|
    ensures var off := |own| + |Concat(parts[..i])|;
            off + |parts[i]| <= |own + Concat(parts)| && (own + Concat(parts))[off..off + |parts[i]|] == parts[i]
  {
    assert Concat(parts[..i + 1]) == Concat(parts[..i]) + parts[i] by {
      assert parts[..i + 1][..i] == parts[..i];
    }
    ConcatPrefix(parts, i + 1);
    SliceAfterPrefix(own, Concat(parts), Concat(parts[..i]), parts[i]);
  }

  lemma SliceAfterPrefix<T>(own: seq<T>, all: seq<T>, before: seq<T>, block: seq<T>)
    requires |before + block| <= |all| && all[..|before + block|] == before + block
    ensures (own + all)[|own| + |before|..|own| + |before| + |block|] == block
  {
    forall k | 0 <= k < |block|
      ensures (own + all)[|own| + |before| + k] == block[k]
    {
      assert all[|before| + k] == (before + block)[|before| + k];
    }
  }

  /** The concatenation of a prefix of the parts is a prefix of the concatenation. */
  lemma {:induction false} ConcatPrefix<T>(parts: seq<seq<T>>, j: nat)
    requires j <= |parts|
    ensures |Concat(parts[..j])| <= |Concat(parts)|
    ensures Concat(parts)[..|Concat(parts[..j])|] == Concat(parts[..j])
  {
    if j < |parts| {
      var init := parts[..|parts| - 1];
      assert init[..j] == parts[..j];
      ConcatPrefix(init, j);
    } else {
      assert parts[..j] == parts;
    }
  }

  /** The four selector bytes of the Uniswap V2 `Swap` event. */
  const V2_SWAP_SELECTOR: Bytes := [0xd7, 0x8a, 0xd9, 0x5f]
  /** `V2_SWAP_EVENT_ID`, the printed form the code compares against. */
  const V2_SWAP_EVENT_ID: string := "0xd78ad95f"

  /** `&format!("{:?}", topic)[0..10]`: "0x" and the first four bytes in hex. */
  function Selector(topic: Hash): (r: string)
    ensures |r| == 10
  {
    Text.DebugHex(topic)[..10]
  }

  lemma SwapSelectorHex()
    ensures V2_SWAP_EVENT_ID == "0x" + Text.Hex(V2_SWAP_SELECTOR)
  {
    assert Text.Hex([0x5f]) == "5f";
    assert Text.Hex([0xd9, 0x5f]) == "d9" + Text.Hex([0x5f]);
    assert Text.Hex([0x8a, 0xd9, 0x5f]) == "8a" + Text.Hex([0xd9, 0x5f]);
    assert Text.Hex(V2_SWAP_SELECTOR) == "d7" + Text.Hex([0x8a, 0xd9, 0x5f]);
  }

  /** The printed comparison is exactly a comparison of the first four bytes. */
  lemma SelectorMatches(topic: Hash)
    ensures Selector(topic) == V2_SWAP_EVENT_ID <==> topic[..4] == V2_SWAP_SELECTOR
  {
    Text.HexAppend(topic[..4], topic[4..]);
    assert topic == topic[..4] + topic[4..];
    assert Selector(topic) == "0x" + Text.Hex(topic[..4]);
    SwapSelectorHex();
    if Selector(topic) == V2_SWAP_EVENT_ID {
      assert Text.Hex(topic[..4]) == Selector(topic)[2..];
      Text.HexInjective(topic[..4], V2_SWAP_SELECTOR);
    }
  }

  /**
   * The `i`-th 32-byte word of a `Swap` event's data (amount0In, amount1In,
   * amount0Out, amount1Out), or 0 for all four when the data is too short to
   * decode.
   */
  function SwapWord(data: Bytes, i: nat): nat
    requires i < 4
  {
    if |data| >= 128 then BigEndian.Decode(data[32 * i..32 * i + 32]) else 0
  }

  /** Which way the victim trades, seen from the main currency. */
  function Direction(token0IsMain: bool, zeroForOne: bool): (d: SwapDirection)
    ensures d == Buy <==> zeroForOne == token0IsMain
  {
    if token0IsMain then (if zeroForOne then Buy else Sell)
    else (if zeroForOne then Sell else Buy)
  }

  /** The swap a log records, if it is a V2 `Swap` on a known pair holding a main currency. */
  function ClassifyLog(log: CallLogFrame, poolsMap: map<Address, Pools.Pool>, txHash: Hash)
    : (r: Option<SwapInfo>)
    ensures r.Some? <==>
              log.topics.Some? && |log.topics.value| > 1
              && log.topics.value[0][..4] == V2_SWAP_SELECTOR
              && log.address in poolsMap
              && MainAndTarget(poolsMap[log.address].token0, poolsMap[log.address].token1).Some?
    ensures r.Some? ==>
              var pool := poolsMap[log.address];
              var mt := MainAndTarget(pool.token0, pool.token1).value;
              var info := r.value;
              && info.txHash == txHash && info.targetPair == log.address && info.version == 2
              && info.mainCurrency == mt.0 && info.targetToken == mt.1
              && info.token0IsMain == (mt.0 == pool.token0)
              && (info.direction == Buy <==>
                    (SwapWord(log.data, 0) > 0 && SwapWord(log.data, 3) > 0) == info.token0IsMain)
  {
    match log.topics
    case None => None
    case Some(topics) =>
      if |topics| <= 1 then None
      else
        SelectorMatches(topics[0]);
        if Selector(topics[0]) != V2_SWAP_EVENT_ID then None
        else if log.address !in poolsMap then None
        else
          var pool := poolsMap[log.address];
          match MainAndTarget(pool.token0, pool.token1)
          case None => None
          case Some(mt) =>
            var token0IsMain := mt.0 == pool.token0;
            var zeroForOne := SwapWord(log.data, 0) > 0 && SwapWord(log.data, 3) > 0;
            Some(SwapInfo(txHash, log.address, mt.0, mt.1, 2, token0IsMain,
                          Direction(token0IsMain, zeroForOne)))
  }

  /** The swaps found in a sequence of logs, in log order. */
  function SwapsIn(logs: seq<CallLogFrame>, poolsMap: map<Address, Pools.Pool>, txHash: Hash)
    : seq<SwapInfo>
  {
    if logs == [] then []
    else
      SwapsIn(logs[..|logs| - 1], poolsMap, txHash)
      + match ClassifyLog(logs[|logs| - 1], poolsMap, txHash)
        case Some(info) => [info]
        case None => []
  }

  /** Every swap found comes from some log and is a V2 swap of the victim on a known pair. */
  lemma {:induction false} SwapsInSound(logs: seq<CallLogFrame>, poolsMap: map<Address, Pools.Pool>,
                                        txHash: Hash, k: nat)
    requires k < |SwapsIn(logs, poolsMap, txHash)|
    ensures exists i :: 0 <= i < |logs| && ClassifyLog(logs[i], poolsMap, txHash) == Some(SwapsIn(logs, poolsMap, txHash)[k])
    ensures var info := SwapsIn(logs, poolsMap, txHash)[k];
            info.txHash == txHash && info.version == 2 && info.targetPair in poolsMap
  {
    var init := logs[..|logs| - 1];
    var last := logs[|logs| - 1];
    if k < |SwapsIn(init, poolsMap, txHash)| {
      SwapsInSound(init, poolsMap, txHash, k);
      var i :| 0 <= i < |init| && ClassifyLog(init[i], poolsMap, txHash) == Some(SwapsIn(init, poolsMap, txHash)[k]);
      assert logs[i] == init[i];
    } else {
      assert ClassifyLog(last, poolsMap, txHash) == Some(SwapsIn(logs, poolsMap, txHash)[k]);
    }
  }

  /** Every log that classifies as a swap contributes it. */
  lemma {:induction false} SwapsInComplete(logs: seq<CallLogFrame>, poolsMap: map<Address, Pools.Pool>,
                                           txHash: Hash, i: nat)
    requires i < |logs| && ClassifyLog(logs[i], poolsMap, txHash).Some?
    ensures ClassifyLog(logs[i], poolsMap, txHash).value in SwapsIn(logs, poolsMap, txHash)
  {
    var init := logs[..|logs| - 1];
    if i < |logs| - 1 {
      assert init[i] == logs[i];
      SwapsInComplete(init, poolsMap, txHash, i);
    }
  }

  /**
   * `extract_swap_info` once the trace is in hand (`None` when tracing
   * failed): flatten the trace's logs and classify each one.
   */
  method ExtractSwapInfo(trace: Option<CallFrame>, poolsMap: map<Address, Pools.Pool>, txHash: Hash)
    returns (infos: seq<SwapInfo>)
    ensures trace.None? ==> infos == []
    ensures trace.Some? ==> infos == SwapsIn(FrameLogs(trace.value), poolsMap, txHash)
  {
    infos := [];
    if trace.None? {
      return;
    }
    var logs := ExtractLogs(trace.value, []);
    assert logs == FrameLogs(trace.value);
    for i := 0 to |logs|
      invariant infos == SwapsIn(logs[..i], poolsMap, txHash)
    {
      assert logs[..i + 1][..i] == logs[..i];
      var found := ClassifyLog(logs[i], poolsMap, txHash);
      if found.Some? {
        infos := infos + [found.value];
      }
    }
    assert logs[..|logs|] == logs;
  }

  // ---------------------------------------------------------------------------
  // Batch accessors
  // ---------------------------------------------------------------------------

  /** `victim_tx_hashes`: the victim of every sandwich, in batch order. */
  function VictimTxHashes(b: BatchSandwich): (r: seq<Hash>)
    ensures |r| == |b.sandwiches|
    ensures forall i :: 0 <= i < |r| ==> r[i] == b.sandwiches[i].victimTx.txHash
  {
    seq(|b.sandwiches|, i requires 0 <= i < |b.sandwiches| => b.sandwiches[i].victimTx.txHash)
  }

  /** `target_tokens`: the token bought by every sandwich, in batch order. */
  function TargetTokens(b: BatchSandwich): (r: seq<Address>)
    ensures |r| == |b.sandwiches|
    ensures forall i :: 0 <= i < |r| ==> r[i] == b.sandwiches[i].swapInfo.targetToken
  {
    seq(|b.sandwiches|, i requires 0 <= i < |b.sandwiches| => b.sandwiches[i].swapInfo.targetToken)
  }

  /** `target_v2_pairs`: the pairs of the version-2 sandwiches, in batch order. */
  function TargetV2Pairs(ss: seq<Sandwich>): (r: seq<Address>)
    ensures |r| <= |ss|
  {
    if ss == [] then []
    else
      var last := ss[|ss| - 1];
      TargetV2Pairs(ss[..|ss| - 1]) + (if last.swapInfo.version == 2 then [last.swapInfo.targetPair] else [])
  }

  /** A pair is listed iff some version-2 sandwich targets it. */
  lemma {:induction false} TargetV2PairsMembers(ss: seq<Sandwich>, pair: Address)
    ensures pair in TargetV2Pairs(ss) <==>
              exists i :: 0 <= i < |ss| && ss[i].swapInfo.version == 2 && ss[i].swapInfo.targetPair == pair
  {
    if ss != [] {
      var init := ss[..|ss| - 1];
      TargetV2PairsMembers(init, pair);
      if exists i :: 0 <= i < |init| && init[i].swapInfo.version == 2 && init[i].swapInfo.targetPair == pair {
        var i :| 0 <= i < |init| && init[i].swapInfo.version == 2 && init[i].swapInfo.targetPair == pair;
        assert ss[i] == init[i];
      }
      if exists i :: 0 <= i < |ss| && ss[i].swapInfo.version == 2 && ss[i].swapInfo.targetPair == pair {
        var i :| 0 <= i < |ss| && ss[i].swapInfo.version == 2 && ss[i].swapInfo.targetPair == pair;
        if i < |init| {
          assert init[i] == ss[i];
        }
      }
    }
  }

  /** When every sandwich is on a V2 pair (all the bot builds), every pair is listed, in order. */
  lemma {:induction false} TargetV2PairsAllV2(ss: seq<Sandwich>)
    requires forall i :: 0 <= i < |ss| ==> ss[i].swapInfo.version == 2
    ensures |TargetV2Pairs(ss)| == |ss|
    ensures forall i :: 0 <= i < |ss| ==> TargetV2Pairs(ss)[i] == ss[i].swapInfo.targetPair
  {
    if ss != [] {
      TargetV2PairsAllV2(ss[..|ss| - 1]);
    }
  }

  // ---------------------------------------------------------------------------
  // Packed calldata of the front-run and back-run transactions
  // ---------------------------------------------------------------------------

  /** Bytes per swap record: flag, pair, token in, amount in, amount out. */
  const RECORD_SIZE: nat := 105

  /** One swap instruction for the dispatch contract. */
  datatype SwapRecord = SwapRecord(zeroForOne: bool, pair: Address, tokenIn: Address,
                                   amountIn: nat, amountOut: nat)

  /**
   * `encode_packed` of one record: a 1-byte flag, the two addresses, and the
   * amounts as 32-byte big-endian words.
   */
  function EncodeRecord(r: SwapRecord): (b: Bytes)
    ensures |b| == RECORD_SIZE
  {
    [if r.zeroForOne then 1 else 0] + r.pair + r.tokenIn
    + BigEndian.Encode(r.amountIn, 32) + BigEndian.Encode(r.amountOut, 32)
  }

  function EncodeRecords(rs: seq<SwapRecord>): (b: Bytes)
    ensures |b| == RECORD_SIZE * |rs|
  {
    if rs == [] then [] else EncodeRecords(rs[..|rs| - 1]) + EncodeRecord(rs[|rs| - 1])
  }

  /** The whole calldata: the block number's low 8 bytes, then every record in order. */
  function Calldata(blockNumber: nat, rs: seq<SwapRecord>): (b: Bytes)
    ensures |b| == 8 + RECORD_SIZE * |rs|
  {
    BigEndian.Encode(blockNumber, 8) + EncodeRecords(rs)
  }

  /** Record `k` occupies bytes `8 + 105 k` up to `8 + 105 (k + 1)`. */
  lemma {:induction false} RecordAt(blockNumber: nat, rs: seq<SwapRecord>, k: nat)
    requires k < |rs|
    ensures 8 + RECORD_SIZE * (k + 1) <= |Calldata(blockNumber, rs)|
    ensures Calldata(blockNumber, rs)[8 + RECORD_SIZE * k..8 + RECORD_SIZE * (k + 1)] == EncodeRecord(rs[k])
  {
    RecordsAt(rs, k);
    var head := BigEndian.Encode(blockNumber, 8);
    var body := EncodeRecords(rs);
    assert Calldata(blockNumber, rs)[8 + RECORD_SIZE * k..8 + RECORD_SIZE * (k + 1)]
        == body[RECORD_SIZE * k..RECORD_SIZE * (k + 1)];
  }

  lemma {:induction false} RecordsAt(rs: seq<SwapRecord>, k: nat)
    requires k < |rs|
    ensures RECORD_SIZE * (k + 1) <= |EncodeRecords(rs)|
    ensures EncodeRecords(rs)[RECORD_SIZE * k..RECORD_SIZE * (k + 1)] == EncodeRecord(rs[k])
  {
    var init := rs[..|rs| - 1];
    if k < |rs| - 1 {
      RecordsAt(init, k);
      assert init[k] == rs[k];
      assert EncodeRecords(rs)[..|EncodeRecords(init)|] == EncodeRecords(init);
    } else {
      assert |EncodeRecords(init)| == RECORD_SIZE * k;
    }
  }

  // A reference decoder, used only to state the round trip.

  function DecodeRecord(b: Bytes): SwapRecord
    requires |b| == RECORD_SIZE
  {
    SwapRecord(b[0] != 0, b[1..21], b[21..41], BigEndian.Decode(b[41..73]), BigEndian.Decode(b[73..105]))
  }

  function DecodeRecords(b: Bytes): seq<SwapRecord>
    requires |b| % RECORD_SIZE == 0
  {
    if |b| == 0 then []
    else DecodeRecords(b[..|b| - RECORD_SIZE]) + [DecodeRecord(b[|b| - RECORD_SIZE..])]
  }

  /** Block number and records of a calldata buffer; `None` when the length is not `8 + 105 k`. */
  function DecodeCalldata(b: Bytes): Option<(nat, seq<SwapRecord>)> {
    if |b| < 8 || (|b| - 8) % RECORD_SIZE != 0 then None
    else Some((BigEndian.Decode(b[..8]), DecodeRecords(b[8..])))
  }

  /** The record as a `uint256` field keeps it: amounts reduced modulo 2^256. */
  function Truncated(r: SwapRecord): SwapRecord {
    r.(amountIn := r.amountIn % TWO_256, amountOut := r.amountOut % TWO_256)
  }

  /** Every record truncated, in order. */
  function TruncatedAll(rs: seq<SwapRecord>): (r: seq<SwapRecord>)
    ensures |r| == |rs| && forall i :: 0 <= i < |rs| ==> r[i] == Truncated(rs[i])
  {
    if rs == [] then [] else TruncatedAll(rs[..|rs| - 1]) + [Truncated(rs[|rs| - 1])]
  }

  lemma RecordRoundTrip(r: SwapRecord)
    ensures DecodeRecord(EncodeRecord(r)) == Truncated(r)
  {
    EncodeRecordSlices(r);
    DecodeWord(r.amountIn);
    DecodeWord(r.amountOut);
  }

  /** Where each field of a record sits in its 105 bytes. */
  lemma EncodeRecordSlices(r: SwapRecord)
    ensures var b := EncodeRecord(r);
            && b[0] == (if r.zeroForOne then 1 else 0)
            && b[1..21] == r.pair && b[21..41] == r.tokenIn
            && b[41..73] == BigEndian.Encode(r.amountIn, 32)
            && b[73..105] == BigEndian.Encode(r.amountOut, 32)
  {
    var b := EncodeRecord(r);
    var flag: Bytes := [if r.zeroForOne then 1 else 0];
    var x, y := BigEndian.Encode(r.amountIn, 32), BigEndian.Encode(r.amountOut, 32);
    var head := flag + r.pair;
    var front := head + r.tokenIn;
    assert b == flag + r.pair + (r.tokenIn + x + y);
    MiddleSlice(flag, r.pair, r.tokenIn + x + y);
    assert b == head + r.tokenIn + (x + y);
    MiddleSlice(head, r.tokenIn, x + y);
    assert b == front + x + y;
    MiddleSlice(front, x, y);
    assert b == front + x + y + [];
    MiddleSlice(front + x, y, []);
    assert b[0] == flag[0];
  }

  /** A 32-byte word decodes to its value modulo 2^256. */
  lemma DecodeWord(n: nat)
    ensures BigEndian.Decode(BigEndian.Encode(n, 32)) == n % TWO_256
  {
    BigEndian.DecodeEncode(n, 32);
    BigEndian.PowWidths();
  }

  /** The middle part of a concatenation is found at the length of the first. */
  lemma MiddleSlice(p: Bytes, m: Bytes, q: Bytes)
    ensures (p + m + q)[|p|..|p| + |m|] == m
  {
  }

  lemma {:induction false} RecordsRoundTrip(rs: seq<SwapRecord>)
    ensures |EncodeRecords(rs)| % RECORD_SIZE == 0
    ensures DecodeRecords(EncodeRecords(rs)) == TruncatedAll(rs)
  {
    DivModUnique(|EncodeRecords(rs)|, RECORD_SIZE, |rs|, 0);
    if rs != [] {
      var init := rs[..|rs| - 1];
      var b := EncodeRecords(rs);
      assert b[..|b| - RECORD_SIZE] == EncodeRecords(init);
      assert b[|b| - RECORD_SIZE..] == EncodeRecord(rs[|rs| - 1]);
      RecordsRoundTrip(init);
      RecordRoundTrip(rs[|rs| - 1]);
    }
  }

  /**
   * Decoding the calldata gives back the block number modulo 2^64 and every
   * record, in order, with its amounts modulo 2^256.
   */
  lemma CalldataRoundTrip(blockNumber: nat, rs: seq<SwapRecord>)
    ensures DecodeCalldata(Calldata(blockNumber, rs))
         == Some((blockNumber % TWO_64, TruncatedAll(rs)))
  {
    var b := Calldata(blockNumber, rs);
    var body := EncodeRecords(rs);
    assert b[..8] == BigEndian.Encode(blockNumber, 8);
    assert b[8..] == body;
    Arith.DivModUnique(|b| - 8, RECORD_SIZE, |rs|, 0);
    assert DecodeCalldata(b) == Some((BigEndian.Decode(b[..8]), DecodeRecords(body)));
    BigEndian.DecodeEncode(blockNumber, 8);
    BigEndian.PowWidths();
    RecordsRoundTrip(rs);
  }

  /** `checked_sub(1).unwrap_or(0)`: one less, but never below zero. */
  function SaturatingDec(n: nat): (r: nat)
    ensures n > 0 ==> r == n - 1
    ensures n == 0 ==> r == 0
  {
    if n > 0 then n - 1 else 0
  }

  /** Reserves of every version-2 pair the batch trades on are known (`.unwrap()` otherwise). */
  predicate HasReserves(ss: seq<Sandwich>, reserves: map<Address, (nat, nat)>) {
    forall i :: 0 <= i < |ss| && ss[i].swapInfo.version == 2 ==> ss[i].swapInfo.targetPair in reserves
  }

  /** The buy leg: main currency into the pair, `amount_in - 1` of it. */
  function FrontrunRecord(s: Sandwich, reserves: map<Address, (nat, nat)>): (r: SwapRecord)
    requires s.swapInfo.version == 2 ==> s.swapInfo.targetPair in reserves
    ensures r.zeroForOne == s.swapInfo.token0IsMain
    ensures r.pair == s.swapInfo.targetPair && r.tokenIn == s.swapInfo.mainCurrency
    ensures r.amountIn == SaturatingDec(s.amountIn)
    ensures s.swapInfo.version != 2 ==> r.amountOut == 0
    ensures s.swapInfo.version == 2 ==>
              var (r0, r1) := reserves[s.swapInfo.targetPair];
              r.amountOut == if r.zeroForOne then GetV2AmountOut(r.amountIn, r0, r1)
                             else GetV2AmountOut(r.amountIn, r1, r0)
  {
    var zeroForOne := s.swapInfo.token0IsMain;
    var amountIn := SaturatingDec(s.amountIn);
    var amountOut :=
      if s.swapInfo.version == 2 then
        var (r0, r1) := reserves[s.swapInfo.targetPair];
        var (reserveIn, reserveOut) := if zeroForOne then (r0, r1) else (r1, r0);
        GetV2AmountOut(amountIn, reserveIn, reserveOut)
      else 0;
    SwapRecord(zeroForOne, s.swapInfo.targetPair, s.swapInfo.mainCurrency, amountIn, amountOut)
  }

  /** The token balance held for a token: 0 when the map has no entry. */
  function BalanceOf(balances: map<Address, nat>, token: Address): nat {
    if token in balances then balances[token] else 0
  }

  /** The sell leg: the bought target token back into the pair, in the opposite direction. */
  function BackrunRecord(s: Sandwich, reserves: map<Address, (nat, nat)>, balances: map<Address, nat>)
    : (r: SwapRecord)
    requires s.swapInfo.version == 2 ==> s.swapInfo.targetPair in reserves
    ensures r.zeroForOne == !s.swapInfo.token0IsMain
    ensures r.pair == s.swapInfo.targetPair && r.tokenIn == s.swapInfo.targetToken
    ensures r.amountIn == SaturatingDec(BalanceOf(balances, s.swapInfo.targetToken))
    ensures s.swapInfo.version != 2 ==> r.amountOut == 0
    ensures s.swapInfo.version == 2 ==>
              var (r0, r1) := reserves[s.swapInfo.targetPair];
              r.amountOut == if r.zeroForOne then GetV2AmountOut(r.amountIn, r0, r1)
                             else GetV2AmountOut(r.amountIn, r1, r0)
  {
    var zeroForOne := s.swapInfo.token0IsMain;
    var amountIn := SaturatingDec(BalanceOf(balances, s.swapInfo.targetToken));
    var amountOut :=
      if s.swapInfo.version == 2 then
        var (r0, r1) := reserves[s.swapInfo.targetPair];
        var (reserveIn, reserveOut) := if zeroForOne then (r1, r0) else (r0, r1);
        GetV2AmountOut(amountIn, reserveIn, reserveOut)
      else 0;
    SwapRecord(!zeroForOne, s.swapInfo.targetPair, s.swapInfo.targetToken, amountIn, amountOut)
  }

  /**
   * The two legs of one sandwich trade the same pair in opposite directions,
   * and on a pair whose tokens are the main currency and the target, the back
   * leg sells what the front leg buys.
   */
  lemma LegsOpposite(s: Sandwich, reserves: map<Address, (nat, nat)>, balances: map<Address, nat>,
                     pool: Pools.Pool)
    requires s.swapInfo.version == 2 ==> s.swapInfo.targetPair in reserves
    requires s.swapInfo.token0IsMain ==> pool.token0 == s.swapInfo.mainCurrency && pool.token1 == s.swapInfo.targetToken
    requires !s.swapInfo.token0IsMain ==> pool.token1 == s.swapInfo.mainCurrency && pool.token0 == s.swapInfo.targetToken
    ensures var front := FrontrunRecord(s, reserves);
            var back := BackrunRecord(s, reserves, balances);
            && back.zeroForOne == !front.zeroForOne && back.pair == front.pair
            && front.tokenIn == (if front.zeroForOne then pool.token0 else pool.token1)
            && back.tokenIn == (if back.zeroForOne then pool.token0 else pool.token1)
  {
  }

  function FrontrunRecords(ss: seq<Sandwich>, reserves: map<Address, (nat, nat)>): (rs: seq<SwapRecord>)
    requires HasReserves(ss, reserves)
    ensures |rs| == |ss|
  {
    seq(|ss|, i requires 0 <= i < |ss| => FrontrunRecord(ss[i], reserves))
  }

  function BackrunRecords(ss: seq<Sandwich>, reserves: map<Address, (nat, nat)>,
                          balances: map<Address, nat>): (rs: seq<SwapRecord>)
    requires HasReserves(ss, reserves)
    ensures |rs| == |ss|
  {
    seq(|ss|, i requires 0 <= i < |ss| => BackrunRecord(ss[i], reserves, balances))
  }

  /** The victims of a batch, each hash once, at its first occurrence. */
  function UniqueVictims(ss: seq<Sandwich>): seq<VictimTx> {
    if ss == [] then []
    else
      var prev := UniqueVictims(ss[..|ss| - 1]);
      var v := ss[|ss| - 1].victimTx;
      if v.txHash in VictimHashSet(prev) then prev else prev + [v]
  }

  function VictimHashSet(vs: seq<VictimTx>): (r: set<Hash>)
    ensures forall h :: h in r <==> exists i :: 0 <= i < |vs| && vs[i].txHash == h
  {
    set i | 0 <= i < |vs| :: vs[i].txHash
  }

  lemma VictimHashSetAppend(vs: seq<VictimTx>, v: VictimTx)
    ensures VictimHashSet(vs + [v]) == VictimHashSet(vs) + {v.txHash}
  {
    var ws := vs + [v];
    forall h | h in VictimHashSet(vs)
      ensures h in VictimHashSet(ws)
    {
      var i :| 0 <= i < |vs| && vs[i].txHash == h;
      assert ws[i] == vs[i];
    }
    assert ws[|vs|] == v;
  }

  predicate DistinctHashes(vs: seq<VictimTx>) {
    forall a, b :: 0 <= a < b < |vs| ==> vs[a].txHash != vs[b].txHash
  }

  /** No victim hash is listed twice. */
  lemma {:induction false} UniqueVictimsDistinct(ss: seq<Sandwich>)
    ensures DistinctHashes(UniqueVictims(ss))
  {
    if ss != [] {
      var init := ss[..|ss| - 1];
      UniqueVictimsDistinct(init);
      var prev := UniqueVictims(init);
      var v := ss[|ss| - 1].victimTx;
      if v.txHash !in VictimHashSet(prev) {
        var u := prev + [v];
        assert UniqueVictims(ss) == u;
        forall a, b | 0 <= a < b < |u|
          ensures u[a].txHash != u[b].txHash
        {
          assert u[a] == prev[a];
          if b < |prev| {
            assert u[b] == prev[b];
          } else {
            assert u[b] == v;
            assert prev[a].txHash in VictimHashSet(prev);
          }
        }
      } else {
        assert UniqueVictims(ss) == prev;
      }
    }
  }

  /** The victim of every sandwich of the batch is listed. */
  lemma {:induction false} UniqueVictimsCover(ss: seq<Sandwich>)
    ensures forall i :: 0 <= i < |ss| ==> ss[i].victimTx.txHash in VictimHashSet(UniqueVictims(ss))
  {
    if ss != [] {
      var init := ss[..|ss| - 1];
      var v := ss[|ss| - 1].victimTx;
      UniqueVictimsCover(init);
      var prev := UniqueVictims(init);
      VictimHashSetAppend(prev, v);
      assert VictimHashSet(UniqueVictims(ss)) == VictimHashSet(prev) + {v.txHash};
      forall i | 0 <= i < |init|
        ensures ss[i].victimTx.txHash in VictimHashSet(UniqueVictims(ss))
      {
        assert ss[i] == init[i];
      }
    }
  }

  /** Only victims of the batch are listed. */
  lemma {:induction false} UniqueVictimsFromBatch(ss: seq<Sandwich>, a: nat)
    requires a < |UniqueVictims(ss)|
    ensures exists i :: 0 <= i < |ss| && ss[i].victimTx == UniqueVictims(ss)[a]
  {
    var init := ss[..|ss| - 1];
    var prev := UniqueVictims(init);
    if a < |prev| {
      UniqueVictimsFromBatch(init, a);
      var i :| 0 <= i < |init| && init[i].victimTx == prev[a];
      assert ss[i] == init[i];
    } else {
      assert ss[|ss| - 1].victimTx == UniqueVictims(ss)[a];
    }
  }

  /** The position in the batch at which each listed victim first occurs. */
  ghost function FirstIndices(ss: seq<Sandwich>): seq<nat> {
    if ss == [] then []
    else
      var init := ss[..|ss| - 1];
      FirstIndices(init)
      + (if ss[|ss| - 1].victimTx.txHash in VictimHashSet(UniqueVictims(init)) then [] else [|ss| - 1])
  }

  /** What it means for a victim to be listed at its first occurrence. */
  ghost predicate FirstSeen(ss: seq<Sandwich>, u: seq<VictimTx>, fi: seq<nat>) {
    && |fi| == |u|
    && (forall a :: 0 <= a < |u| ==> fi[a] < |ss| && u[a] == ss[fi[a]].victimTx)
    && (forall a, j :: 0 <= a < |u| && 0 <= j < fi[a] ==> ss[j].victimTx.txHash != u[a].txHash)
    && (forall a, b :: 0 <= a < b < |u| ==> fi[a] < fi[b])
  }

  /**
   * The victims are listed in the order of their first occurrence in the
   * batch: the `a`-th listed victim is the victim of sandwich `fi[a]`, no
   * earlier sandwich has its hash, and these positions ascend.
   */
  lemma {:induction false} UniqueVictimsFirstSeen(ss: seq<Sandwich>)
    ensures FirstSeen(ss, UniqueVictims(ss), FirstIndices(ss))
  {
    if ss != [] {
      var n := |ss| - 1;
      var init := ss[..n];
      var v := ss[n].victimTx;
      UniqueVictimsFirstSeen(init);
      var prev, fi0 := UniqueVictims(init), FirstIndices(init);
      var u, fi := UniqueVictims(ss), FirstIndices(ss);
      forall a | 0 <= a < |prev| ensures fi[a] < |ss| && u[a] == ss[fi[a]].victimTx {
        assert fi[a] == fi0[a] && u[a] == prev[a];
        assert ss[fi0[a]] == init[fi0[a]];
      }
      forall a, j | 0 <= a < |prev| && 0 <= j < fi[a] ensures ss[j].victimTx.txHash != u[a].txHash {
        assert fi[a] == fi0[a] && u[a] == prev[a];
        assert ss[j] == init[j];
      }
      if v.txHash !in VictimHashSet(prev) {
        assert u == prev + [v] && fi == fi0 + [n];
        UniqueVictimsCover(init);
        forall j | 0 <= j < n ensures ss[j].victimTx.txHash != v.txHash {
          assert ss[j] == init[j];
        }
      }
    }
  }

  /** The amount a sandwich puts into its front-run, added to its main currency's total. */
  function McSums(ss: seq<Sandwich>): (m: map<Address, nat>)
  {
    if ss == [] then map[]
    else
      var prev := McSums(ss[..|ss| - 1]);
      var s := ss[|ss| - 1];
      var mc := s.swapInfo.mainCurrency;
      prev[mc := BalanceOf(prev, mc) + SaturatingDec(s.amountIn)]
  }

  /** The amounts the records of `rs` send in through `token`. */
  function RecordSum(rs: seq<SwapRecord>, token: Address): nat {
    if rs == [] then 0
    else RecordSum(rs[..|rs| - 1], token) + (if rs[|rs| - 1].tokenIn == token then rs[|rs| - 1].amountIn else 0)
  }

  lemma HasReservesPrefix(ss: seq<Sandwich>, reserves: map<Address, (nat, nat)>, n: nat)
    requires HasReserves(ss, reserves) && n <= |ss|
    ensures HasReserves(ss[..n], reserves)
  {
    forall i | 0 <= i < n && ss[..n][i].swapInfo.version == 2
      ensures ss[..n][i].swapInfo.targetPair in reserves
    {
      assert ss[..n][i] == ss[i];
    }
  }

  /** `starting_mc_values` has an entry for exactly the batch's main currencies. */
  lemma {:induction false} McSumsKeys(ss: seq<Sandwich>, token: Address)
    ensures token in McSums(ss) <==> exists i :: 0 <= i < |ss| && ss[i].swapInfo.mainCurrency == token
  {
    if ss != [] {
      var init := ss[..|ss| - 1];
      McSumsKeys(init, token);
      if exists i :: 0 <= i < |init| && init[i].swapInfo.mainCurrency == token {
        var i :| 0 <= i < |init| && init[i].swapInfo.mainCurrency == token;
        assert ss[i] == init[i];
      }
      if exists i :: 0 <= i < |ss| && ss[i].swapInfo.mainCurrency == token {
        var i :| 0 <= i < |ss| && ss[i].swapInfo.mainCurrency == token;
        if i < |init| {
          assert init[i] == ss[i];
        }
      }
    }
  }

  /** Each entry of `starting_mc_values` is what the front-run calldata spends in that currency. */
  lemma {:induction false} McSumsMatchCalldata(ss: seq<Sandwich>, reserves: map<Address, (nat, nat)>,
                                               token: Address)
    requires HasReserves(ss, reserves)
    ensures BalanceOf(McSums(ss), token) == RecordSum(FrontrunRecords(ss, reserves), token)
  {
    if ss != [] {
      var init := ss[..|ss| - 1];
      HasReservesPrefix(ss, reserves, |ss| - 1);
      McSumsMatchCalldata(init, reserves, token);
      var rs := FrontrunRecords(ss, reserves);
      assert rs[..|rs| - 1] == FrontrunRecords(init, reserves);
      assert rs[|rs| - 1] == FrontrunRecord(ss[|ss| - 1], reserves);
    }
  }

  /** `Tx::from` of every victim, in order. */
  function TxsFrom(vs: seq<VictimTx>): (r: seq<Tx>)
    ensures |r| == |vs|
  {
    seq(|vs|, k requires 0 <= k < |vs| => TxFrom(vs[k]))
  }

  lemma TxsFromAppend(vs: seq<VictimTx>, v: VictimTx)
    ensures TxsFrom(vs + [v]) == TxsFrom(vs) + [TxFrom(v)]
  {
  }

  /** Adds `amount` to the running total of `token`, starting a total for a token not seen yet. */
  function AddAmount(totals: map<Address, nat>, token: Address, amount: nat): (r: map<Address, nat>)
    ensures r == totals[token := BalanceOf(totals, token) + amount]
  {
    if token in totals then totals[token := totals[token] + amount] else totals[token := amount]
  }

  /** How the three front-run accumulators grow by one sandwich. */
  lemma FrontrunStep(ss: seq<Sandwich>, reserves: map<Address, (nat, nat)>, i: nat)
    requires HasReserves(ss, reserves) && i < |ss|
    ensures HasReserves(ss[..i], reserves)
    ensures FrontrunRecords(ss[..i + 1], reserves) == FrontrunRecords(ss[..i], reserves) + [FrontrunRecord(ss[i], reserves)]
    ensures var mc := ss[i].swapInfo.mainCurrency;
            McSums(ss[..i + 1]) == McSums(ss[..i])[mc := BalanceOf(McSums(ss[..i]), mc) + SaturatingDec(ss[i].amountIn)]
    ensures var prev := UniqueVictims(ss[..i]);
            UniqueVictims(ss[..i + 1])
            == if ss[i].victimTx.txHash in VictimHashSet(prev) then prev else prev + [ss[i].victimTx]
  {
    HasReservesPrefix(ss, reserves, i);
    assert ss[..i + 1][..i] == ss[..i];
  }

  /**
   * `encode_frontrun_tx`: the front-run calldata for the batch, the victim
   * transactions (each once, first occurrence first) and, per main currency,
   * the total amount the front-run spends.
   */
  method EncodeFrontrunTx(b: BatchSandwich, blockNumber: nat, reserves: map<Address, (nat, nat)>)
    returns (calldata: Bytes, victimTxs: seq<Tx>, startingMcValues: map<Address, nat>)
    requires HasReserves(b.sandwiches, reserves)
    ensures calldata == Calldata(blockNumber, FrontrunRecords(b.sandwiches, reserves))
    ensures victimTxs == TxsFrom(UniqueVictims(b.sandwiches))
    ensures startingMcValues == McSums(b.sandwiches)
  {
    var ss := b.sandwiches;
    startingMcValues := map[];
    var addedTxHash: set<Hash> := {};
    ghost var victims: seq<VictimTx> := [];
    victimTxs := [];
    var params: seq<SwapRecord> := [];
    for i := 0 to |ss|
      invariant victims == UniqueVictims(ss[..i])
      invariant addedTxHash == VictimHashSet(victims)
      invariant victimTxs == TxsFrom(victims)
      invariant startingMcValues == McSums(ss[..i])
      invariant params == FrontrunRecords(ss[..i], reserves)
    {
      var s := ss[i];
      FrontrunStep(ss, reserves, i);
      if s.victimTx.txHash !in addedTxHash {
        VictimHashSetAppend(victims, s.victimTx);
        TxsFromAppend(victims, s.victimTx);
        addedTxHash := addedTxHash + {s.victimTx.txHash};
        victims := victims + [s.victimTx];
        victimTxs := victimTxs + [TxFrom(s.victimTx)];
      }
      var newAmountIn := SaturatingDec(s.amountIn);
      var mainCurrency := s.swapInfo.mainCurrency;
      startingMcValues := AddAmount(startingMcValues, mainCurrency, newAmountIn);
      params := params + [FrontrunRecord(s, reserves)];
    }
    assert ss[..|ss|] == ss;
    calldata := Calldata(blockNumber, params);
  }

  /** `encode_backrun_tx`: the back-run calldata, selling each target token balance. */
  method EncodeBackrunTx(b: BatchSandwich, blockNumber: nat, reserves: map<Address, (nat, nat)>,
                         tokenBalances: map<Address, nat>)
    returns (calldata: Bytes)
    requires HasReserves(b.sandwiches, reserves)
    ensures calldata == Calldata(blockNumber, BackrunRecords(b.sandwiches, reserves, tokenBalances))
  {
    var ss := b.sandwiches;
    var params: seq<SwapRecord> := [];
    for i := 0 to |ss|
      invariant params == BackrunRecords(ss[..i], reserves, tokenBalances)
    {
      params := params + [BackrunRecord(ss[i], reserves, tokenBalances)];
    }
    assert ss[..|ss|] == ss;
    calldata := Calldata(blockNumber, params);
  }

  // ---------------------------------------------------------------------------
  // Bundle id
  // ---------------------------------------------------------------------------

  /** `&format!("{:?}", tx_hash)[0..10]`: "0x" and the hash's first four bytes in hex. */
  function HashPrefix(h: Hash): (r: string)
    ensures |r| == 10 && r[..2] == "0x"
  {
    Text.DebugHex(h)[..10]
  }

  function HashPrefixes(ss: seq<Sandwich>): (r: seq<string>)
    ensures |r| == |ss|
  {
    seq(|ss|, i requires 0 <= i < |ss| => HashPrefix(ss[i].victimTx.txHash))
  }

  /** The id of a batch: its distinct victim-hash prefixes in order, joined by "-". */
  function BundleIdOf(b: BatchSandwich): string {
    Text.Join(Sorting.SortedDistinct(HashPrefixes(b.sandwiches)), "-")
  }

  /** `bundle_id`: collect the prefixes, `sort`, `dedup` and `join("-")`. */
  method BundleId(b: BatchSandwich) returns (id: string)
    ensures id == BundleIdOf(b)
  {
    var ss := b.sandwiches;
    var txHashes: seq<string> := [];
    for i := 0 to |ss|
      invariant txHashes == HashPrefixes(ss)[..i]
    {
      txHashes := txHashes + [HashPrefix(ss[i].victimTx.txHash)];
    }
    assert txHashes == HashPrefixes(ss);
    var sorted := Sorting.SortStrings(txHashes);
    assert Sorting.Elements(sorted) == Sorting.Elements(txHashes) by {
      forall x ensures x in sorted <==> x in txHashes {
        assert x in sorted <==> x in multiset(sorted);
        assert x in txHashes <==> x in multiset(txHashes);
      }
    }
    var deduped := Sorting.Dedup(sorted);
    Sorting.SortedDistinctSorted(txHashes);
    Sorting.StrictlySortedUnique(deduped, Sorting.SortedDistinct(txHashes));
    id := Text.Join(deduped, "-");
  }

  /** The set of victim hashes of a batch. */
  function BatchHashes(b: BatchSandwich): set<Hash> {
    set i | 0 <= i < |b.sandwiches| :: b.sandwiches[i].victimTx.txHash
  }

  /**
   * The id depends only on which victims the batch holds: reordering the
   * sandwiches, or repeating a victim, gives the same id.
   */
  lemma BundleIdOrderIndependent(b1: BatchSandwich, b2: BatchSandwich)
    requires BatchHashes(b1) == BatchHashes(b2)
    ensures BundleIdOf(b1) == BundleIdOf(b2)
  {
    var p1, p2 := HashPrefixes(b1.sandwiches), HashPrefixes(b2.sandwiches);
    forall x | x in p1 ensures x in p2 {
      var i :| 0 <= i < |p1| && p1[i] == x;
      assert b1.sandwiches[i].victimTx.txHash in BatchHashes(b2);
      var j :| 0 <= j < |b2.sandwiches| && b2.sandwiches[j].victimTx.txHash == b1.sandwiches[i].victimTx.txHash;
      assert p2[j] == x;
    }
    forall x | x in p2 ensures x in p1 {
      var i :| 0 <= i < |p2| && p2[i] == x;
      assert b2.sandwiches[i].victimTx.txHash in BatchHashes(b1);
      var j :| 0 <= j < |b1.sandwiches| && b1.sandwiches[j].victimTx.txHash == b2.sandwiches[i].victimTx.txHash;
      assert p1[j] == x;
    }
    assert Sorting.Elements(p1) == Sorting.Elements(p2);
    Sorting.SortedDistinctOfSet(p1, p2);
  }

  // ---------------------------------------------------------------------------
  // Grid search for the best input amount
  // ---------------------------------------------------------------------------

  /**
   * `BatchSandwich::simulate` at a fixed block, base fee and maximum fee:
   * the EVM run of a batch with an optional owner, optional front and back
   * access lists and an optional bot address, `None` when the simulation
   * fails. Without an owner the simulated owner gets 100 ETH for gas, and
   * without a bot address a fresh bot is deployed for that owner and given
   * the batch's starting balances; otherwise the deployed bot runs with its
   * own balances.
   */
  type Simulator = (BatchSandwich, Option<Address>, Option<AccessList>, Option<AccessList>, Option<Address>)
                     -> Option<SimulatedSandwich>

  /** What `simulate_sandwich` hands to the simulator for each input amount. */
  function SingleSim(simulate: Simulator, s: Sandwich, front: AccessList, back: AccessList)
    : nat -> Option<SimulatedSandwich>
  {
    (a: nat) => simulate(BatchSandwich([s.(amountIn := a)]), None, Some(front), Some(back), None)
  }

  /** What `simulate_sandwich` reports for one input amount. */
  datatype SampleResult = SampleResult(amountIn: nat, revenue: I128, frontGasUsed: nat, backGasUsed: nat,
                                       frontCalldata: Bytes, backCalldata: Bytes)

  const NO_SAMPLE: SampleResult := SampleResult(0, 0, 0, 0, [], [])

  /**
   * `simulate_sandwich`: simulate the sandwich alone with the given input;
   * a failed simulation counts as zero revenue, no gas and empty calldata.
   * `sim` stands for the EVM simulation of the one-sandwich batch.
   */
  function SimulateSandwich(sim: nat -> Option<SimulatedSandwich>, amountIn: nat): (r: SampleResult)
    ensures r.amountIn == amountIn
    ensures sim(amountIn).None? ==> r == NO_SAMPLE.(amountIn := amountIn)
    ensures sim(amountIn).Some? ==>
              var x := sim(amountIn).value;
              r.revenue == x.revenue && r.frontGasUsed == x.frontGasUsed && r.backGasUsed == x.backGasUsed
              && r.frontCalldata == x.frontCalldata && r.backCalldata == x.backCalldata
  {
    match sim(amountIn)
    case None => SampleResult(amountIn, 0, 0, 0, [], [])
    case Some(x) => SampleResult(amountIn, x.revenue, x.frontGasUsed, x.backGasUsed, x.frontCalldata, x.backCalldata)
  }

  /** The search stops once the step is at most this: 10^14 wei for WETH, 10^3 units otherwise. */
  function Tolerance(mainCurrency: Address): (t: nat)
    ensures IsWeth(mainCurrency) ==> t == Pow(10, 14)
    ensures !IsWeth(mainCurrency) ==> t == Pow(10, 3)
  {
    if IsWeth(mainCurrency) then 100_000_000_000_000 else 1000
  }

  const INTERVALS: nat := 10

  /** The `i`-th amount of a round, reached by `i` steps from `min`. */
  function SampleAt(minIn: nat, step: nat, i: nat): nat {
    if i == 0 then minIn else SampleAt(minIn, step, i - 1) + step
  }

  /** The `i`-th amount is `min + i * step`, as the source computes it. */
  lemma {:induction false} SampleAtIs(minIn: nat, step: nat, i: nat)
    ensures SampleAt(minIn, step, i) == minIn + i * step
  {
    if i > 0 {
      SampleAtIs(minIn, step, i - 1);
      assert i * step == (i - 1) * step + step;
    }
  }

  /** The eleven amounts of one round: `min + i * step` for `i` in `0..=10`. */
  function Samples(minIn: nat, step: nat): (r: seq<nat>)
    ensures |r| == INTERVALS + 1 && r[0] == minIn
  {
    seq(INTERVALS + 1, i requires 0 <= i <= INTERVALS => SampleAt(minIn, step, i))
  }

  /** With `step = (max - min) / 10`, the samples climb by `step` from `min` and stay within `max`. */
  lemma SamplesInBracket(minIn: nat, maxIn: nat)
    requires minIn <= maxIn
    ensures var r := Samples(minIn, (maxIn - minIn) / INTERVALS);
            && r[0] == minIn
            && (forall i :: 0 <= i <= INTERVALS ==> minIn <= r[i] <= maxIn)
            && (forall i :: 0 <= i < INTERVALS ==> r[i + 1] == r[i] + (maxIn - minIn) / INTERVALS)
  {
    var step := (maxIn - minIn) / INTERVALS;
    FloorQuotient(maxIn - minIn, INTERVALS, maxIn - minIn);
    var r := Samples(minIn, step);
    forall i | 0 <= i <= INTERVALS
      ensures minIn <= r[i] <= maxIn
    {
      SampleAtIs(minIn, step, i);
      MulMonotone(step, i, INTERVALS);
      assert i * step == step * i;
    }
    forall i | 0 <= i < INTERVALS
      ensures r[i + 1] == r[i] + step
    {
      assert r[i + 1] == SampleAt(minIn, step, i + 1);
    }
  }

  /** The samples never decrease along the list. */
  predicate Ascending(samples: seq<nat>) {
    forall i, j :: 0 <= i <= j < |samples| ==> samples[i] <= samples[j]
  }

  lemma SamplesAscending(minIn: nat, step: nat)
    ensures Ascending(Samples(minIn, step))
  {
    var r := Samples(minIn, step);
    forall i, j | 0 <= i <= j < |r| ensures r[i] <= r[j] {
      SampleAtIs(minIn, step, i);
      SampleAtIs(minIn, step, j);
      MulMonotone(step, i, j);
      assert i * step == step * i && j * step == step * j;
    }
  }

  /**
   * The next bracket: the neighbours of the best sample, or 0 below the
   * first and the last sample itself above the last.
   */
  function NextBracket(samples: seq<nat>, maxIdx: nat): (nat, nat)
    requires |samples| == INTERVALS + 1 && maxIdx <= INTERVALS
  {
    (if maxIdx == 0 then 0 else samples[maxIdx - 1],
     if maxIdx == INTERVALS then samples[maxIdx] else samples[maxIdx + 1])
  }

  /** On ascending samples the next bracket holds the best sample and ends at or below the last one. */
  lemma NextBracketBounds(samples: seq<nat>, maxIdx: nat)
    requires |samples| == INTERVALS + 1 && maxIdx <= INTERVALS
    requires Ascending(samples)
    ensures var r := NextBracket(samples, maxIdx);
            && r.0 <= samples[maxIdx] <= r.1 <= samples[INTERVALS]
            && (maxIdx > 0 ==> samples[0] <= r.0)
  {
  }


  /**
   * The scan over one round's results: keep the first result whose revenue
   * is strictly greater than the best so far.
   */
  method BestSample(results: seq<SampleResult>, maxRevenue: nat, best: SampleResult)
    returns (maxIdx: nat, newMax: nat, newBest: SampleResult)
    requires |results| > 0
    ensures maxIdx < |results| && newMax >= maxRevenue
    ensures forall k :: 0 <= k < |results| ==> results[k].revenue <= newMax
    ensures newMax == maxRevenue ==> maxIdx == 0 && newBest == best
    ensures newMax > maxRevenue ==> newBest == results[maxIdx] && newMax == results[maxIdx].revenue
    ensures newMax > maxRevenue ==> forall k :: 0 <= k < maxIdx ==> results[k].revenue < newMax
  {
    maxIdx, newMax, newBest := 0, maxRevenue, best;
    for idx := 0 to |results|
      invariant maxIdx < |results| && newMax >= maxRevenue
      invariant forall k :: 0 <= k < idx ==> results[k].revenue <= newMax
      invariant newMax == maxRevenue ==> maxIdx == 0 && newBest == best
      invariant newMax > maxRevenue ==> newBest == results[maxIdx] && newMax == results[maxIdx].revenue
      invariant newMax > maxRevenue ==> maxIdx < idx && forall k :: 0 <= k < maxIdx ==> results[k].revenue < newMax
    {
      if results[idx].revenue > newMax {
        maxIdx, newMax, newBest := idx, results[idx].revenue, results[idx];
      }
    }
  }

  /** The amounts of one round, as a set. */
  function SampleSet(minIn: nat, step: nat): set<nat> {
    set k | 0 <= k <= INTERVALS :: Samples(minIn, step)[k]
  }

  /** Every amount of a round lies in its bracket. */
  lemma SampleSetInBracket(minIn: nat, maxIn: nat, step: nat)
    requires minIn <= maxIn && step == (maxIn - minIn) / INTERVALS
    ensures forall a :: a in SampleSet(minIn, step) ==> minIn <= a <= maxIn
  {
    SamplesInBracket(minIn, maxIn);
  }

  /**
   * One round of `optimize`: build the eleven inputs, simulate each, scan
   * for a strictly better revenue and compute the next bracket.
   */
  method SearchRound(minIn: nat, maxIn: nat, sim: nat -> Option<SimulatedSandwich>,
                     maxRevenue: nat, best: SampleResult)
    returns (nextMin: nat, nextMax: nat, newMax: nat, newBest: SampleResult, ghost maxIdx: nat)
    requires minIn <= maxIn
    ensures nextMin <= nextMax <= maxIn && newMax >= maxRevenue
    ensures maxIdx <= INTERVALS
    ensures (nextMin, nextMax) == NextBracket(Samples(minIn, (maxIn - minIn) / INTERVALS), maxIdx)
    ensures newMax == maxRevenue ==> maxIdx == 0
    ensures newMax > maxRevenue ==> newBest.amountIn == Samples(minIn, (maxIn - minIn) / INTERVALS)[maxIdx]
    ensures forall a :: a in SampleSet(minIn, (maxIn - minIn) / INTERVALS) ==>
              minIn <= a <= maxIn && SimulateSandwich(sim, a).revenue <= newMax
    ensures newMax == maxRevenue ==>
              newBest == best && nextMin == 0 && nextMax == minIn + (maxIn - minIn) / INTERVALS
    ensures newMax > maxRevenue ==>
              newBest.amountIn in SampleSet(minIn, (maxIn - minIn) / INTERVALS)
              && newBest == SimulateSandwich(sim, newBest.amountIn) && newMax == newBest.revenue
  {
    var step := (maxIn - minIn) / INTERVALS;
    var inputs: seq<nat> := [];
    for i := 0 to INTERVALS + 1
      invariant inputs == Samples(minIn, step)[..i]
    {
      SampleAtIs(minIn, step, i);
      inputs := inputs + [minIn + i * step];
    }
    assert inputs == Samples(minIn, step);
    SamplesInBracket(minIn, maxIn);
    SamplesAscending(minIn, step);
    var results := seq(INTERVALS + 1, k requires 0 <= k <= INTERVALS => SimulateSandwich(sim, inputs[k]));
    var idx;
    idx, newMax, newBest := BestSample(results, maxRevenue, best);
    maxIdx := idx;
    var bracket := NextBracket(inputs, idx);
    NextBracketBounds(inputs, idx);
    nextMin, nextMax := bracket.0, bracket.1;
    forall a | a in SampleSet(minIn, step)
      ensures minIn <= a <= maxIn && SimulateSandwich(sim, a).revenue <= newMax
    {
      var k :| 0 <= k <= INTERVALS && inputs[k] == a;
      assert results[k] == SimulateSandwich(sim, a);
    }
    if newMax > maxRevenue {
      assert inputs[maxIdx] in SampleSet(minIn, step);
    }
  }

  /**
   * `Sandwich::optimize`: a grid search over the input amount in
   * `[0, ceiling]`. Each round simulates eleven evenly spaced amounts, keeps
   * the best revenue seen so far (replacing it only on a strictly greater
   * one) and narrows the bracket to the neighbours of the round's best
   * sample; it stops once a step is at most the tolerance. The sandwich is
   * returned with the result attached. `sampled` is every amount simulated.
   */
  method Optimize(s: Sandwich, ceiling: nat, frontAccessList: AccessList, backAccessList: AccessList,
                  sim: nat -> Option<SimulatedSandwich>)
    returns (opt: OptimizedSandwich, s': Sandwich, ghost sampled: set<nat>)
    ensures s' == s.(optimizedSandwich := Some(opt))
    ensures opt.frontAccessList == frontAccessList && opt.backAccessList == backAccessList
    ensures opt.amountIn <= ceiling
    ensures forall a :: a in sampled ==> a <= ceiling && SimulateSandwich(sim, a).revenue <= opt.maxRevenue
    ensures ceiling / INTERVALS > Tolerance(s.swapInfo.mainCurrency) ==>
              SampleSet(0, ceiling / INTERVALS) <= sampled
    ensures ceiling / INTERVALS <= Tolerance(s.swapInfo.mainCurrency) ==> sampled == {} && opt.maxRevenue == 0
    ensures opt.maxRevenue == 0 ==>
              opt.amountIn == 0 && opt.frontGasUsed == 0 && opt.backGasUsed == 0
              && opt.frontCalldata == [] && opt.backCalldata == []
    ensures opt.maxRevenue > 0 ==>
              var r := SimulateSandwich(sim, opt.amountIn);
              opt.amountIn in sampled && r.revenue == opt.maxRevenue
              && r.frontGasUsed == opt.frontGasUsed && r.backGasUsed == opt.backGasUsed
              && r.frontCalldata == opt.frontCalldata && r.backCalldata == opt.backCalldata
  {
    var maxRevenue, best;
    maxRevenue, best, sampled := GridSearch(ceiling, Tolerance(s.swapInfo.mainCurrency), sim);
    opt := OptimizedSandwich(best.amountIn, maxRevenue, best.frontGasUsed, best.backGasUsed,
                             frontAccessList, backAccessList, best.frontCalldata, best.backCalldata);
    s' := s.(optimizedSandwich := Some(opt));
  }

  /** Every amount in `sampled` is within the ceiling and earns at most `maxRevenue`. */
  predicate Dominated(sampled: set<nat>, ceiling: nat, sim: nat -> Option<SimulatedSandwich>, maxRevenue: int) {
    forall a :: a in sampled ==> a <= ceiling && SimulateSandwich(sim, a).revenue <= maxRevenue
  }

  /**
   * What holds between rounds of the search: the bracket lies in
   * `[0, ceiling]`; the best revenue is that of the best sample, which was
   * simulated, and no sampled amount does better; before the first round
   * nothing is sampled, and after it the first round's grid is.
   */
  predicate SearchInv(minIn: nat, maxIn: nat, maxRevenue: nat, best: SampleResult, sampled: set<nat>, started: bool,
                      ceiling: nat, tolerance: nat, sim: nat -> Option<SimulatedSandwich>) {
    && minIn <= maxIn <= ceiling
    && maxRevenue <= I128_MAX && maxRevenue == best.revenue && best.amountIn <= ceiling
    && (maxRevenue == 0 ==> best == NO_SAMPLE)
    && (maxRevenue > 0 ==> best.amountIn in sampled && best == SimulateSandwich(sim, best.amountIn))
    && Dominated(sampled, ceiling, sim, maxRevenue)
    && (!started ==> minIn == 0 && maxIn == ceiling && sampled == {} && maxRevenue == 0)
    && (ceiling / INTERVALS <= tolerance ==> !started)
    && (started ==> SampleSet(0, ceiling / INTERVALS) <= sampled)
  }

  /** One round, as `SearchRound` promises it, keeps the search invariant. */
  lemma RoundKeepsInv(minIn: nat, maxIn: nat, maxRevenue: nat, best: SampleResult, sampled: set<nat>, started: bool,
                      ceiling: nat, tolerance: nat, sim: nat -> Option<SimulatedSandwich>,
                      nextMin: nat, nextMax: nat, newMax: nat, newBest: SampleResult)
    requires SearchInv(minIn, maxIn, maxRevenue, best, sampled, started, ceiling, tolerance, sim)
    requires (maxIn - minIn) / INTERVALS > tolerance
    requires nextMin <= nextMax <= maxIn && newMax >= maxRevenue
    requires forall a :: a in SampleSet(minIn, (maxIn - minIn) / INTERVALS) ==>
               minIn <= a <= maxIn && SimulateSandwich(sim, a).revenue <= newMax
    requires newMax == maxRevenue ==> newBest == best
    requires newMax > maxRevenue ==>
               newBest.amountIn in SampleSet(minIn, (maxIn - minIn) / INTERVALS)
               && newBest == SimulateSandwich(sim, newBest.amountIn) && newMax == newBest.revenue
    ensures SearchInv(nextMin, nextMax, newMax, newBest, sampled + SampleSet(minIn, (maxIn - minIn) / INTERVALS),
                      true, ceiling, tolerance, sim)
  {
    var grid := SampleSet(minIn, (maxIn - minIn) / INTERVALS);
    forall a | a in grid ensures a <= ceiling && SimulateSandwich(sim, a).revenue <= newMax {
      var r := SimulateSandwich(sim, a);
      assert minIn <= a <= maxIn <= ceiling && r.revenue <= newMax;
    }
    DominatedUnion(sampled, grid, ceiling, sim, maxRevenue, newMax);
    if !started {
      assert ceiling / INTERVALS > tolerance;
      assert grid == SampleSet(0, ceiling / INTERVALS);
    }
  }

  lemma DominatedUnion(sampled: set<nat>, grid: set<nat>, ceiling: nat, sim: nat -> Option<SimulatedSandwich>,
                       maxRevenue: nat, newMax: nat)
    requires Dominated(sampled, ceiling, sim, maxRevenue) && maxRevenue <= newMax
    requires forall a :: a in grid ==> a <= ceiling && SimulateSandwich(sim, a).revenue <= newMax
    ensures Dominated(sampled + grid, ceiling, sim, newMax)
  {
  }

  /**
   * One round of the search seen from the loop: it keeps the invariant and
   * either raises the best revenue, or restarts the bracket at 0 with a
   * smaller width or from a positive lower end.
   */
  method SearchStep(minIn: nat, maxIn: nat, maxRevenue: nat, best: SampleResult, ghost sampled: set<nat>,
                    ghost started: bool, ceiling: nat, tolerance: nat, sim: nat -> Option<SimulatedSandwich>)
    returns (nextMin: nat, nextMax: nat, newMax: nat, newBest: SampleResult)
    requires SearchInv(minIn, maxIn, maxRevenue, best, sampled, started, ceiling, tolerance, sim)
    requires (maxIn - minIn) / INTERVALS > tolerance
    ensures SearchInv(nextMin, nextMax, newMax, newBest, sampled + SampleSet(minIn, (maxIn - minIn) / INTERVALS),
                      true, ceiling, tolerance, sim)
    ensures newMax > maxRevenue
            || (newMax == maxRevenue && nextMin == 0 && (minIn > 0 || nextMax - nextMin < maxIn - minIn))
  {
    ghost var maxIdx;
    nextMin, nextMax, newMax, newBest, maxIdx := SearchRound(minIn, maxIn, sim, maxRevenue, best);
    SampleSetInBracket(minIn, maxIn, (maxIn - minIn) / INTERVALS);
    RoundKeepsInv(minIn, maxIn, maxRevenue, best, sampled, started, ceiling, tolerance, sim,
                  nextMin, nextMax, newMax, newBest);
    if newMax == maxRevenue && minIn == 0 {
      StepBelowWidth(maxIn);
    }
  }

  /** A positive step is less than the width it divides. */
  lemma StepBelowWidth(width: nat)
    requires width / INTERVALS > 0
    ensures width / INTERVALS < width
  {
  }

  /**
   * The search loop of `optimize`: rounds over `[0, ceiling]` until a step
   * is at most the tolerance, returning the best revenue, the sample that
   * reached it, and every amount simulated.
   */
  method GridSearch(ceiling: nat, tolerance: nat, sim: nat -> Option<SimulatedSandwich>)
    returns (maxRevenue: nat, best: SampleResult, ghost sampled: set<nat>)
    ensures maxRevenue == best.revenue && best.amountIn <= ceiling
    ensures maxRevenue == 0 ==> best == NO_SAMPLE
    ensures maxRevenue > 0 ==> best.amountIn in sampled && best == SimulateSandwich(sim, best.amountIn)
    ensures forall a :: a in sampled ==> a <= ceiling && SimulateSandwich(sim, a).revenue <= maxRevenue
    ensures ceiling / INTERVALS > tolerance ==> SampleSet(0, ceiling / INTERVALS) <= sampled
    ensures ceiling / INTERVALS <= tolerance ==> sampled == {} && maxRevenue == 0
  {
    var minIn: nat := 0;
    var maxIn: nat := ceiling;
    maxRevenue := 0;
    best := NO_SAMPLE;
    sampled := {};
    ghost var started := false;
    while (maxIn - minIn) / INTERVALS > tolerance
      invariant SearchInv(minIn, maxIn, maxRevenue, best, sampled, started, ceiling, tolerance, sim)
      decreases I128_MAX - maxRevenue, if minIn > 0 then 1 else 0, maxIn - minIn
    {
      var nextMin, nextMax, newMax, newBest := SearchStep(minIn, maxIn, maxRevenue, best, sampled, started,
                                                          ceiling, tolerance, sim);
      sampled := sampled + SampleSet(minIn, (maxIn - minIn) / INTERVALS);
      minIn, maxIn := nextMin, nextMax;
      maxRevenue, best := newMax, newBest;
      started := true;
    }
  }
}
