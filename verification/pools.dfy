/**
 * The pool registry: Uniswap V2 pairs discovered from `PairCreated` logs and
 * cached as CSV rows, with ids assigned in block order.
 */
module Pools {
  import opened Eth
  import opened Wrappers
  import Text
  import Sorting

  datatype DexVariant = UniswapV2 {
    /** The protocol version number written to the cache. */
    function Num(): nat {
      match this
      case UniswapV2 => 2
    }
  }

  datatype Pool = Pool(
    id: int,
    address: Address,
    version: DexVariant,
    token0: Address,
    token1: Address,
    fee: nat,
    blockNumber: nat,
    timestamp: nat)

  /** The field values fit the Rust types (`i64` id, `u32` fee, `u64` block and timestamp). */
  predicate FitsRow(p: Pool) {
    I64_MIN <= p.id <= I64_MAX && p.fee <= U32_MAX && p.blockNumber <= U64_MAX && p.timestamp <= U64_MAX
  }

  // ---------------------------------------------------------------------------
  // CSV rows
  // ---------------------------------------------------------------------------

  /**
   * `Pool::from(StringRecord)`: columns id, address, version, token0, token1,
   * fee, block_number, timestamp. Any `i32` in the version column means
   * Uniswap V2. `None` where the Rust code would panic on a missing column or
   * an unparsable field.
   */
  function PoolFromRecord(record: seq<string>): (r: Option<Pool>)
    ensures r.Some? ==> |record| >= 8 && r.value.version == UniswapV2 && FitsRow(r.value)
    ensures r.Some? ==> Text.ParseInteger(record[2], I32_MIN, I32_MAX).Some?
  {
    if |record| < 8 then None
    else
      var version := Text.ParseInteger(record[2], I32_MIN, I32_MAX);
      var id := Text.ParseInteger(record[0], I64_MIN, I64_MAX);
      var address := Text.ParseAddress(record[1]);
      var token0 := Text.ParseAddress(record[3]);
      var token1 := Text.ParseAddress(record[4]);
      var fee := Text.ParseInteger(record[5], 0, U32_MAX);
      var blockNumber := Text.ParseInteger(record[6], 0, U64_MAX);
      var timestamp := Text.ParseInteger(record[7], 0, U64_MAX);
      if version.Some? && id.Some? && address.Some? && token0.Some? && token1.Some?
         && fee.Some? && blockNumber.Some? && timestamp.Some?
      then
        Some(Pool(id.value, address.value, UniswapV2, token0.value, token1.value,
                  fee.value, blockNumber.value, timestamp.value))
      else None
  }

  /** `Pool::cache_row`: the fields in the same column order, addresses in `{:?}` form. */
  function CacheRow(p: Pool): (row: seq<string>)
    ensures |row| == 8
  {
    [Text.FormatInt(p.id), Text.DebugHex(p.address), Text.FormatInt(p.version.Num()),
     Text.DebugHex(p.token0), Text.DebugHex(p.token1), Text.FormatInt(p.fee),
     Text.FormatInt(p.blockNumber), Text.FormatInt(p.timestamp)]
  }

  /** Reading back a cached row gives the pool that was written. */
  lemma PoolRowRoundTrip(p: Pool)
    requires FitsRow(p)
    ensures PoolFromRecord(CacheRow(p)) == Some(p)
  {
    var row := CacheRow(p);
    assert p.version.Num() == 2 && p.version == UniswapV2;
    assert row[0] == Text.FormatInt(p.id) && row[2] == Text.FormatInt(2);
    assert row[1] == Text.DebugHex(p.address) && row[3] == Text.DebugHex(p.token0);
    assert row[4] == Text.DebugHex(p.token1) && row[5] == Text.FormatInt(p.fee);
    assert row[6] == Text.FormatInt(p.blockNumber) && row[7] == Text.FormatInt(p.timestamp);
    Text.ParseFormatInt(p.id, I64_MIN, I64_MAX);
    Text.ParseFormatInt(2, I32_MIN, I32_MAX);
    Text.ParseFormatInt(p.fee, 0, U32_MAX);
    Text.ParseFormatInt(p.blockNumber, 0, U64_MAX);
    Text.ParseFormatInt(p.timestamp, 0, U64_MAX);
    Text.ParseAddressOfDebug(p.address);
    Text.ParseAddressOfDebug(p.token0);
    Text.ParseAddressOfDebug(p.token1);
  }

  /** `Pool::trades`: the pool swaps between `a` and `b`, in either order. */
  predicate Trades(p: Pool, a: Address, b: Address) {
    (p.token0 == a && p.token1 == b) || (p.token1 == a && p.token0 == b)
  }

  lemma TradesSymmetric(p: Pool, a: Address, b: Address)
    ensures Trades(p, a, b) <==> Trades(p, b, a)
    ensures Trades(p, a, b) <==> {a, b} == {p.token0, p.token1} && (a == b ==> p.token0 == p.token1)
  {
    if {a, b} == {p.token0, p.token1} && (a == b ==> p.token0 == p.token1) {
      assert p.token0 in {a, b} && p.token1 in {a, b};
      assert a in {p.token0, p.token1};
    }
  }

  // ---------------------------------------------------------------------------
  // Pools from `PairCreated` logs
  // ---------------------------------------------------------------------------

  /** A `PairCreated` log: its topics, its block (if reported) and its data. */
  datatype PairLog = PairLog(topics: seq<Hash>, blockNumber: Option<nat>, data: Bytes)

  /** `H160::from(H256)`: the low 20 bytes of a word. */
  function LowAddress(word: Hash): Address {
    word[12..]
  }

  /**
   * What one log contributes to `load_uniswap_v2_pools`: nothing, a pool,
   * or a panic that ends the task for its whole block range.
   */
  datatype LogOutcome = Skipped | Found(pool: Pool) | Aborted

  /**
   * The outcome of one log, in the order the Rust code looks at it: reading
   * topic 0 of a log without topics panics; a log whose topic 0 is not the
   * signature is skipped; for a matching log the block's timestamp is
   * fetched (a failed lookup panics), topics 1 and 2 are read (panicking
   * when absent), and data that does not hold an (address, uint256) pair is
   * skipped.
   */
  function LogToPool(log: PairLog, signature: Hash, timestampOf: nat -> Option<nat>): (r: LogOutcome)
    ensures r.Aborted? <==>
              |log.topics| == 0
              || (log.topics[0] == signature && (timestampOf(log.blockNumber.GetOr(0)).None? || |log.topics| < 3))
    ensures r.Found? <==>
              && |log.topics| >= 3 && log.topics[0] == signature
              && timestampOf(log.blockNumber.GetOr(0)).Some? && |log.data| >= 64
    ensures r.Found? ==> r.pool.id == -1 && r.pool.fee == 300 && r.pool.version == UniswapV2
    ensures r.Found? ==> r.pool.token0 == LowAddress(log.topics[1]) && r.pool.token1 == LowAddress(log.topics[2])
    ensures r.Found? ==> r.pool.blockNumber == log.blockNumber.GetOr(0)
                         && Some(r.pool.timestamp) == timestampOf(r.pool.blockNumber)
  {
    var blockNumber := log.blockNumber.GetOr(0);
    if |log.topics| == 0 then Aborted
    else if log.topics[0] != signature then Skipped
    else if timestampOf(blockNumber).None? then Aborted
    else if |log.topics| < 3 then Aborted
    else if |log.data| < 64 then Skipped
    else
      var pair: Address := log.data[12..32];
      Found(Pool(-1, pair, UniswapV2, LowAddress(log.topics[1]), LowAddress(log.topics[2]),
                 300, blockNumber, timestampOf(blockNumber).value))
  }

  /**
   * The pools a batch of logs yields, in log order; `None` when one of the
   * logs makes the task panic, which loses the pools of the whole batch.
   */
  function PoolsFromLogs(logs: seq<PairLog>, signature: Hash, timestampOf: nat -> Option<nat>): (r: Option<seq<Pool>>)
    ensures r.Some? ==> |r.value| <= |logs|
    ensures r.Some? ==> forall p :: p in r.value ==> p.id == -1 && p.fee == 300
  {
    if logs == [] then Some([])
    else
      var prefix := PoolsFromLogs(logs[..|logs| - 1], signature, timestampOf);
      match LogToPool(logs[|logs| - 1], signature, timestampOf)
      case Aborted => None
      case Skipped => prefix
      case Found(p) => if prefix.None? then None else Some(prefix.value + [p])
  }

  /** A batch of logs is lost exactly when one of its logs panics. */
  lemma {:induction false} PoolsFromLogsAborts(logs: seq<PairLog>, signature: Hash, timestampOf: nat -> Option<nat>)
    ensures PoolsFromLogs(logs, signature, timestampOf).None? <==>
              exists i :: 0 <= i < |logs| && LogToPool(logs[i], signature, timestampOf).Aborted?
  {
    if logs != [] {
      var init := logs[..|logs| - 1];
      PoolsFromLogsAborts(init, signature, timestampOf);
      if exists i :: 0 <= i < |init| && LogToPool(init[i], signature, timestampOf).Aborted? {
        var i :| 0 <= i < |init| && LogToPool(init[i], signature, timestampOf).Aborted?;
        assert logs[i] == init[i];
      }
      if exists i :: 0 <= i < |logs| && LogToPool(logs[i], signature, timestampOf).Aborted? {
        var i :| 0 <= i < |logs| && LogToPool(logs[i], signature, timestampOf).Aborted?;
        if i < |init| {
          assert init[i] == logs[i];
        }
      }
    }
  }

  /**
   * When no log panics, the batch yields exactly the pools of the logs that
   * decode to one.
   */
  lemma {:induction false} PoolsFromLogsMembers(logs: seq<PairLog>, signature: Hash, timestampOf: nat -> Option<nat>,
                                                p: Pool)
    requires PoolsFromLogs(logs, signature, timestampOf).Some?
    ensures p in PoolsFromLogs(logs, signature, timestampOf).value <==>
              exists i :: 0 <= i < |logs| && LogToPool(logs[i], signature, timestampOf) == Found(p)
  {
    if logs != [] {
      var init := logs[..|logs| - 1];
      PoolsFromLogsMembers(init, signature, timestampOf, p);
      if exists i :: 0 <= i < |init| && LogToPool(init[i], signature, timestampOf) == Found(p) {
        var i :| 0 <= i < |init| && LogToPool(init[i], signature, timestampOf) == Found(p);
        assert logs[i] == init[i];
      }
      if exists i :: 0 <= i < |logs| && LogToPool(logs[i], signature, timestampOf) == Found(p) {
        var i :| 0 <= i < |logs| && LogToPool(logs[i], signature, timestampOf) == Found(p);
        if i < |init| {
          assert init[i] == logs[i];
        }
      }
    }
  }

  /**
   * `load_uniswap_v2_pools`, after the log query: one pool per matching
   * log, fetching each block's timestamp at most once (`timestamp_map`);
   * `None` when the task panics.
   */
  method LoadUniswapV2Pools(logs: seq<PairLog>, signature: Hash, timestampOf: nat -> Option<nat>)
    returns (pools: Option<seq<Pool>>)
    ensures pools == PoolsFromLogs(logs, signature, timestampOf)
  {
    var found: seq<Pool> := [];
    var timestamps: map<nat, nat> := map[];
    for i := 0 to |logs|
      invariant PoolsFromLogs(logs[..i], signature, timestampOf) == Some(found)
      invariant forall b :: b in timestamps ==> timestampOf(b) == Some(timestamps[b])
    {
      var log := logs[i];
      assert logs[..i + 1][..i] == logs[..i];
      var blockNumber := log.blockNumber.GetOr(0);
      if |log.topics| == 0 {
        PoolsFromLogsAborts(logs, signature, timestampOf);
        return None;
      }
      if log.topics[0] != signature {
        continue;
      }
      var timestamp;
      if blockNumber !in timestamps {
        var fetched := timestampOf(blockNumber);
        if fetched.None? {
          PoolsFromLogsAborts(logs, signature, timestampOf);
          return None;
        }
        timestamp := fetched.value;
        timestamps := timestamps[blockNumber := timestamp];
      } else {
        timestamp := timestamps[blockNumber];
      }
      if |log.topics| < 3 {
        PoolsFromLogsAborts(logs, signature, timestampOf);
        return None;
      }
      var token0 := LowAddress(log.topics[1]);
      var token1 := LowAddress(log.topics[2]);
      if |log.data| >= 64 {
        var pair: Address := log.data[12..32];
        found := found + [Pool(-1, pair, UniswapV2, token0, token1, 300, blockNumber, timestamp)];
      }
    }
    assert logs[..|logs|] == logs;
    pools := Some(found);
  }

  // ---------------------------------------------------------------------------
  // `load_all_pools`
  // ---------------------------------------------------------------------------

  /**
   * The block ranges queried: consecutive windows of `chunk` blocks from
   * `fromBlock`, the last one cut at `toBlock`.
   */
  method BlockRanges(fromBlock: nat, toBlock: nat, chunk: nat) returns (ranges: seq<(nat, nat)>)
    requires chunk > 0
    ensures |ranges| >= 1 && ranges[0].0 == fromBlock
    ensures Contiguous(ranges, chunk)
    ensures forall k :: 0 <= k < |ranges| - 1 ==> ranges[k].1 <= toBlock
    ensures ranges[|ranges| - 1].1 == toBlock && toBlock < ranges[|ranges| - 1].0 + chunk
  {
    ranges := [];
    var processed: nat := 0;
    while fromBlock + processed + chunk - 1 <= toBlock
      invariant ranges == [] ==> processed == 0
      invariant ranges != [] ==> ranges[0].0 == fromBlock && ranges[|ranges| - 1].1 + 1 == fromBlock + processed
      invariant forall k :: 0 <= k < |ranges| ==> ranges[k].1 == ranges[k].0 + chunk - 1 <= toBlock
      invariant forall k :: 0 <= k < |ranges| - 1 ==> ranges[k + 1].0 == ranges[k].1 + 1
      decreases toBlock + 1 - (fromBlock + processed)
    {
      ranges := ranges + [(fromBlock + processed, fromBlock + processed + chunk - 1)];
      processed := processed + chunk;
    }
    ranges := ranges + [(fromBlock + processed, toBlock)];
  }

  /** Each range but the last spans `chunk` blocks, and each range starts right after the previous one. */
  predicate Contiguous(ranges: seq<(nat, nat)>, chunk: nat) {
    forall k :: 0 <= k < |ranges| - 1 ==>
      ranges[k].1 == ranges[k].0 + chunk - 1 && ranges[k + 1].0 == ranges[k].1 + 1
  }

  /** Every block from the first start to the last end lies in one of the ranges. */
  lemma {:induction false} RangesCover(ranges: seq<(nat, nat)>, chunk: nat, b: nat)
    requires |ranges| >= 1 && Contiguous(ranges, chunk)
    requires ranges[0].0 <= b <= ranges[|ranges| - 1].1
    ensures exists k :: 0 <= k < |ranges| && ranges[k].0 <= b <= ranges[k].1
  {
    var n := |ranges|;
    if b >= ranges[n - 1].0 {
      assert ranges[n - 1].0 <= b <= ranges[n - 1].1;
    } else {
      var prefix := ranges[..n - 1];
      assert Contiguous(prefix, chunk);
      RangesCover(prefix, chunk, b);
      var k :| 0 <= k < |prefix| && prefix[k].0 <= b <= prefix[k].1;
      assert ranges[k] == prefix[k];
    }
  }

  /** Number of pools in `ps` still without an id (`-1`). */
  function CountUnassigned(ps: seq<Pool>): (n: nat)
    ensures n <= |ps|
  {
    if ps == [] then 0
    else CountUnassigned(ps[..|ps| - 1]) + (if ps[|ps| - 1].id == -1 then 1 else 0)
  }

  lemma {:induction false} CountUnassignedMonotone(ps: seq<Pool>, i: nat, j: nat)
    requires i <= j <= |ps|
    ensures CountUnassigned(ps[..i]) <= CountUnassigned(ps[..j])
    decreases j - i
  {
    if i < j {
      CountUnassignedMonotone(ps, i, j - 1);
      assert ps[..j][..j - 1] == ps[..j - 1];
    }
  }

  /** The pools of `ps` whose id is above `lastId`, in order: the rows appended to the cache. */
  function IdsAbove(ps: seq<Pool>, lastId: int): (r: seq<Pool>)
    ensures forall p :: p in r <==> p in ps && p.id > lastId
  {
    if ps == [] then []
    else IdsAbove(ps[..|ps| - 1], lastId) + (if ps[|ps| - 1].id > lastId then [ps[|ps| - 1]] else [])
  }

  /** Pool `m` once ids are assigned: a pool still at `-1` takes the next id after those before it. */
  function AssignedAt(ps: seq<Pool>, lastId: int, m: nat): (p: Pool)
    requires m < |ps|
  {
    if ps[m].id == -1 then ps[m].(id := lastId + 1 + CountUnassigned(ps[..m])) else ps[m]
  }

  /**
   * The state of the id loop after `i` pools: those pools carry their
   * assigned ids, the rest are untouched, `id` is the last id handed out
   * and `written` holds the pools so far whose id is above `lastId`.
   */
  predicate AssignInv(ps: seq<Pool>, lastId: int, i: nat, r: seq<Pool>, written: seq<Pool>, id: int) {
    && i <= |ps| && |r| == |ps|
    && (forall m :: i <= m < |ps| ==> r[m] == ps[m])
    && (forall m :: 0 <= m < i ==> r[m] == AssignedAt(ps, lastId, m))
    && id == lastId + CountUnassigned(ps[..i])
    && written == IdsAbove(r[..i], lastId)
  }

  lemma AssignStep(ps: seq<Pool>, lastId: int, i: nat, r: seq<Pool>, written: seq<Pool>, id: int,
                   r': seq<Pool>, written': seq<Pool>, id': int)
    requires AssignInv(ps, lastId, i, r, written, id) && i < |ps|
    requires r[i].id == -1 ==> id' == id + 1 && r' == r[i := r[i].(id := id')]
    requires r[i].id != -1 ==> id' == id && r' == r
    requires written' == if r'[i].id > lastId then written + [r'[i]] else written
    ensures AssignInv(ps, lastId, i + 1, r', written', id')
  {
    assert ps[..i + 1][..i] == ps[..i];
    assert CountUnassigned(ps[..i + 1]) == CountUnassigned(ps[..i]) + (if ps[i].id == -1 then 1 else 0);
    assert r'[i] == AssignedAt(ps, lastId, i);
    forall m | 0 <= m < i + 1 ensures r'[m] == AssignedAt(ps, lastId, m) {
      if m < i { assert r'[m] == r[m]; }
    }
    assert r'[..i + 1][..i] == r[..i];
    assert IdsAbove(r'[..i + 1], lastId) == IdsAbove(r[..i], lastId) + (if r'[i].id > lastId then [r'[i]] else []);
  }

  /**
   * The id loop of `load_all_pools`: each pool still at `-1` takes the next id
   * after `lastId`, in order; pools above `lastId` are written to the cache.
   */
  method AssignIds(ps: seq<Pool>, lastId: int) returns (r: seq<Pool>, written: seq<Pool>)
    ensures |r| == |ps|
    ensures forall i :: 0 <= i < |ps| && ps[i].id != -1 ==> r[i] == ps[i]
    ensures forall i :: 0 <= i < |ps| && ps[i].id == -1 ==>
              r[i] == ps[i].(id := lastId + 1 + CountUnassigned(ps[..i]))
    ensures written == IdsAbove(r, lastId)
  {
    r := ps;
    written := [];
    var id := lastId;
    for i := 0 to |ps|
      invariant AssignInv(ps, lastId, i, r, written, id)
    {
      ghost var r0, written0, id0 := r, written, id;
      if r[i].id == -1 {
        id := id + 1;
        r := r[i := r[i].(id := id)];
      }
      if r[i].id > lastId {
        written := written + [r[i]];
      }
      AssignStep(ps, lastId, i, r0, written0, id0, r, written, id);
    }
    assert r[..|ps|] == r;
  }

  /** Newly assigned ids are above `lastId` and strictly increase along the sequence. */
  lemma AssignedIdsIncrease(ps: seq<Pool>, r: seq<Pool>, lastId: int, i: nat, j: nat)
    requires |r| == |ps| && i < j < |ps|
    requires forall m :: 0 <= m < |ps| && ps[m].id == -1 ==>
               r[m] == ps[m].(id := lastId + 1 + CountUnassigned(ps[..m]))
    requires ps[i].id == -1 && ps[j].id == -1
    ensures lastId < r[i].id < r[j].id
  {
    CountUnassignedMonotone(ps, i + 1, j);
    assert ps[..i + 1][..i] == ps[..i];
  }

  function BlockKey(p: Pool): int {
    p.blockNumber
  }

  /**
   * The pools discovered in the given ranges, range by range. A range whose
   * task fails yields none: a failed log query returns an error, and a
   * panic while decoding its logs is a failed task, both ignored.
   */
  function Discovered(ranges: seq<(nat, nat)>, getLogs: (nat, nat) -> Option<seq<PairLog>>,
                      signature: Hash, timestampOf: nat -> Option<nat>): seq<Pool>
  {
    if ranges == [] then []
    else
      var last := ranges[|ranges| - 1];
      var found := getLogs(last.0, last.1);
      Discovered(ranges[..|ranges| - 1], getLogs, signature, timestampOf)
      + (if found.Some? && PoolsFromLogs(found.value, signature, timestampOf).Some?
         then PoolsFromLogs(found.value, signature, timestampOf).value
         else [])
  }

  /** The loop over block ranges: query each range's logs and append the pools found. */
  method FetchRanges(cached: seq<Pool>, ranges: seq<(nat, nat)>,
                     getLogs: (nat, nat) -> Option<seq<PairLog>>, signature: Hash,
                     timestampOf: nat -> Option<nat>)
    returns (all: seq<Pool>)
    ensures all == cached + Discovered(ranges, getLogs, signature, timestampOf)
  {
    all := cached;
    for k := 0 to |ranges|
      invariant all == cached + Discovered(ranges[..k], getLogs, signature, timestampOf)
    {
      assert ranges[..k + 1][..k] == ranges[..k];
      var found := getLogs(ranges[k].0, ranges[k].1);
      if found.Some? {
        var discovered := LoadUniswapV2Pools(found.value, signature, timestampOf);
        if discovered.Some? {
          all := all + discovered.value;
        }
      }
    }
    assert ranges[..|ranges|] == ranges;
  }

  /**
   * `load_all_pools` after the cache is read: resume after the last cached
   * pool, collect new pools range by range, sort everything by block
   * (stably), number the new pools and return what is appended to the cache.
   */
  method LoadAllPools(cached: seq<Pool>, fromBlock: nat, chunk: nat, toBlock: nat,
                      getLogs: (nat, nat) -> Option<seq<PairLog>>, signature: Hash,
                      timestampOf: nat -> Option<nat>)
    returns (pools: seq<Pool>, lastId: int, written: seq<Pool>, ranges: seq<(nat, nat)>,
             ghost sorted: seq<Pool>)
    requires chunk > 0
    ensures lastId == if |cached| > 0 then cached[|cached| - 1].id else -1
    ensures |ranges| >= 1 && ranges[|ranges| - 1].1 == toBlock && Contiguous(ranges, chunk)
    ensures ranges[0].0 == if lastId != -1 then cached[|cached| - 1].blockNumber + 1 else fromBlock
    ensures Sorting.SortedBy(sorted, BlockKey)
    ensures Sorting.SameFilters(sorted, cached + Discovered(ranges, getLogs, signature, timestampOf), BlockKey)
    ensures multiset(sorted) == multiset(cached + Discovered(ranges, getLogs, signature, timestampOf))
    ensures |pools| == |sorted|
    ensures forall i :: 0 <= i < |sorted| && sorted[i].id != -1 ==> pools[i] == sorted[i]
    ensures forall i :: 0 <= i < |sorted| && sorted[i].id == -1 ==>
              pools[i] == sorted[i].(id := lastId + 1 + CountUnassigned(sorted[..i]))
    ensures written == IdsAbove(pools, lastId)
  {
    lastId := if |cached| > 0 then cached[|cached| - 1].id else -1;
    var start := if lastId != -1 then cached[|cached| - 1].blockNumber + 1 else fromBlock;
    ranges := BlockRanges(start, toBlock, chunk);
    var all := FetchRanges(cached, ranges, getLogs, signature, timestampOf);
    var byBlock := Sorting.SortByKey(all, BlockKey);
    sorted := byBlock;
    pools, written := AssignIds(byBlock, lastId);
  }
}
