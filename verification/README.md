# sandooo core, modelled in Dafny

sandooo is a sandwich bot for Uniswap V2 pairs on Ethereum. This project
models its off-chain core:

- **Start-up.** `load_all_pools` reads Uniswap V2 `PairCreated` logs block
  range by block range. It appends the new pools to a cache and gives the
  fresh ones ids. `load_all_tokens` looks up the tokens of the new pools and
  attaches pool ids to every token.
- **Strategy.** The strategy keeps the latest block, the pending
  transactions and the promising sandwiches. It also keeps a bounded history
  of the bundle ids it has sent.
- **Appetizer.** For each new pending transaction, the bot traces its Uniswap
  V2 swaps. For each buy on a watched pair it probes a small sandwich. When
  the probe is profitable, it searches for the input amount with the best
  revenue (a ten-interval grid search that narrows until it reaches a
  tolerance).
- **Main dish.** The bot collects all promising sandwiches and sorts them by
  score. It splits each main currency's balance among them in that order.
  Each prefix of the sorted plate is a batch; a batch that is new is
  simulated, priced (bribe, gas limit, priority fee) and turned into a
  bundle order.
- **Calldata.** Each sandwich leg is encoded as packed big-endian records:
  a 64-bit block number, then for each swap a direction byte, the pair, the
  input token, and the input and output amounts (32 bytes each), the output
  computed with the Uniswap V2 0.3 % fee formula.
- **Utilities.** Next-base-fee prediction, the main-currency table (WETH,
  USDT, USDC: decimals, balance slot, ranking) and main/target token
  selection.

Each Rust file is one Dafny module: `Utils`, `Pools`, `Tokens`, `Simulation`,
`Appetizer`, `MainDish`, `Strategy`. Helper modules cover the pieces the Rust
code takes from libraries:

- `Eth`: byte, address and hash types;
- `BigEndian`: fixed-width big-endian integers;
- `Text`: hex and decimal formatting and parsing, and joining strings;
- `Sorting`: a stable sort by integer key, and sorting and dedup of strings;
- `Evm`: the transaction record given to the EVM;
- `Streams`: the event types.

The outside world is passed in as function parameters:

- the EVM simulation of a batch;
- token balances;
- `eth_getLogs` per block range;
- token metadata lookup;
- the sandwich score.

Objects that the Rust code updates in place are classes:

- `Strategy.SandwichStrategy` holds the block, the pending transactions and
  the promising sandwiches;
- `MainDish.BundleHistory` is the bounded queue of bundle ids.

Loops in the source are methods with loop invariants. Each method is proved
against a specification function, and the properties are proved about those
functions.

In a few places the model follows the code rather than the documented
design:

- A type 0 or type 2 transaction is admitted again whenever its gas price
  covers the base fee. This holds whatever an earlier receipt said and
  whether or not it was seen before (`Strategy.AdmissionByPrice`).
- The early "empty result" return of `optimize` can never be taken, because
  the lower bound starts at zero.

## Model

| member | source | states |
|---|---|---|
| Utils.TargetGasUsed | src/common/utils.rs:55-60 | the gas target is half the gas limit, and at least 1 |
| Utils.AdjustmentMonotone | src/common/utils.rs:48-76 | the base-fee adjustment grows with the distance from the gas target |
| Utils.AdjustmentAtMostEighth | src/common/utils.rs:48-76 | one block changes the base fee by at most one eighth |
| Utils.NextBaseFeeBounds | src/common/utils.rs:48-76 | over target the fee rises by the adjustment, under target it falls by it (at most one eighth), at target it stays; the random 0..8 addition is always added |
| Utils.NextBaseFeeMonotone | src/common/utils.rs:48-76 | more gas used never predicts a lower next base fee |
| Utils.CurrencyOf | src/common/utils.rs:155-165 | WETH, USDT and USDC map to their own variants, and every other token to Default |
| Utils.CurrencyTable | src/common/utils.rs:167-196 | decimals 18/6/6, balance slots, and WETH ranks above USDT, which ranks above USDC; Default behaves like WETH |
| Utils.MainAndTarget | src/common/utils.rs:199-226 | no result exactly when neither token is a main currency; otherwise the main currency comes first, and of two main currencies the higher-ranked one |
| Utils.MainAndTargetSymmetric | src/common/utils.rs:199-226 | the choice does not depend on the order of the two tokens |
| Evm.TxFrom | src/common/evm.rs:43-58 | the simulated transaction copies caller, target, data, value and gas price; it takes the victim's gas limit, or the default when there is none |
| Text.Hex | src/common/pools.rs:66-77 | lower-case hex has two characters per byte |
| Text.HexAppend | src/common/pools.rs:66-77 | hex of a concatenation is the concatenation of the hexes |
| Text.ParseHexOfHex | src/common/pools.rs:46-63 | parsing hex gives back the bytes it was printed from |
| Text.HexInjective | src/common/pools.rs:66-77 | distinct byte strings print differently |
| Text.ParseAddressOfDebug | src/common/pools.rs:46-77 | an address printed with `{:?}` parses back to itself |
| Text.ParseFormatInt | src/common/pools.rs:46-77 | a decimal number in range parses back to itself |
| Text.ParseInteger | src/common/pools.rs:52-60 | a parsed field lies within its Rust type's range |
| BigEndian.DecodeEncode | src/sandwich/simulation.rs:317-319 | big-endian encoding to a width keeps the value modulo 256^width |
| BigEndian.RoundTrip | src/sandwich/simulation.rs:317-319 | a value that fits is encoded losslessly |
| BigEndian.EncodeDecode | src/sandwich/simulation.rs:363-376 | re-encoding decoded bytes gives the same bytes |
| Sorting.SortByKey | src/common/pools.rs:235 | the result is sorted by key, is a permutation of the input, and keeps the input order among equal keys (stable) |
| Sorting.SortStrings | src/sandwich/simulation.rs:277 | the result is sorted lexicographically and is a permutation of the input |
| Sorting.Dedup | src/sandwich/simulation.rs:278 | on sorted input, the result is strictly sorted and holds the same strings |
| Sorting.StrictlySortedUnique | src/sandwich/simulation.rs:277-279 | two strictly sorted lists with the same strings are equal |
| Sorting.SortedDistinctSorted | src/sandwich/simulation.rs:277-278 | sort-then-dedup gives the strictly sorted list of the input's strings |
| Sorting.SortedDistinctOfSet | src/sandwich/simulation.rs:277-278 | sort-then-dedup depends only on the set of strings |
| Sorting.LexLeTotal | src/sandwich/simulation.rs:277 | string order is total |
| Sorting.LexLeAntisymmetric | src/sandwich/simulation.rs:277 | string order is antisymmetric |
| Sorting.LexLeTransitive | src/sandwich/simulation.rs:277 | string order is transitive |
| Pools.PoolFromRecord | src/common/pools.rs:46-63 | a parsed cache row has eight fields, each in its Rust type's range; every version parses as Uniswap V2 |
| Pools.CacheRow | src/common/pools.rs:66-77 | a cache row has eight fields |
| Pools.PoolRowRoundTrip | src/common/pools.rs:46-77 | reading back a written cache row gives the same pool |
| Pools.TradesSymmetric | src/common/pools.rs:79-83 | a pool trades a pair exactly when its two tokens are that pair, in either order |
| Pools.LogToPool | src/common/pools.rs:268-303 | a log without topics, or a PairCreated log whose block timestamp cannot be fetched or that lacks topics 1 and 2, makes the task panic; another first topic or data without two words is skipped; otherwise the pool has no id, fee 300, tokens from topics 1 and 2, the log's block and that block's timestamp |
| Pools.PoolsFromLogs | src/common/pools.rs:252-307 | the pools decoded from a batch of logs, in order, each unassigned with fee 300; none at all when a log panics |
| Pools.PoolsFromLogsAborts | src/common/pools.rs:252-307 | a batch is lost exactly when one of its logs panics |
| Pools.PoolsFromLogsMembers | src/common/pools.rs:268-303 | when no log panics, the pools are exactly those the logs decode to |
| Pools.LoadUniswapV2Pools | src/common/pools.rs:252-307 | the loop, with its timestamp cache, yields exactly the pools decoded from the logs, in order, or nothing when a log panics |
| Pools.BlockRanges | src/common/pools.rs:185-197 | the ranges start at the start block, follow each other in chunk-sized steps and end at the last block |
| Pools.RangesCover | src/common/pools.rs:185-197 | every block from start to end lies in some range |
| Pools.CountUnassigned | src/common/pools.rs:234-245 | at most every pool needs a new id |
| Pools.CountUnassignedMonotone | src/common/pools.rs:234-245 | a longer prefix holds at least as many pools without ids |
| Pools.IdsAbove | src/common/pools.rs:240-244 | the written pools are exactly those with an id above the last cached id |
| Pools.AssignStep | src/common/pools.rs:234-245 | one step of id assignment keeps the loop invariant |
| Pools.AssignIds | src/common/pools.rs:234-245 | pools with ids keep them; the k-th pool without an id gets last id + k; the written list is exactly the pools above the last id |
| Pools.AssignedIdsIncrease | src/common/pools.rs:234-245 | assigned ids are above the last cached id and increase along the list |
| Pools.FetchRanges | src/common/pools.rs:209-232 | the result is the cache followed by the pools of every range, in range order; a range whose log query fails or whose task panics adds nothing |
| Pools.LoadAllPools | src/common/pools.rs:111-250 | resumes after the last cached block; the ranges cover up to the chain head; the pools are sorted by block, a stable permutation of cache plus the pools of every range that was not lost, with fresh ids assigned; only the pools new since the cache are written |
| Tokens.TokenFromRecord | src/common/tokens.rs:25-36 | a parsed row has five fields in range, keeps name and symbol, and starts with no pool ids |
| Tokens.CacheRow | src/common/tokens.rs:38-48 | a cache row has five fields |
| Tokens.TokenRowRoundTrip | src/common/tokens.rs:25-48 | reading back a written row gives the token without its pool ids |
| Tokens.ParsablePrefix | src/common/tokens.rs:79-90 | a prefix of a parsable cache is parsable |
| Tokens.CacheMapValues | src/common/tokens.rs:79-90 | each cached token is stored under its own address with no pool ids |
| Tokens.CacheMapKeys | src/common/tokens.rs:79-90 | the cached tokens are exactly the addresses in the rows |
| Tokens.ReadCache | src/common/tokens.rs:79-90 | reading the cache builds the map from the rows, and the next token id is the number of rows |
| Tokens.CandidatesMembers | src/common/tokens.rs:103-112 | the lookup candidates are exactly the tokens of pools whose id is at least the previous last pool id minus 50 |
| Tokens.DiscoverSpec | src/common/tokens.rs:101-135 | discovery keeps every known token; each new one was fetched under its address and gets a fresh id, in order; failed lookups add nothing |
| Tokens.DiscoverAppend | src/common/tokens.rs:101-135 | discovering two lists in turn is discovering their concatenation |
| Tokens.VisitPool | src/common/tokens.rs:113-134 | one pool's step discovers token0 and then token1 |
| Tokens.DiscoverTokens | src/common/tokens.rs:101-135 | the loop discovers exactly the candidate list |
| Tokens.PoolIdsOfMembers | src/common/tokens.rs:137-147 | a token's attached ids are exactly the ids of the pools that contain it |
| Tokens.AttachedKeys | src/common/tokens.rs:137-147 | attaching pool ids adds no token |
| Tokens.AttachedAt | src/common/tokens.rs:137-147 | a token receives its pools' ids, in pool order, after the ones it had |
| Tokens.AttachedSpec | src/common/tokens.rs:137-147 | the same two facts, for every token |
| Tokens.AttachPoolIds | src/common/tokens.rs:137-147 | the loop attaches exactly those ids |
| Tokens.AtOrAbove | src/common/tokens.rs:151-159 | keeps exactly the keys whose token id is at or above the first new id |
| Tokens.AtOrAboveSorted | src/common/tokens.rs:151-159 | filtering a sorted list stays sorted |
| Tokens.SortedSnoc | src/common/tokens.rs:151-159 | appending a key with the largest id keeps the list sorted |
| Tokens.AtOrAboveDistinct | src/common/tokens.rs:151-159 | filtering a list without repeats gives one without repeats |
| Tokens.MapKeys | src/common/tokens.rs:152 | collecting the map's entries lists every key exactly once |
| Tokens.TokensAtNew | src/common/tokens.rs:151-159 | the tokens under keys sorted by id are sorted by id; under the new keys they are exactly the new tokens |
| Tokens.WrittenTokens | src/common/tokens.rs:151-159 | the written tokens are sorted by id and are exactly the new tokens, each map entry written once |
| Tokens.LoadAllTokens | src/common/tokens.rs:59-164 | the result is the cache plus the discovered tokens, with pool ids attached; the new tokens are written sorted by id, each once |
| Tokens.LoadedPoolIds | src/common/tokens.rs:59-164 | every loaded token is stored under its own address and lists exactly the ids of its pools |
| Simulation.GetV2AmountOut | src/sandwich/simulation.rs:237-243 | the output never exceeds the output reserve, and zero input gives zero |
| Simulation.QuotientBelowReserve | src/sandwich/simulation.rs:237-243 | the fee-adjusted quotient lies between zero and the reserve |
| Simulation.AmountOutIsFloor | src/sandwich/simulation.rs:237-243 | the output is the largest amount that keeps the 0.3 % fee product bound |
| Simulation.AmountOutKeepsProduct | src/sandwich/simulation.rs:237-243 | after the swap, the reserves' product does not decrease |
| Simulation.AmountOutMonotone | src/sandwich/simulation.rs:237-243 | more input never gives less output |
| Simulation.ExtractLogs | src/sandwich/simulation.rs:225-235 | the logs of a call tree are its own logs followed by its children's, depth first |
| Simulation.ChildLogsContiguous | src/sandwich/simulation.rs:225-235 | each child's logs form one contiguous block of the result |
| Simulation.SwapSelectorHex | src/sandwich/simulation.rs:82 | the Swap event selector is the first four bytes of the Swap topic |
| Simulation.SelectorMatches | src/sandwich/simulation.rs:146-147 | the 10-character selector test matches exactly the topics whose first four bytes are the Swap selector |
| Simulation.Direction | src/sandwich/simulation.rs:189-203 | a swap is a buy exactly when it sells the main currency |
| Simulation.ClassifyLog | src/sandwich/simulation.rs:142-214 | a log is a swap exactly when it has the Swap selector, comes from a known pool with a main currency, and has more than one topic; the info names that pool and direction, and a short data field reads as zero amounts |
| Simulation.SwapsInSound | src/sandwich/simulation.rs:124-223 | every extracted swap comes from a log of the trace |
| Simulation.SwapsInComplete | src/sandwich/simulation.rs:124-223 | every swap log of the trace is extracted |
| Simulation.ExtractSwapInfo | src/sandwich/simulation.rs:124-223 | no trace gives no swaps; otherwise the swaps of the flattened logs, in order |
| Simulation.VictimTxHashes | src/sandwich/simulation.rs:282-287 | one hash per sandwich, in order |
| Simulation.TargetTokens | src/sandwich/simulation.rs:289-294 | one target token per sandwich, in order |
| Simulation.TargetV2PairsMembers | src/sandwich/simulation.rs:296-302 | the listed pairs are exactly the target pairs of the version 2 sandwiches |
| Simulation.TargetV2PairsAllV2 | src/sandwich/simulation.rs:296-302 | when every sandwich is version 2, there is one pair per sandwich, in order |
| Simulation.EncodeRecord | src/sandwich/simulation.rs:363-376 | a swap record is a fixed-size packed record |
| Simulation.Calldata | src/sandwich/simulation.rs:317-319 | calldata is 8 bytes of block number plus one record per swap |
| Simulation.RecordAt | src/sandwich/simulation.rs:317-376 | record k lies at offset 8 + k·size |
| Simulation.RecordsAt | src/sandwich/simulation.rs:363-376 | record k of the packed list lies at offset k·size |
| Simulation.RecordRoundTrip | src/sandwich/simulation.rs:363-376 | decoding a record gives each field back, truncated to its packed width |
| Simulation.RecordsRoundTrip | src/sandwich/simulation.rs:363-376 | decoding the packed records gives back the list of truncated records |
| Simulation.CalldataRoundTrip | src/sandwich/simulation.rs:317-376 | decoding calldata gives back the block number mod 2^64 and the truncated records |
| Simulation.SaturatingDec | src/sandwich/simulation.rs:333-336 | subtracts one, stopping at zero |
| Simulation.FrontrunRecord | src/sandwich/simulation.rs:321-372 | the frontrun sells the main currency on the target pair, with input amountIn − 1; a V2 pair's output is the fee formula on the current reserves, others give 0 |
| Simulation.BackrunRecord | src/sandwich/simulation.rs:394-434 | the backrun sells the bot's target-token balance − 1 back on the same pair, in the opposite direction |
| Simulation.LegsOpposite | src/sandwich/simulation.rs:331 | frontrun and backrun use the same pair in opposite directions, and what the frontrun buys is what the backrun sells |
| Simulation.UniqueVictimsDistinct | src/sandwich/simulation.rs:321-326 | the victims put in front of the frontrun have distinct hashes |
| Simulation.UniqueVictimsCover | src/sandwich/simulation.rs:321-326 | every sandwich's victim is among them |
| Simulation.UniqueVictimsFromBatch | src/sandwich/simulation.rs:321-326 | each of them is the victim of some sandwich of the batch |
| Simulation.UniqueVictimsFirstSeen | src/sandwich/simulation.rs:321-326 | each victim is listed at its first occurrence in the batch, and in the order of those first occurrences |
| Simulation.McSumsKeys | src/sandwich/simulation.rs:355-361 | starting balances are kept exactly for the batch's main currencies |
| Simulation.McSumsMatchCalldata | src/sandwich/simulation.rs:355-361 | each main currency's starting balance is the sum of the frontrun inputs in that currency |
| Simulation.EncodeFrontrunTx | src/sandwich/simulation.rs:304-379 | the calldata packs the frontrun record of each sandwich; the victims are the distinct ones, in first-seen order (UniqueVictimsFirstSeen); starting balances are the per-currency sums |
| Simulation.EncodeBackrunTx | src/sandwich/simulation.rs:381-441 | the calldata packs the backrun record of each sandwich, from the balances after the victims |
| Simulation.HashPrefix | src/sandwich/simulation.rs:274 | the id part of a hash is "0x" and its first four bytes |
| Simulation.BundleId | src/sandwich/simulation.rs:269-280 | the bundle id is the sorted, deduplicated hash prefixes joined by "-" |
| Simulation.BundleIdOrderIndependent | src/sandwich/simulation.rs:269-280 | batches with the same set of victim hashes get the same id, whatever the order or repetition |
| Simulation.SimulateSandwich | src/sandwich/simulation.rs:821-862 | a failed simulation gives an empty sample; otherwise revenue, gas and calldata come from the simulation |
| Simulation.Tolerance | src/sandwich/simulation.rs:705-709 | the search stops at 10^14 for WETH and 10^3 otherwise |
| Simulation.SamplesInBracket | src/sandwich/simulation.rs:731-746 | the eleven samples ascend from the lower to the upper bound |
| Simulation.SampleAtIs | src/sandwich/simulation.rs:741-746 | the i-th sample is the lower bound plus i steps |
| Simulation.SamplesAscending | src/sandwich/simulation.rs:741-746 | the samples never decrease from one to any later one |
| Simulation.NextBracketBounds | src/sandwich/simulation.rs:793-802 | over ascending samples, the next bracket holds the best sample and ends at or below the last sample; it starts at the previous sample (so at or above the first), or at 0 when the best is the first sample |
| Simulation.SampleSetInBracket | src/sandwich/simulation.rs:733-746 | every amount sampled in a round lies between the bracket's lower and upper bound |
| Simulation.BestSample | src/sandwich/simulation.rs:769-791 | the first sample that beats the running best, and no sample beats the result |
| Simulation.SearchRound | src/sandwich/simulation.rs:733-803 | one round samples the bracket, keeps the best revenue (never lower), and the next bracket is the neighbours of the round's best sample, whose amount the new best carries when it improves |
| Simulation.RoundKeepsInv | src/sandwich/simulation.rs:724-803 | a round keeps the search invariant: every sampled amount is within the ceiling and no better than the best |
| Simulation.SearchStep | src/sandwich/simulation.rs:733-803 | a round that runs (step above the tolerance) keeps the search invariant and makes progress: the best revenue rises, or it stays and the next bracket starts at 0 and is narrower or comes from a bracket above 0 |
| Simulation.GridSearch | src/sandwich/simulation.rs:724-803 | the best revenue is that of a sampled amount within the ceiling, and no sampled amount does better; the first round samples the whole range |
| Simulation.Optimize | src/sandwich/simulation.rs:691-818 | attaches the search result with the probe's access lists; the amount stays within the ceiling and dominates every sample |
| Appetizer.VictimTxOf | src/sandwich/appetizer.rs:25-33 | the replayed victim copies the transaction; a contract creation goes to the zero address |
| Appetizer.ProbeAmount | src/sandwich/appetizer.rs:53-57 | the probe input is positive |
| Appetizer.Ceiling | src/sandwich/appetizer.rs:94-98 | the search ceiling is positive |
| Appetizer.CeilingAboveTolerance | src/sandwich/appetizer.rs:94-98 | the first step of the search over the ceiling exceeds the currency's tolerance, so the first round always samples |
| Appetizer.ProbeAndCeiling | src/sandwich/appetizer.rs:53-98 | probe 0.01 WETH or 10 USDT/USDC; ceiling 100 WETH or 300000 USDT/USDC; the probe is below the ceiling |
| Appetizer.Probe | src/sandwich/appetizer.rs:61-66 | the probe sandwich carries the swap, the victim and the probe amount |
| Appetizer.Serve | src/sandwich/appetizer.rs:43-124 | sells and unprofitable probes record nothing; a recorded sandwich is the profitable probe carrying the search result under the probe's access lists: an amount within the ceiling whose simulation gives the positive best revenue, gas and calldata, and that no first-round sample beats; a profitable buy with a first-round sample of positive revenue is always recorded. Every simulation runs without owner or bot address, on a freshly deployed bot |
| Appetizer.AppendStep | src/sandwich/appetizer.rs:116-124 | appending one sandwich at a time builds the same entry as appending them all |
| Appetizer.TrackedExtend | src/sandwich/appetizer.rs:43-124 | recording one more sandwich keeps the record of which swaps were promoted |
| Appetizer.ServeAt | src/sandwich/appetizer.rs:43-124 | serving the i-th swap extends only the victim's entry, keeps the promoted record, and keeps every recordable swap so far recorded |
| Appetizer.Appetizer | src/sandwich/appetizer.rs:14-128 | only the victim's entry changes, extended by the promoted sandwiches in swap order; every swap that must be recorded is |
| MainDish.TokenBalances | src/sandwich/main_dish.rs:18-31 | one balance per token, taken from the balance oracle (0 when it fails) |
| MainDish.BotBalancesCover | src/sandwich/main_dish.rs:85-96 | balances are kept for exactly the main currencies: U256 max in debug mode, the real balance otherwise |
| MainDish.IngredientOf | src/sandwich/main_dish.rs:101-119 | an ingredient carries the victim hash, pair, currency, optimized amount and revenue |
| MainDish.PlateMembers | src/sandwich/main_dish.rs:98-122 | the plate holds exactly the optimized sandwiches of every promising entry |
| MainDish.AddIngredients | src/sandwich/main_dish.rs:101-120 | one entry adds its ingredients in order |
| MainDish.CollectPlate | src/sandwich/main_dish.rs:98-122 | the plate lists every entry once, in the map's iteration order |
| MainDish.AllocateConserves | src/sandwich/main_dish.rs:150-170 | what is allocated plus what is left equals each currency's balance |
| MainDish.AllocateEntries | src/sandwich/main_dish.rs:150-170 | each sandwich gets the smaller of its optimal amount and what is left |
| MainDish.AllocatePrefix | src/sandwich/main_dish.rs:150-170 | allocating a prefix gives the prefix of the allocation |
| MainDish.AllocateAmple | src/sandwich/main_dish.rs:150-170 | with enough balance, every sandwich gets its optimal amount |
| MainDish.BuildBatch | src/sandwich/main_dish.rs:150-170 | the batch of the first n plate items is their allocation |
| MainDish.PushedWindow | src/sandwich/main_dish.rs:172-178 | the history keeps the last `capacity` ids and reports the one it drops |
| MainDish.BundleHistory.constructor | src/sandwich/main_dish.rs:172-178 | the history starts empty with the given capacity |
| MainDish.BundleHistory.PushBack | src/sandwich/main_dish.rs:172-178 | pushes the id and drops the oldest once full |
| MainDish.BribeBounds | src/sandwich/main_dish.rs:204-215 | no revenue, no bribe; the bribe is at most bribePct / 10000 of the revenue |
| MainDish.GasLimitBounds | src/sandwich/main_dish.rs:250-251 | the gas limit is 1.3 times the gas used, rounded down |
| MainDish.PriorityFeeBounds | src/sandwich/main_dish.rs:253-255 | the priority fee times the backrun gas never exceeds the bribe |
| MainDish.CookSpec | src/sandwich/main_dish.rs:180-255 | both simulations run with the context's owner and bot address; a failed first simulation gives no order; the bribe comes from the first simulation's revenue, the gas limits and priority fee from the second simulation's gas, and the order carries the victims (each once), both legs and the prices |
| MainDish.CookLabels | src/sandwich/main_dish.rs:180-255 | an order carries its bundle id |
| MainDish.PriceBundle | src/sandwich/main_dish.rs:180-255 | the method builds exactly that order |
| MainDish.KnownVictimsMembers | src/sandwich/main_dish.rs:287-294 | as written, the bundle's victims are the batch hashes that are still pending, with repeats |
| MainDish.RepeatedVictim | src/sandwich/main_dish.rs:287-294 | as written, a victim with two sandwiches is put in the bundle twice |
| MainDish.RepeatedHashes | src/sandwich/main_dish.rs:287-294 | [a, a, c] gives [a, a, c] as written and [a, c] corrected |
| MainDish.RepeatedSimulatedOnce | src/sandwich/simulation.rs:321-326 | the simulation puts that victim in once |
| MainDish.PickVictimsMembers | src/sandwich/main_dish.rs:287-294 | corrected: exactly the pending batch hashes |
| MainDish.PickVictimsPending | src/sandwich/main_dish.rs:287-294 | every picked hash is pending |
| MainDish.PickVictimsDistinct | src/sandwich/main_dish.rs:287-294 | corrected: each victim appears once |
| MainDish.PickVictimsMatchSimulation | src/sandwich/main_dish.rs:287-294 | corrected: when all victims are pending, the bundle's victims are those the simulation used, in the same order |
| MainDish.TxsOf | src/sandwich/main_dish.rs:287-294 | one pending transaction per picked hash |
| MainDish.KnownVictimsPending | src/sandwich/main_dish.rs:287-294 | as written, every collected hash is pending |
| MainDish.VictimTxs | src/sandwich/main_dish.rs:287-294 | as written, the loop collects the pending transaction of every sandwich's victim, repeats included |
| MainDish.KnownIsPickedWhenDistinct | src/sandwich/main_dish.rs:287-294 | on a batch without repeated victims, the loop as written and the corrected one agree |
| MainDish.DistinctVictimTxs | src/sandwich/main_dish.rs:287-294 | corrected: the loop collects each pending victim's transaction once, in batch order |
| MainDish.Prefixes | src/sandwich/main_dish.rs:141-170 | batch i holds the first i + 1 plate items |
| MainDish.RunBounded | src/sandwich/main_dish.rs:141-178 | the history never exceeds its capacity |
| MainDish.RunPrefixes | src/sandwich/main_dish.rs:141-178 | each order comes from a larger prefix than the one before |
| MainDish.RunFresh | src/sandwich/main_dish.rs:141-178 | a batch whose id is already in the history is not sent again |
| MainDish.ServeBundles | src/sandwich/main_dish.rs:141-178 | the loop's history and orders are those of the run over all prefixes |
| MainDish.ServeBatch | src/sandwich/main_dish.rs:141-178 | one step of the loop: a recently simulated batch id is skipped, otherwise the id is recorded and a priced bundle appended, which extends the run by that batch |
| MainDish.PrefixesSnoc | src/sandwich/main_dish.rs:141-178 | the batch built for a longer prefix of the plate comes after those of the shorter prefixes |
| MainDish.PlateFunded | src/sandwich/main_dish.rs:98-157 | every plate item's currency has a balance |
| MainDish.MainDish | src/sandwich/main_dish.rs:67-325 | the plate is every promising sandwich, stably sorted by descending score (ties keep their order) and funded; the bundles are the run over its prefixes, with the corrected victim list, simulated on the owner's deployed bot, or on a fresh bot without owner and bot address in debug mode |
| Strategy.FilterPools | src/sandwich/strategy.rs:36-43 | kept pools have both tokens known |
| Strategy.FilterPoolsMembers | src/sandwich/strategy.rs:36-43 | kept exactly when both tokens are known |
| Strategy.FilterPoolsAppend | src/sandwich/strategy.rs:36-43 | filtering distributes over concatenation |
| Strategy.PoolsMap | src/sandwich/strategy.rs:46-50 | every pool is indexed under its own address |
| Strategy.PoolsMapValues | src/sandwich/strategy.rs:46-50 | every indexed pool is one of the pools |
| Strategy.PoolsMapLast | src/sandwich/strategy.rs:46-50 | with duplicate addresses, the last pool wins |
| Strategy.StartupWatched | src/sandwich/strategy.rs:36-50 | every watched pool has both tokens known |
| Strategy.SandwichStrategy.constructor | src/sandwich/strategy.rs:22-82 | the strategy starts with the watched pools, the latest block and its predicted next fee, nothing pending and an empty 30-id history |
| Strategy.Admission | src/sandwich/strategy.rs:125-161 | legacy and EIP-1559 transactions are admitted when their price covers the base fee; others only when unseen with no receipt |
| Strategy.AdmissionByPrice | src/sandwich/strategy.rs:125-161 | for priced types, the admission ignores receipts and earlier sightings |
| Strategy.AdmittedPriced | src/sandwich/strategy.rs:125-161 | an admitted transaction pays at least the base fee, or is of another type, new and without a receipt, and is replayed at price 0 |
| Strategy.SwapsOfWatched | src/sandwich/strategy.rs:163-175 | every tracked swap is on a watched pair with a main currency |
| Strategy.SurvivingLifetime | src/sandwich/strategy.rs:104-121 | an unconfirmed transaction stays pending for less than 3 blocks |
| Strategy.Restrict | src/sandwich/strategy.rs:122 | promising entries of dropped transactions are removed |
| Strategy.DropConfirmed | src/sandwich/strategy.rs:104-116 | confirmed transactions leave both maps |
| Strategy.BlockTracking | src/sandwich/strategy.rs:87-123 | a new block keeps the strategy's consistency |
| Strategy.AdmitTracking | src/sandwich/strategy.rs:177-203 | admitting a transaction and its promoted sandwiches keeps the strategy's consistency |
| Strategy.SandwichStrategy.OnBlock | src/sandwich/strategy.rs:87-123 | takes the new block, drops confirmed and expired transactions and their sandwiches |
| Strategy.SandwichStrategy.OnPendingTx | src/sandwich/strategy.rs:124-225 | a rejected transaction or one without swaps changes nothing; otherwise it is tracked, its promoted sandwiches (each the search result, simulated on a fresh bot) recorded, every recordable swap among them, and the bundles are the main dish over all promising entries, simulated on the owner's bot unless debugging |

## Left out

- The sandwich score is a floating-point number in the source: the
  optimized best revenue divided by the optimized input amount, both
  converted to `f64` (main_dish.rs:101-104), with the plate then sorted by
  descending score. The model takes an integer ranking function as a
  parameter, and proves the stable sort against it.
- The EVM is a parameter: the batch simulator (with the owner, the access
  lists and the bot address it is given), token
  balances, `eth_getLogs`, token metadata lookup and the call trace of a
  pending transaction. `simulate` in simulation.rs:443-660,
  `get_token_info` and `get_token_info_multi` in tokens.rs:166-253, and
  `get_token_balance` in utils.rs:116-124 are therefore not modelled.
- `debug_trace_call` (simulation.rs:84-122) is not modelled: the trace is
  an input. Trace frames have logs and sub-calls as plain lists (absent
  means empty), and each log's address and data are present; the source
  would panic otherwise.
- Signing, bundle submission and Telegram alerts are not modelled. This
  covers `send_sando_bundle_request` (main_dish.rs:33-54),
  `create_sando_bundle`, execution.rs and alert.rs. A bundle order is the
  data the bot would send.
- Logger setup, wallet creation, access-list conversions (utils.rs:21-46,
  78-130), pretty printing, `get_touched_pools` (pools.rs:85-109) and the
  stablecoin-to-WETH conversions (simulation.rs:245-267) are not modelled.
- The file system is not modelled. CSV reading and writing become lists of
  rows; appending to a cache file is the list of rows to write.
- HashMap iteration order is unspecified in Rust. The model takes it as an
  enumeration `order` of the keys.
- The event loop that dispatches blocks and pending transactions is not
  modelled; each event is a method of `Strategy.SandwichStrategy`.
- U256 overflow is not modelled (`as_u128`, `as_u64` panics and 64-bit gas
  overflow): amounts are unbounded naturals. Packed calldata fields are
  truncated to their width as in the encoding.
- Strategy.SandwichStrategy.OnBlock: requires that block numbers do not go
  back. The source subtracts unsigned block numbers and would panic
  otherwise.
- Strategy.SandwichStrategy.OnPendingTx: requires that a simulation with a
  positive revenue reports a positive backrun gas. A failed backrun reports
  0 gas (simulation.rs:591-594), and the model allows it when the revenue is
  not positive, since such a batch is dropped first (main_dish.rs:246-248).
  With a positive revenue, the priority fee divides by that gas
  (main_dish.rs:253-254), and U256 division by zero would panic.
- MainDish.MainDish: the same requirement on the simulator, for the same reason.
- MainDish.ServeBundles: the same requirement on the simulator.
- MainDish.ServeBatch: the same requirement on the simulator.
- MainDish.CookSpec: the same requirement on the simulator.
- MainDish.CookLabels: the same requirement on the simulator.
- MainDish.PriceBundle: the same requirement on the simulator.
- MainDish.RunBounded: the same requirement on the simulator.
- MainDish.RunPrefixes: the same requirement on the simulator.
- MainDish.RunFresh: the same requirement on the simulator.
- MainDish.Cook, MainDish.CookSpec, MainDish.PriceBundle, MainDish.MainDish and
  Strategy.SandwichStrategy.OnPendingTx: a bundle lists each pending victim
  once (MainDish.DistinctVictimTxs). The source lists a victim once per
  sandwich in the batch (main_dish.rs:287-294, modelled by MainDish.VictimTxs);
  see Findings.
- Strategy.SandwichStrategy.constructor: the random part of the base-fee
  prediction is a parameter `seed` in 0..8.

## Findings

| source | as written | input that shows it | evidently intended | confidence | as-written member | corrected member |
|---|---|---|---|---|---|---|
| src/sandwich/main_dish.rs:287-294 | the bundle's victim transactions are collected from every sandwich's victim hash, repeats included, while the simulated frontrun places each victim once (simulation.rs:321-326) | a plate of three sandwiches where the first two sandwich the same victim A and the third victim B gives the bundle victims [A, A, B] against the simulated [A, B] | each victim transaction once, in the order the simulation used | not executed | MainDish.RepeatedVictim | MainDish.PickVictimsMatchSimulation |
