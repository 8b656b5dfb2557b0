/**
 * The second stage of the strategy: turn the promising sandwiches into
 * bundles. The sandwiches are ranked, then for every prefix of the ranking
 * one batch is built out of the bot's balances, skipped if a batch with the
 * same victims was simulated recently, and otherwise simulated twice (to
 * price the bribe, then with access lists) and priced into a bundle.
 */
module MainDish {
  import opened Eth
  import opened Wrappers
  import opened Utils
  import opened Streams
  import opened Simulation
  import Sorting

  // ---------------------------------------------------------------------------
  // Balances
  // ---------------------------------------------------------------------------

  /** The tokens whose balances the bot holds its capital in. */
  const BOT_TOKENS: seq<Address> := [WETH, USDT, USDC]

  /**
   * `get_token_balances`: the balance of every listed token, 0 when the
   * balance lookup fails. `balanceOf` stands for the balance query.
   */
  method TokenBalances(tokens: seq<Address>, balanceOf: Address -> Option<nat>) returns (balances: map<Address, nat>)
    ensures forall t :: t in balances <==> t in tokens
    ensures forall t :: t in balances ==> balances[t] == balanceOf(t).GetOr(0)
  {
    balances := map[];
    for i := 0 to |tokens|
      invariant forall t :: t in balances <==> t in tokens[..i]
      invariant forall t :: t in balances ==> balances[t] == balanceOf(t).GetOr(0)
    {
      assert tokens[..i + 1] == tokens[..i] + [tokens[i]];
      balances := balances[tokens[i] := balanceOf(tokens[i]).GetOr(0)];
    }
    assert tokens[..|tokens|] == tokens;
  }

  /** The balances `main_dish` starts from: unlimited funds when debugging, otherwise the queried ones. */
  function BotBalances(debug: bool, balanceOf: Address -> Option<nat>): map<Address, nat> {
    if debug then map[WETH := U256_MAX, USDT := U256_MAX, USDC := U256_MAX]
    else map t | t in BOT_TOKENS :: balanceOf(t).GetOr(0)
  }

  /**
   * Both ways of obtaining the balances cover exactly the three main
   * currencies; in debug mode each holds `U256::MAX`.
   */
  lemma BotBalancesCover(debug: bool, balanceOf: Address -> Option<nat>, token: Address)
    ensures token in BotBalances(debug, balanceOf) <==> IsMainCurrency(token)
    ensures debug && IsMainCurrency(token) ==> BotBalances(debug, balanceOf)[token] == U256_MAX
    ensures !debug && IsMainCurrency(token) ==> BotBalances(debug, balanceOf)[token] == balanceOf(token).GetOr(0)
  {
  }

  // ---------------------------------------------------------------------------
  // The plate
  // ---------------------------------------------------------------------------

  /** `Ingredients` without the floating-point score. */
  datatype Ingredient = Ingredient(
    txHash: Hash,
    pair: Address,
    mainCurrency: Address,
    amountIn: nat,
    maxRevenue: nat,
    sandwich: Sandwich)

  /**
   * One promising sandwich on the plate: its best input and revenue, and a
   * clean copy of it whose input is the best input and which no longer
   * carries the search result.
   */
  function IngredientOf(txHash: Hash, s: Sandwich): (x: Ingredient)
    requires s.optimizedSandwich.Some?
    ensures x.txHash == txHash && x.pair == s.swapInfo.targetPair && x.mainCurrency == s.swapInfo.mainCurrency
    ensures x.amountIn == s.optimizedSandwich.value.amountIn && x.maxRevenue == s.optimizedSandwich.value.maxRevenue
    ensures x.sandwich == s.(amountIn := x.amountIn, optimizedSandwich := None)
  {
    var opt := s.optimizedSandwich.value;
    Ingredient(txHash, s.swapInfo.targetPair, s.swapInfo.mainCurrency, opt.amountIn, opt.maxRevenue,
               Sandwich(opt.amountIn, s.swapInfo, s.victimTx, None))
  }

  /** Every recorded sandwich carries a search result. */
  predicate Optimized(promising: map<Hash, seq<Sandwich>>) {
    forall h, k :: h in promising && 0 <= k < |promising[h]| ==> promising[h][k].optimizedSandwich.Some?
  }

  /** The ingredients of one victim's sandwiches, in recorded order. */
  function IngredientsOf(txHash: Hash, ss: seq<Sandwich>): (r: seq<Ingredient>)
    requires forall k :: 0 <= k < |ss| ==> ss[k].optimizedSandwich.Some?
    ensures |r| == |ss|
  {
    seq(|ss|, k requires 0 <= k < |ss| => IngredientOf(txHash, ss[k]))
  }

  /** `order` lists every key of `promising` once: the order in which the map is iterated. */
  ghost predicate Enumerates(order: seq<Hash>, promising: map<Hash, seq<Sandwich>>) {
    && (forall h :: h in order <==> h in promising)
    && (forall i, j :: 0 <= i < j < |order| ==> order[i] != order[j])
  }

  /** The plate built by iterating the map in the order `order`. */
  function PlateOf(promising: map<Hash, seq<Sandwich>>, order: seq<Hash>): seq<Ingredient>
    requires Optimized(promising)
    requires forall h :: h in order ==> h in promising
  {
    if order == [] then []
    else
      var h := order[|order| - 1];
      PlateOf(promising, order[..|order| - 1]) + IngredientsOf(h, promising[h])
  }

  /** `x` is the ingredient of some recorded sandwich of a victim listed in `order`. */
  ghost predicate Listed(promising: map<Hash, seq<Sandwich>>, order: seq<Hash>, x: Ingredient)
    requires Optimized(promising)
    requires forall h :: h in order ==> h in promising
  {
    exists h, k :: h in order && 0 <= k < |promising[h]| && x == IngredientOf(h, promising[h][k])
  }

  /** What lies on the plate: exactly one ingredient per recorded sandwich of the listed victims. */
  lemma {:induction false} PlateMembers(promising: map<Hash, seq<Sandwich>>, order: seq<Hash>, x: Ingredient)
    requires Optimized(promising)
    requires forall h :: h in order ==> h in promising
    ensures x in PlateOf(promising, order) <==> Listed(promising, order, x)
  {
    if order != [] {
      var init := order[..|order| - 1];
      var h := order[|order| - 1];
      PlateMembers(promising, init, x);
      var own := IngredientsOf(h, promising[h]);
      assert PlateOf(promising, order) == PlateOf(promising, init) + own;
      if x in own {
        var k :| 0 <= k < |own| && own[k] == x;
        assert h in order && x == IngredientOf(h, promising[h][k]);
      }
      if Listed(promising, order, x) {
        var g, k :| g in order && 0 <= k < |promising[g]| && x == IngredientOf(g, promising[g][k]);
        if g == h {
          assert own[k] == x;
        } else {
          assert g in init;
        }
      }
    }
  }

  /** The inner loop of the plate: one ingredient per sandwich of a victim. */
  method AddIngredients(plate: seq<Ingredient>, txHash: Hash, ss: seq<Sandwich>) returns (plate': seq<Ingredient>)
    requires forall k :: 0 <= k < |ss| ==> ss[k].optimizedSandwich.Some?
    ensures plate' == plate + IngredientsOf(txHash, ss)
  {
    plate' := plate;
    for k := 0 to |ss|
      invariant plate' == plate + IngredientsOf(txHash, ss)[..k]
    {
      assert IngredientsOf(txHash, ss)[..k + 1] == IngredientsOf(txHash, ss)[..k] + [IngredientOf(txHash, ss[k])];
      plate' := plate' + [IngredientOf(txHash, ss[k])];
    }
    assert IngredientsOf(txHash, ss)[..|ss|] == IngredientsOf(txHash, ss);
  }

  /**
   * The plate loop: every recorded sandwich becomes an ingredient, victim by
   * victim in the map's iteration order (`order`, which the map chooses).
   */
  method CollectPlate(promising: map<Hash, seq<Sandwich>>) returns (plate: seq<Ingredient>, ghost order: seq<Hash>)
    requires Optimized(promising)
    ensures Enumerates(order, promising)
    ensures plate == PlateOf(promising, order)
  {
    plate, order := [], [];
    var rest := promising.Keys;
    while rest != {}
      invariant rest <= promising.Keys
      invariant forall h :: h in order <==> h in promising && h !in rest
      invariant forall i, j :: 0 <= i < j < |order| ==> order[i] != order[j]
      invariant plate == PlateOf(promising, order)
      decreases rest
    {
      var h :| h in rest;
      plate := AddIngredients(plate, h, promising[h]);
      assert (order + [h])[..|order|] == order;
      order := order + [h];
      rest := rest - {h};
    }
  }

  /** The ranking key: the plate is sorted by descending score. */
  function Descending(score: Ingredient -> int): Ingredient -> int {
    x => -score(x)
  }

  // ---------------------------------------------------------------------------
  // Allocating balances to a prefix of the plate
  // ---------------------------------------------------------------------------

  /** Every ingredient's main currency has a balance (the lookup would panic otherwise). */
  predicate Funded(plate: seq<Ingredient>, balances: map<Address, nat>) {
    forall k :: 0 <= k < |plate| ==> plate[k].mainCurrency in balances
  }

  function Min(a: nat, b: nat): nat {
    if a <= b then a else b
  }

  /**
   * The inner loop of `main_dish` over a prefix: each ingredient in turn
   * gets the smaller of its best input and what is left of its main
   * currency, which is reduced by that much. The final sandwiches and the
   * balances left.
   */
  function Allocate(plate: seq<Ingredient>, balances: map<Address, nat>): (r: (seq<Sandwich>, map<Address, nat>))
    requires Funded(plate, balances)
    ensures |r.0| == |plate| && r.1.Keys == balances.Keys
  {
    if plate == [] then ([], balances)
    else
      var x := plate[|plate| - 1];
      var (done, left) := Allocate(plate[..|plate| - 1], balances);
      var amount := Min(left[x.mainCurrency], x.amountIn);
      (done + [x.sandwich.(amountIn := amount)], left[x.mainCurrency := left[x.mainCurrency] - amount])
  }

  /** What the final sandwiches put in through currency `c`. */
  function Spent(plate: seq<Ingredient>, done: seq<Sandwich>, c: Address): nat
    requires |done| == |plate|
  {
    if plate == [] then 0
    else
      Spent(plate[..|plate| - 1], done[..|done| - 1], c)
      + (if plate[|plate| - 1].mainCurrency == c then done[|done| - 1].amountIn else 0)
  }

  /** What the ingredients of the plate would put in through `c` at their best inputs. */
  function Wanted(plate: seq<Ingredient>, c: Address): nat {
    if plate == [] then 0
    else Wanted(plate[..|plate| - 1], c) + (if plate[|plate| - 1].mainCurrency == c then plate[|plate| - 1].amountIn else 0)
  }

  /**
   * The balance of every currency is conserved: what the batch spends in it
   * plus what is left equals the starting balance, so no balance goes
   * negative and no batch spends more than the bot holds.
   */
  lemma {:induction false} AllocateConserves(plate: seq<Ingredient>, balances: map<Address, nat>, c: Address)
    requires Funded(plate, balances) && c in balances
    ensures var r := Allocate(plate, balances);
            Spent(plate, r.0, c) + r.1[c] == balances[c]
  {
    if plate != [] {
      var init := plate[..|plate| - 1];
      AllocateConserves(init, balances, c);
      var r := Allocate(plate, balances);
      assert r.0[..|r.0| - 1] == Allocate(init, balances).0;
    }
  }

  /**
   * Each final sandwich is the ingredient's clean sandwich with an input of
   * at most the best input.
   */
  lemma {:induction false} AllocateEntries(plate: seq<Ingredient>, balances: map<Address, nat>, k: nat)
    requires Funded(plate, balances) && k < |plate|
    ensures var s := Allocate(plate, balances).0[k];
            s == plate[k].sandwich.(amountIn := s.amountIn) && s.amountIn <= plate[k].amountIn
  {
    if k < |plate| - 1 {
      AllocateEntries(plate[..|plate| - 1], balances, k);
    }
  }

  /** Allocating a prefix of the plate gives the prefix of the allocation: later ingredients do not affect earlier ones. */
  lemma {:induction false} AllocatePrefix(plate: seq<Ingredient>, balances: map<Address, nat>, n: nat)
    requires Funded(plate, balances) && n <= |plate|
    ensures Funded(plate[..n], balances)
    ensures Allocate(plate[..n], balances).0 == Allocate(plate, balances).0[..n]
  {
    if n < |plate| {
      var init := plate[..|plate| - 1];
      AllocatePrefix(init, balances, n);
      assert init[..n] == plate[..n];
    } else {
      assert plate[..n] == plate;
    }
  }

  /** With enough of every currency for the whole plate, every sandwich gets its best input. */
  lemma {:induction false} AllocateAmple(plate: seq<Ingredient>, balances: map<Address, nat>)
    requires Funded(plate, balances)
    requires forall c :: c in balances ==> Wanted(plate, c) <= balances[c]
    ensures forall k :: 0 <= k < |plate| ==> Allocate(plate, balances).0[k].amountIn == plate[k].amountIn
    ensures forall c :: c in balances ==> Allocate(plate, balances).1[c] == balances[c] - Wanted(plate, c)
  {
    if plate != [] {
      var init := plate[..|plate| - 1];
      var x := plate[|plate| - 1];
      forall c | c in balances ensures Wanted(init, c) <= balances[c] {
        assert Wanted(plate, c) == Wanted(init, c) + (if x.mainCurrency == c then x.amountIn else 0);
      }
      AllocateAmple(init, balances);
      var r := Allocate(plate, balances);
      forall k | 0 <= k < |plate| ensures r.0[k].amountIn == plate[k].amountIn {
        if k < |init| {
          assert r.0[k] == Allocate(init, balances).0[k];
        }
      }
    }
  }

  /** The inner loop of `main_dish`: a fresh copy of the balances, then one final sandwich per ingredient of the prefix. */
  method BuildBatch(plate: seq<Ingredient>, n: nat, botBalances: map<Address, nat>) returns (batch: BatchSandwich)
    requires n <= |plate| && Funded(plate, botBalances)
    ensures Funded(plate[..n], botBalances)
    ensures batch.sandwiches == Allocate(plate[..n], botBalances).0
  {
    var balances := botBalances;
    var sandwiches: seq<Sandwich> := [];
    AllocatePrefix(plate, botBalances, n);
    for j := 0 to n
      invariant Funded(plate[..j], botBalances)
      invariant (sandwiches, balances) == Allocate(plate[..j], botBalances)
    {
      assert plate[..j + 1][..j] == plate[..j];
      AllocatePrefix(plate, botBalances, j + 1);
      var ingredient := plate[j];
      var balance := balances[ingredient.mainCurrency];
      var amountIn := Min(balance, ingredient.amountIn);
      var finalSandwich := ingredient.sandwich.(amountIn := amountIn);
      balances := balances[ingredient.mainCurrency := balance - amountIn];
      sandwiches := sandwiches + [finalSandwich];
    }
    batch := BatchSandwich(sandwiches);
  }

  // ---------------------------------------------------------------------------
  // The history of simulated bundle ids
  // ---------------------------------------------------------------------------

  /** The deque after `push_back(id)`: full deques drop their oldest id; a deque of capacity 0 keeps nothing. */
  function Pushed(ids: seq<string>, capacity: nat, id: string): seq<string> {
    if capacity == 0 then ids
    else if |ids| >= capacity && ids != [] then ids[1..] + [id]
    else ids + [id]
  }

  /** What `push_back(id)` returns: the dropped oldest id, or the id itself when the capacity is 0. */
  function Displaced(ids: seq<string>, capacity: nat, id: string): Option<string> {
    if capacity == 0 then Some(id)
    else if |ids| >= capacity && ids != [] then Some(ids[0])
    else None
  }

  /**
   * Pushing keeps the deque within its capacity, leaves it holding the most
   * recent ids of `ids + [id]`, with `id` last, and loses only the id it
   * returns.
   */
  lemma PushedWindow(ids: seq<string>, capacity: nat, id: string)
    requires |ids| <= capacity
    ensures var r := Pushed(ids, capacity, id);
            && |r| <= capacity
            && (capacity > 0 ==> |r| == Min(capacity, |ids| + 1) && r == (ids + [id])[|ids| + 1 - |r|..])
            && (capacity > 0 ==> id in r && r[|r| - 1] == id)
            && (Displaced(ids, capacity, id).Some? ==> [Displaced(ids, capacity, id).value] + r == ids + [id])
            && (Displaced(ids, capacity, id).None? ==> r == ids + [id])
  {
    var r := Pushed(ids, capacity, id);
    if capacity > 0 && |ids| >= capacity {
      assert (ids + [id])[|ids| + 1 - |r|..] == ids[1..] + [id];
      assert [ids[0]] + (ids[1..] + [id]) == ids + [id];
    } else if capacity > 0 {
      assert (ids + [id])[0..] == ids + [id];
    }
  }

  /** `simulated_bundle_ids`: a `BoundedVecDeque` of the ids of recently simulated batches. */
  class BundleHistory {
    var ids: seq<string>
    const capacity: nat

    ghost predicate Valid()
      reads this
    {
      |ids| <= capacity
    }

    /** `BoundedVecDeque::new(capacity)`. */
    constructor(capacity: nat)
      ensures Valid() && this.capacity == capacity && ids == []
    {
      this.capacity := capacity;
      ids := [];
    }

    predicate Contains(id: string)
      reads this
    {
      id in ids
    }

    /** `push_back(id)`. */
    method PushBack(id: string) returns (displaced: Option<string>)
      requires Valid()
      modifies this
      ensures Valid()
      ensures ids == Pushed(old(ids), capacity, id)
      ensures displaced == Displaced(old(ids), capacity, id)
    {
      PushedWindow(ids, capacity, id);
      if capacity == 0 {
        return Some(id);
      }
      displaced := None;
      if |ids| == capacity {
        displaced := Some(ids[0]);
        ids := ids[1..];
      }
      ids := ids + [id];
    }
  }

  // ---------------------------------------------------------------------------
  // Bribe, gas limits and fees
  // ---------------------------------------------------------------------------

  /** The bribe: `bribe_pct` hundredths of a percent of a positive revenue, otherwise nothing. */
  function BribeAmount(revenue: int, bribePct: nat): nat {
    if revenue > 0 then revenue * bribePct / 10000 else 0
  }

  /** The bribe is the revenue scaled by `bribePct / 10000`, rounded down, and never exceeds the revenue when the share is at most 100%. */
  lemma BribeBounds(revenue: int, bribePct: nat)
    ensures revenue <= 0 ==> BribeAmount(revenue, bribePct) == 0
    ensures revenue > 0 ==> BribeAmount(revenue, bribePct) * 10000 <= revenue * bribePct
                            < (BribeAmount(revenue, bribePct) + 1) * 10000
    ensures revenue > 0 && bribePct <= 10000 ==> BribeAmount(revenue, bribePct) <= revenue
  {
    if revenue > 0 && bribePct <= 10000 {
      Arith.MulMonotone(revenue, bribePct, 10000);
      Arith.DivMonotone(revenue * bribePct, revenue * 10000, 10000);
    }
  }

  /** A gas limit 30% above the gas used, rounded down. */
  function GasLimit(gasUsed: nat): nat {
    gasUsed * 13 / 10
  }

  lemma GasLimitBounds(gasUsed: nat)
    ensures gasUsed <= GasLimit(gasUsed)
    ensures GasLimit(gasUsed) * 10 <= gasUsed * 13 < GasLimit(gasUsed) * 10 + 10
  {
  }

  /** The back-run gas the bribe is spread over: 5% above the gas used, rounded down. */
  function RealisticBackGas(backGasUsed: nat): nat {
    backGasUsed * 105 / 100
  }

  /** The priority fee per gas that pays the bribe over the realistic back-run gas. */
  function PriorityFee(bribe: nat, backGasUsed: nat): nat
    requires backGasUsed > 0
  {
    bribe / RealisticBackGas(backGasUsed)
  }

  /**
   * The realistic gas is positive whenever gas was used, and the priority
   * fee is the largest per-gas fee whose total over it stays within the bribe.
   */
  lemma PriorityFeeBounds(bribe: nat, backGasUsed: nat)
    requires backGasUsed > 0
    ensures backGasUsed <= RealisticBackGas(backGasUsed)
    ensures PriorityFee(bribe, backGasUsed) * RealisticBackGas(backGasUsed) <= bribe
            < (PriorityFee(bribe, backGasUsed) + 1) * RealisticBackGas(backGasUsed)
  {
    var g := RealisticBackGas(backGasUsed);
    Arith.DivLowerBound(backGasUsed * 105, 100, backGasUsed);
    Arith.FloorQuotient(bribe, g, bribe);
  }

  // ---------------------------------------------------------------------------
  // Victim transactions of a bundle
  // ---------------------------------------------------------------------------

  /**
   * The victim loop as written: for every sandwich's victim hash, in batch
   * order, the pending transaction if it is still pending. A victim with
   * two sandwiches in the batch is listed twice.
   */
  function KnownVictims(hashes: seq<Hash>, pending: map<Hash, PendingTxInfo>): seq<Hash> {
    if hashes == [] then []
    else
      var h := hashes[|hashes| - 1];
      KnownVictims(hashes[..|hashes| - 1], pending) + (if h in pending then [h] else [])
  }

  /** The listed victims are the batch's victims that are still pending. */
  lemma {:induction false} KnownVictimsMembers(hashes: seq<Hash>, pending: map<Hash, PendingTxInfo>, h: Hash)
    ensures h in KnownVictims(hashes, pending) <==> h in hashes && h in pending
  {
    if hashes != [] {
      KnownVictimsMembers(hashes[..|hashes| - 1], pending, h);
      assert hashes == hashes[..|hashes| - 1] + [hashes[|hashes| - 1]];
    }
  }

  /**
   * A batch whose first two sandwiches share a pending victim, as happens
   * when the victim buys through two pairs: the bundle lists that victim
   * twice, while the simulated front-run lists it once.
   */
  lemma RepeatedVictim(s1: Sandwich, s2: Sandwich, s3: Sandwich, pending: map<Hash, PendingTxInfo>)
    requires s1.victimTx == s2.victimTx && s1.victimTx.txHash != s3.victimTx.txHash
    requires s1.victimTx.txHash in pending && s3.victimTx.txHash in pending
    ensures var b := BatchSandwich([s1, s2, s3]);
            var a, c := s1.victimTx.txHash, s3.victimTx.txHash;
            && KnownVictims(VictimTxHashes(b), pending) == [a, a, c]
            && UniqueVictims(b.sandwiches) == [s1.victimTx, s3.victimTx]
            && PickVictims(VictimTxHashes(b), pending) == [a, c]
  {
    var b := BatchSandwich([s1, s2, s3]);
    var a, c := s1.victimTx.txHash, s3.victimTx.txHash;
    assert VictimTxHashes(b) == [a, a, c];
    RepeatedHashes(a, c, pending);
    RepeatedSimulatedOnce(s1, s2, s3);
  }

  lemma RepeatedHashes(a: Hash, c: Hash, pending: map<Hash, PendingTxInfo>)
    requires a != c && a in pending && c in pending
    ensures KnownVictims([a, a, c], pending) == [a, a, c]
    ensures PickVictims([a, a, c], pending) == [a, c]
  {
    var one, two, three: seq<Hash> := [a], [a, a], [a, a, c];
    assert one[..0] == [] && two[..1] == one && three[..2] == two;
    assert KnownVictims(one, pending) == one;
    assert KnownVictims(two, pending) == two;
    assert KnownVictims(three, pending) == three;
    assert PickVictims(one, pending) == one;
    assert PickVictims(two, pending) == one;
    assert c !in one;
    assert PickVictims(three, pending) == one + [c];
  }

  lemma RepeatedSimulatedOnce(s1: Sandwich, s2: Sandwich, s3: Sandwich)
    requires s1.victimTx == s2.victimTx && s1.victimTx.txHash != s3.victimTx.txHash
    ensures UniqueVictims([s1, s2, s3]) == [s1.victimTx, s3.victimTx]
  {
    var v1, v3 := s1.victimTx, s3.victimTx;
    assert [s1, s2, s3][..2] == [s1, s2] && [s1, s2][..1] == [s1] && [s1][..0] == [];
    assert VictimHashSet([]) == {};
    assert UniqueVictims([s1]) == [v1];
    VictimHashSetAppend([], v1);
    assert [] + [v1] == [v1];
    assert VictimHashSet([v1]) == {v1.txHash};
    assert UniqueVictims([s1, s2]) == [v1];
  }

  /**
   * The victim loop, each victim once: the pending victims of the batch at
   * their first occurrence, matching the victims of the simulated front-run.
   */
  function PickVictims(hashes: seq<Hash>, pending: map<Hash, PendingTxInfo>): seq<Hash> {
    if hashes == [] then []
    else
      var h := hashes[|hashes| - 1];
      var prev := PickVictims(hashes[..|hashes| - 1], pending);
      if h in pending && h !in prev then prev + [h] else prev
  }

  /** Exactly the batch's pending victims are listed. */
  lemma {:induction false} PickVictimsMembers(hashes: seq<Hash>, pending: map<Hash, PendingTxInfo>, h: Hash)
    ensures h in PickVictims(hashes, pending) <==> h in hashes && h in pending
  {
    if hashes != [] {
      PickVictimsMembers(hashes[..|hashes| - 1], pending, h);
      assert hashes == hashes[..|hashes| - 1] + [hashes[|hashes| - 1]];
    }
  }

  lemma PickVictimsPending(hashes: seq<Hash>, pending: map<Hash, PendingTxInfo>)
    ensures forall h :: h in PickVictims(hashes, pending) ==> h in pending
  {
    forall h | h in PickVictims(hashes, pending) ensures h in pending {
      PickVictimsMembers(hashes, pending, h);
    }
  }

  /** No victim is listed twice. */
  lemma {:induction false} PickVictimsDistinct(hashes: seq<Hash>, pending: map<Hash, PendingTxInfo>)
    ensures Sorting.Distinct(PickVictims(hashes, pending))
  {
    if hashes != [] {
      var prev := PickVictims(hashes[..|hashes| - 1], pending);
      var h := hashes[|hashes| - 1];
      PickVictimsDistinct(hashes[..|hashes| - 1], pending);
      if h in pending && h !in prev {
        var r := prev + [h];
        forall i, j | 0 <= i < j < |r| ensures r[i] != r[j] {
          assert r[i] == prev[i];
          if j == |prev| {
            assert r[j] == h;
            assert prev[i] in prev;
          } else {
            assert r[j] == prev[j];
          }
        }
        assert PickVictims(hashes, pending) == r;
      }
    }
  }

  /** With every victim pending, the listed victims are those of the simulated front-run, in the same order. */
  lemma {:induction false} PickVictimsMatchSimulation(ss: seq<Sandwich>, pending: map<Hash, PendingTxInfo>)
    requires forall k :: 0 <= k < |ss| ==> ss[k].victimTx.txHash in pending
    ensures var vs := UniqueVictims(ss);
            var r := PickVictims(VictimTxHashes(BatchSandwich(ss)), pending);
            |r| == |vs| && forall i :: 0 <= i < |r| ==> r[i] == vs[i].txHash
  {
    if ss != [] {
      var init := ss[..|ss| - 1];
      var hs := VictimTxHashes(BatchSandwich(ss));
      assert hs[..|hs| - 1] == VictimTxHashes(BatchSandwich(init));
      PickVictimsMatchSimulation(init, pending);
      var prev := PickVictims(hs[..|hs| - 1], pending);
      var vs := UniqueVictims(init);
      var h := ss[|ss| - 1].victimTx.txHash;
      assert h in prev <==> h in VictimHashSet(vs) by {
        if h in prev {
          var i :| 0 <= i < |prev| && prev[i] == h;
          assert vs[i].txHash == h;
        }
        if h in VictimHashSet(vs) {
          var i :| 0 <= i < |vs| && vs[i].txHash == h;
          assert prev[i] == h;
        }
      }
    }
  }

  /** On a batch whose victims are all different, the loop as written and the corrected one agree. */
  lemma {:induction false} KnownIsPickedWhenDistinct(hashes: seq<Hash>, pending: map<Hash, PendingTxInfo>)
    requires Sorting.Distinct(hashes)
    ensures KnownVictims(hashes, pending) == PickVictims(hashes, pending)
  {
    if hashes != [] {
      var init := hashes[..|hashes| - 1];
      var h := hashes[|hashes| - 1];
      assert Sorting.Distinct(init);
      KnownIsPickedWhenDistinct(init, pending);
      PickVictimsMembers(init, pending, h);
      assert h !in init;
    }
  }

  /** The pending transactions of the listed victims. */
  function TxsOf(hashes: seq<Hash>, pending: map<Hash, PendingTxInfo>): (r: seq<Transaction>)
    requires forall h :: h in hashes ==> h in pending
    ensures |r| == |hashes|
    ensures forall i :: 0 <= i < |r| ==> r[i] == pending[hashes[i]].pendingTx.tx
  {
    seq(|hashes|, i requires 0 <= i < |hashes| => pending[hashes[i]].pendingTx.tx)
  }

  lemma KnownVictimsPending(hashes: seq<Hash>, pending: map<Hash, PendingTxInfo>)
    ensures forall h :: h in KnownVictims(hashes, pending) ==> h in pending
  {
    forall h | h in KnownVictims(hashes, pending) ensures h in pending {
      KnownVictimsMembers(hashes, pending, h);
    }
  }

  /**
   * The victim loop of `main_dish` as written: the pending transaction of
   * every sandwich's victim, in batch order, skipping victims no longer
   * pending; a victim with several sandwiches in the batch is listed as
   * many times.
   */
  method VictimTxs(batch: BatchSandwich, pending: map<Hash, PendingTxInfo>) returns (txs: seq<Transaction>)
    ensures forall h :: h in KnownVictims(VictimTxHashes(batch), pending) ==> h in pending
    ensures txs == TxsOf(KnownVictims(VictimTxHashes(batch), pending), pending)
  {
    var hashes := VictimTxHashes(batch);
    ghost var known: seq<Hash> := [];
    txs := [];
    for i := 0 to |hashes|
      invariant known == KnownVictims(hashes[..i], pending)
      invariant forall h :: h in known ==> h in pending
      invariant txs == TxsOf(known, pending)
    {
      assert hashes[..i + 1][..i] == hashes[..i];
      var txHash := hashes[i];
      if txHash in pending {
        known := known + [txHash];
        txs := txs + [pending[txHash].pendingTx.tx];
      }
    }
    assert hashes[..|hashes|] == hashes;
  }

  /** The victims' pending transactions, in batch order, each victim once. */
  method DistinctVictimTxs(batch: BatchSandwich, pending: map<Hash, PendingTxInfo>) returns (txs: seq<Transaction>)
    ensures forall h :: h in PickVictims(VictimTxHashes(batch), pending) ==> h in pending
    ensures txs == TxsOf(PickVictims(VictimTxHashes(batch), pending), pending)
  {
    var hashes := VictimTxHashes(batch);
    var picked: seq<Hash> := [];
    txs := [];
    for i := 0 to |hashes|
      invariant picked == PickVictims(hashes[..i], pending)
      invariant forall h :: h in picked ==> h in pending
      invariant txs == TxsOf(picked, pending)
    {
      assert hashes[..i + 1][..i] == hashes[..i];
      var txHash := hashes[i];
      if txHash in pending && txHash !in picked {
        picked := picked + [txHash];
        txs := txs + [pending[txHash].pendingTx.tx];
      }
    }
    assert hashes[..|hashes|] == hashes;
  }

  // ---------------------------------------------------------------------------
  // Simulating and pricing one batch
  // ---------------------------------------------------------------------------

  /**
   * A simulation that succeeds with a positive revenue reports some back-run
   * gas: the priority fee of such a batch divides by it. A failed back-run
   * reports no gas, and that is allowed whenever the revenue is not positive.
   */
  ghost predicate GasReported(simulate: Simulator) {
    forall b, owner, front, back, bot ::
      simulate(b, owner, front, back, bot).Some? && simulate(b, owner, front, back, bot).value.revenue > 0 ==>
        simulate(b, owner, front, back, bot).value.backGasUsed > 0
  }

  /**
   * What `main_dish` hands to `create_sando_bundle` for one batch, with the
   * id the batch was recorded under, the batch and the bribe.
   */
  datatype BundleOrder = BundleOrder(
    bundleId: string,
    batch: BatchSandwich,
    victimTxs: seq<Transaction>,
    frontCalldata: Bytes,
    backCalldata: Bytes,
    frontAccessList: AccessList,
    backAccessList: AccessList,
    frontGasLimit: nat,
    backGasLimit: nat,
    baseFee: nat,
    maxPriorityFeePerGas: nat,
    maxFeePerGas: nat,
    bribe: nat)

  /**
   * What stays fixed during one call of `main_dish`: the base fee of the
   * next block, the bribe share in hundredths of a percent, the pending
   * transactions, the EVM simulation at the next block with that fee, and
   * the owner and bot address both simulations of a batch run with.
   */
  datatype BundleContext = BundleContext(
    baseFee: nat,
    bribePct: nat,
    pending: map<Hash, PendingTxInfo>,
    simulate: Simulator,
    owner: Option<Address>,
    bot: Option<Address>)

  /**
   * The context of one call of `main_dish`: in debug mode the batches are
   * simulated without owner and bot address, on a freshly deployed bot;
   * otherwise on the owner's deployed bot.
   */
  function DishContext(newBlock: NewBlock, bribePct: nat, pending: map<Hash, PendingTxInfo>, simulate: Simulator,
                       debug: bool, owner: Address, botAddress: Address): BundleContext
  {
    if debug then BundleContext(newBlock.nextBaseFee, bribePct, pending, simulate, None, None)
    else BundleContext(newBlock.nextBaseFee, bribePct, pending, simulate, Some(owner), Some(botAddress))
  }

  /** The bribe priced by the first simulation, without access lists; 0 when it fails. */
  function FirstBribe(batch: BatchSandwich, ctx: BundleContext): nat {
    var first := ctx.simulate(batch, ctx.owner, None, None, ctx.bot);
    if first.Some? then BribeAmount(first.value.revenue, ctx.bribePct) else 0
  }

  /**
   * The two simulations of a fresh batch and the bundle they price: none
   * when the bribe comes out as 0 or the second simulation, with the first
   * one's access lists, fails or makes no revenue.
   */
  function Cook(batch: BatchSandwich, id: string, ctx: BundleContext): Option<BundleOrder>
    requires GasReported(ctx.simulate)
  {
    var bribe := FirstBribe(batch, ctx);
    if bribe == 0 then None
    else
      var first := ctx.simulate(batch, ctx.owner, None, None, ctx.bot).value;
      var second := ctx.simulate(batch, ctx.owner, Some(first.frontAccessList), Some(first.backAccessList), ctx.bot);
      if second.None? || second.value.revenue <= 0 then None
      else
        var s := second.value;
        var priority := PriorityFee(bribe, s.backGasUsed);
        var victims := PickVictims(VictimTxHashes(batch), ctx.pending);
        PickVictimsPending(VictimTxHashes(batch), ctx.pending);
        Some(BundleOrder(id, batch, TxsOf(victims, ctx.pending), s.frontCalldata, s.backCalldata,
                         s.frontAccessList, s.backAccessList, GasLimit(s.frontGasUsed), GasLimit(s.backGasUsed),
                         ctx.baseFee, priority, ctx.baseFee + priority, bribe))
  }

  /**
   * A batch becomes a bundle exactly when the first simulation succeeds
   * with a revenue whose share is a positive bribe and the second succeeds
   * with a positive revenue. The bundle then carries the second run's
   * calldata and access lists, gas limits at least the gas used, a bribe
   * within the first revenue (for a share up to 100%), a priority fee that
   * spreads the bribe over the realistic back-run gas, a maximum fee of the
   * base fee plus that, and each pending victim once.
   */
  lemma CookSpec(batch: BatchSandwich, id: string, ctx: BundleContext)
    requires GasReported(ctx.simulate)
    ensures var first := ctx.simulate(batch, ctx.owner, None, None, ctx.bot);
            Cook(batch, id, ctx).Some? <==>
              && first.Some? && first.value.revenue > 0
              && BribeAmount(first.value.revenue, ctx.bribePct) > 0
              && var second := ctx.simulate(batch, ctx.owner, Some(first.value.frontAccessList),
                                            Some(first.value.backAccessList), ctx.bot);
                 second.Some? && second.value.revenue > 0
    ensures var r := Cook(batch, id, ctx);
            r.Some? ==>
              var first := ctx.simulate(batch, ctx.owner, None, None, ctx.bot).value;
              var s := ctx.simulate(batch, ctx.owner, Some(first.frontAccessList), Some(first.backAccessList), ctx.bot).value;
              && r.value.bundleId == id && r.value.batch == batch
              && r.value.frontCalldata == s.frontCalldata && r.value.backCalldata == s.backCalldata
              && r.value.frontAccessList == s.frontAccessList && r.value.backAccessList == s.backAccessList
              && s.frontGasUsed <= r.value.frontGasLimit && s.backGasUsed <= r.value.backGasLimit
              && 0 < r.value.bribe && (ctx.bribePct <= 10000 ==> r.value.bribe <= first.revenue)
              && r.value.maxPriorityFeePerGas * RealisticBackGas(s.backGasUsed) <= r.value.bribe
              && r.value.bribe < (r.value.maxPriorityFeePerGas + 1) * RealisticBackGas(s.backGasUsed)
              && r.value.baseFee == ctx.baseFee && r.value.maxFeePerGas == ctx.baseFee + r.value.maxPriorityFeePerGas
    ensures forall h :: h in PickVictims(VictimTxHashes(batch), ctx.pending) ==> h in ctx.pending
    ensures var r := Cook(batch, id, ctx);
            var victims := PickVictims(VictimTxHashes(batch), ctx.pending);
            r.Some? ==>
              && r.value.victimTxs == TxsOf(victims, ctx.pending)
              && Sorting.Distinct(victims)
              && (forall h :: h in victims <==>
                    h in ctx.pending && exists k :: 0 <= k < |batch.sandwiches| && batch.sandwiches[k].victimTx.txHash == h)
  {
    var first := ctx.simulate(batch, ctx.owner, None, None, ctx.bot);
    if first.Some? {
      BribeBounds(first.value.revenue, ctx.bribePct);
      var second := ctx.simulate(batch, ctx.owner, Some(first.value.frontAccessList), Some(first.value.backAccessList),
                                 ctx.bot);
      if second.Some? && second.value.revenue > 0 {
        GasLimitBounds(second.value.frontGasUsed);
        GasLimitBounds(second.value.backGasUsed);
        PriorityFeeBounds(FirstBribe(batch, ctx), second.value.backGasUsed);
      }
    }
    var hashes := VictimTxHashes(batch);
    PickVictimsDistinct(hashes, ctx.pending);
    PickVictimsPending(hashes, ctx.pending);
    forall h ensures h in PickVictims(hashes, ctx.pending) <==>
                       h in ctx.pending && exists k :: 0 <= k < |batch.sandwiches| && batch.sandwiches[k].victimTx.txHash == h {
      PickVictimsMembers(hashes, ctx.pending, h);
    }
  }

  /** A priced bundle is labelled with its batch and the id it was recorded under. */
  lemma CookLabels(batch: BatchSandwich, id: string, ctx: BundleContext)
    requires GasReported(ctx.simulate)
    ensures Cook(batch, id, ctx).Some? ==> Cook(batch, id, ctx).value.bundleId == id
                                           && Cook(batch, id, ctx).value.batch == batch
  {
  }

  /**
   * The pricing of one fresh batch in `main_dish`: simulate without access
   * lists to size the bribe, stop if it is 0, simulate again with the
   * access lists found, stop on failure or no revenue, then set the gas
   * limits and fees and collect the victims.
   */
  method PriceBundle(batch: BatchSandwich, id: string, ctx: BundleContext) returns (order: Option<BundleOrder>)
    requires GasReported(ctx.simulate)
    ensures order == Cook(batch, id, ctx)
  {
    var first := ctx.simulate(batch, ctx.owner, None, None, ctx.bot);
    var bribeAmount: nat, frontAccessList: Option<AccessList>, backAccessList: Option<AccessList> := 0, None, None;
    if first.Some? && first.value.revenue > 0 {
      bribeAmount := first.value.revenue * ctx.bribePct / 10000;
      frontAccessList, backAccessList := Some(first.value.frontAccessList), Some(first.value.backAccessList);
    }
    if bribeAmount == 0 {
      return None;
    }
    var second := ctx.simulate(batch, ctx.owner, frontAccessList, backAccessList, ctx.bot);
    if second.None? {
      return None;
    }
    var s := second.value;
    if s.revenue <= 0 {
      return None;
    }
    var frontGasLimit := s.frontGasUsed * 13 / 10;
    var backGasLimit := s.backGasUsed * 13 / 10;
    var realisticBackGasLimit := s.backGasUsed * 105 / 100;
    PriorityFeeBounds(bribeAmount, s.backGasUsed);
    var maxPriorityFeePerGas := bribeAmount / realisticBackGasLimit;
    var maxFeePerGas := ctx.baseFee + maxPriorityFeePerGas;
    var victimTxs := DistinctVictimTxs(batch, ctx.pending);
    order := Some(BundleOrder(id, batch, victimTxs, s.frontCalldata, s.backCalldata, s.frontAccessList,
                              s.backAccessList, frontGasLimit, backGasLimit, ctx.baseFee, maxPriorityFeePerGas,
                              maxFeePerGas, bribeAmount));
  }

  // ---------------------------------------------------------------------------
  // The prefix loop
  // ---------------------------------------------------------------------------

  /** The batch of the first `n` ingredients, allocated from fresh balances. */
  function PrefixBatch(plate: seq<Ingredient>, balances: map<Address, nat>, n: nat): (b: BatchSandwich)
    requires n <= |plate| && Funded(plate, balances)
    ensures |b.sandwiches| == n
  {
    AllocatePrefix(plate, balances, n);
    BatchSandwich(Allocate(plate[..n], balances).0)
  }

  /** Batch `i` of the prefixes holds `i + 1` sandwiches. */
  predicate Growing(batches: seq<BatchSandwich>) {
    forall i :: 0 <= i < |batches| ==> |batches[i].sandwiches| == i + 1
  }

  /** The batches of the prefixes of the plate, shortest first. */
  function Prefixes(plate: seq<Ingredient>, balances: map<Address, nat>): (r: seq<BatchSandwich>)
    requires Funded(plate, balances)
    ensures |r| == |plate| && Growing(r)
    ensures forall i :: 0 <= i < |r| ==> r[i] == PrefixBatch(plate, balances, i + 1)
  {
    seq(|plate|, i requires 0 <= i < |plate| => PrefixBatch(plate, balances, i + 1))
  }

  /**
   * The history and the bundles after processing `batches` in order: a
   * batch whose id is in the history is skipped; otherwise its id is pushed
   * before it is simulated and priced.
   */
  function Run(ids: seq<string>, capacity: nat, batches: seq<BatchSandwich>, ctx: BundleContext)
    : (seq<string>, seq<BundleOrder>)
    requires GasReported(ctx.simulate)
  {
    if batches == [] then (ids, [])
    else
      var (history, bundles) := Run(ids, capacity, batches[..|batches| - 1], ctx);
      var batch := batches[|batches| - 1];
      var id := BundleIdOf(batch);
      if id in history then (history, bundles)
      else
        var pushed := Pushed(history, capacity, id);
        match Cook(batch, id, ctx)
        case None => (pushed, bundles)
        case Some(order) => (pushed, bundles + [order])
  }

  /** The history never grows beyond its capacity. */
  lemma {:induction false} RunBounded(ids: seq<string>, capacity: nat, batches: seq<BatchSandwich>, ctx: BundleContext)
    requires GasReported(ctx.simulate)
    requires |ids| <= capacity
    ensures |Run(ids, capacity, batches, ctx).0| <= capacity
  {
    if batches != [] {
      var init := batches[..|batches| - 1];
      RunBounded(ids, capacity, init, ctx);
      PushedWindow(Run(ids, capacity, init, ctx).0, capacity, BundleIdOf(batches[|batches| - 1]));
    }
  }

  /** The number of sandwiches in a bundle's batch. */
  function Size(order: BundleOrder): nat {
    |order.batch.sandwiches|
  }

  /**
   * Bundles come out in prefix order: each bundle's batch is the batch of
   * the prefix of its size, under that batch's id, and sizes strictly
   * increase.
   */
  predicate PrefixBundles(bundles: seq<BundleOrder>, batches: seq<BatchSandwich>) {
    && (forall k :: 0 <= k < |bundles| ==>
          && 1 <= Size(bundles[k]) <= |batches|
          && bundles[k].batch == batches[Size(bundles[k]) - 1]
          && bundles[k].bundleId == BundleIdOf(bundles[k].batch))
    && (forall k :: 0 < k < |bundles| ==> Size(bundles[k - 1]) < Size(bundles[k]))
  }

  /** Bundles in prefix order stay so when more batches follow. */
  lemma PrefixBundlesGrow(bundles: seq<BundleOrder>, batches: seq<BatchSandwich>)
    requires batches != [] && PrefixBundles(bundles, batches[..|batches| - 1])
    ensures PrefixBundles(bundles, batches)
  {
    var init := batches[..|batches| - 1];
    forall k | 0 <= k < |bundles| ensures bundles[k].batch == batches[Size(bundles[k]) - 1] {
      assert init[Size(bundles[k]) - 1] == batches[Size(bundles[k]) - 1];
    }
  }

  /** A bundle for the last batch extends bundles in prefix order of the earlier ones. */
  lemma PrefixBundlesSnoc(bundles: seq<BundleOrder>, batches: seq<BatchSandwich>, order: BundleOrder)
    requires batches != [] && Size(order) == |batches|
    requires PrefixBundles(bundles, batches[..|batches| - 1]) && PrefixBundles(bundles, batches)
    requires order.batch == batches[|batches| - 1] && order.bundleId == BundleIdOf(order.batch)
    ensures PrefixBundles(bundles + [order], batches)
  {
    var r := bundles + [order];
    assert r[|bundles|] == order;
    forall k | 0 <= k < |bundles|
      ensures r[k] == bundles[k] && Size(r[k]) < |batches|
    {
    }
  }

  lemma {:induction false} RunPrefixes(ids: seq<string>, capacity: nat, batches: seq<BatchSandwich>, ctx: BundleContext)
    requires GasReported(ctx.simulate) && Growing(batches)
    ensures PrefixBundles(Run(ids, capacity, batches, ctx).1, batches)
  {
    if batches != [] {
      var init := batches[..|batches| - 1];
      assert Growing(init);
      RunPrefixes(ids, capacity, init, ctx);
      var bundles := Run(ids, capacity, init, ctx).1;
      PrefixBundlesGrow(bundles, batches);
      var batch := batches[|batches| - 1];
      var cooked := Cook(batch, BundleIdOf(batch), ctx);
      CookLabels(batch, BundleIdOf(batch), ctx);
      if cooked.Some? {
        PrefixBundlesSnoc(bundles, batches, cooked.value);
      }
    }
  }

  /**
   * While the history has room for every batch, no bundle is built twice
   * in one call, none repeats an id already in the history, and every
   * bundle's id is recorded.
   */
  lemma {:induction false} RunFresh(ids: seq<string>, capacity: nat, batches: seq<BatchSandwich>, ctx: BundleContext)
    requires GasReported(ctx.simulate)
    requires |ids| + |batches| <= capacity
    ensures var (history, bundles) := Run(ids, capacity, batches, ctx);
            && |history| <= |ids| + |batches| && ids <= history
            && (forall k :: 0 <= k < |bundles| ==> bundles[k].bundleId in history && bundles[k].bundleId !in ids)
            && (forall j, k :: 0 <= j < k < |bundles| ==> bundles[j].bundleId != bundles[k].bundleId)
  {
    if batches != [] {
      var init := batches[..|batches| - 1];
      RunFresh(ids, capacity, init, ctx);
      var (history, bundles) := Run(ids, capacity, init, ctx);
      var batch := batches[|batches| - 1];
      var id := BundleIdOf(batch);
      if id !in history {
        CookLabels(batch, id, ctx);
        assert Pushed(history, capacity, id) == history + [id];
      }
    }
  }

  /** The batch built for the prefix of length `i + 1` extends the batches of the shorter prefixes. */
  lemma PrefixesSnoc(plate: seq<Ingredient>, balances: map<Address, nat>, i: nat, batch: BatchSandwich)
    requires i < |plate| && Funded(plate, balances)
    requires batch.sandwiches == Allocate(plate[..i + 1], balances).0
    ensures Prefixes(plate, balances)[..i + 1] == Prefixes(plate, balances)[..i] + [batch]
  {
    assert Prefixes(plate, balances)[i] == batch;
  }

  /**
   * One iteration of the prefix loop of `main_dish`: a batch whose id was
   * simulated recently is skipped; otherwise its id is recorded and the
   * batch priced, and a priced bundle is appended.
   */
  method ServeBatch(history: BundleHistory, batch: BatchSandwich, ctx: BundleContext, bundles: seq<BundleOrder>,
                    ghost ids0: seq<string>, ghost done: seq<BatchSandwich>)
    returns (bundles': seq<BundleOrder>)
    requires history.Valid() && GasReported(ctx.simulate)
    requires (history.ids, bundles) == Run(ids0, history.capacity, done, ctx)
    modifies history
    ensures history.Valid()
    ensures (history.ids, bundles') == Run(ids0, history.capacity, done + [batch], ctx)
  {
    assert (done + [batch])[..|done|] == done;
    bundles' := bundles;
    var bundleId := BundleId(batch);
    if history.Contains(bundleId) {
      return;
    }
    var displaced := history.PushBack(bundleId);
    var order := PriceBundle(batch, bundleId, ctx);
    if order.Some? {
      bundles' := bundles + [order.value];
    }
  }

  /**
   * The prefix loop of `main_dish`: for every prefix of the plate, build
   * its batch, skip it if its id was simulated recently, otherwise record
   * the id and price the batch.
   */
  method ServeBundles(history: BundleHistory, plate: seq<Ingredient>, botBalances: map<Address, nat>,
                      ctx: BundleContext) returns (bundles: seq<BundleOrder>)
    requires history.Valid() && Funded(plate, botBalances) && GasReported(ctx.simulate)
    modifies history
    ensures history.Valid()
    ensures (history.ids, bundles) == Run(old(history.ids), history.capacity, Prefixes(plate, botBalances), ctx)
  {
    bundles := [];
    ghost var ids0 := history.ids;
    ghost var batches := Prefixes(plate, botBalances);
    for i := 0 to |plate|
      invariant history.Valid()
      invariant (history.ids, bundles) == Run(ids0, history.capacity, batches[..i], ctx)
    {
      var batch := BuildBatch(plate, i + 1, botBalances);
      PrefixesSnoc(plate, botBalances, i, batch);
      bundles := ServeBatch(history, batch, ctx, bundles, ids0, batches[..i]);
    }
    assert batches[..|plate|] == batches;
  }

  // ---------------------------------------------------------------------------
  // `main_dish`
  // ---------------------------------------------------------------------------

  /** What `main_dish` relies on: every recorded sandwich carries a search result and trades a main currency. */
  predicate Servable(promising: map<Hash, seq<Sandwich>>) {
    && Optimized(promising)
    && forall h, k :: h in promising && 0 <= k < |promising[h]| ==> IsMainCurrency(promising[h][k].swapInfo.mainCurrency)
  }

  /** A plate drawn from servable sandwiches only uses currencies the bot holds. */
  lemma PlateFunded(promising: map<Hash, seq<Sandwich>>, order: seq<Hash>, plate: seq<Ingredient>,
                    debug: bool, balanceOf: Address -> Option<nat>)
    requires Servable(promising) && forall h :: h in order ==> h in promising
    requires multiset(plate) == multiset(PlateOf(promising, order))
    ensures Funded(plate, BotBalances(debug, balanceOf))
  {
    forall k | 0 <= k < |plate| ensures plate[k].mainCurrency in BotBalances(debug, balanceOf) {
      var x := plate[k];
      assert x in multiset(PlateOf(promising, order));
      PlateMembers(promising, order, x);
      var h, j :| h in order && 0 <= j < |promising[h]| && x == IngredientOf(h, promising[h][j]);
      BotBalancesCover(debug, balanceOf, x.mainCurrency);
    }
  }

  /**
   * `main_dish`: take the balances (unlimited when debugging), lay every
   * promising sandwich on the plate, rank the plate by descending score
   * (a stable sort; `score` stands for the floating-point score), and run
   * the prefix loop with the next block's base fee.
   */
  method MainDish(history: BundleHistory, debug: bool, owner: Address, botAddress: Address,
                  balanceOf: Address -> Option<nat>, promising: map<Hash, seq<Sandwich>>, score: Ingredient -> int,
                  newBlock: NewBlock, bribePct: nat, pending: map<Hash, PendingTxInfo>, simulate: Simulator)
    returns (bundles: seq<BundleOrder>, ghost order: seq<Hash>, ghost plate: seq<Ingredient>)
    requires history.Valid() && Servable(promising) && GasReported(simulate)
    modifies history
    ensures history.Valid()
    ensures Enumerates(order, promising)
    ensures multiset(plate) == multiset(PlateOf(promising, order))
    ensures Sorting.SortedBy(plate, Descending(score))
    ensures Sorting.SameFilters(plate, PlateOf(promising, order), Descending(score))
    ensures Funded(plate, BotBalances(debug, balanceOf))
    ensures (history.ids, bundles) == Run(old(history.ids), history.capacity, Prefixes(plate, BotBalances(debug, balanceOf)),
                                          DishContext(newBlock, bribePct, pending, simulate, debug, owner, botAddress))
  {
    var botBalances: map<Address, nat>;
    if debug {
      botBalances := map[WETH := U256_MAX, USDT := U256_MAX, USDC := U256_MAX];
    } else {
      botBalances := TokenBalances(BOT_TOKENS, balanceOf);
    }
    assert botBalances == BotBalances(debug, balanceOf);
    var unsorted;
    unsorted, order := CollectPlate(promising);
    var sorted := Sorting.SortByKey(unsorted, Descending(score));
    plate := sorted;
    PlateFunded(promising, order, sorted, debug, balanceOf);
    var ctx: BundleContext;
    if debug {
      ctx := BundleContext(newBlock.nextBaseFee, bribePct, pending, simulate, None, None);
    } else {
      ctx := BundleContext(newBlock.nextBaseFee, bribePct, pending, simulate, Some(owner), Some(botAddress));
    }
    bundles := ServeBundles(history, sorted, botBalances, ctx);
  }
}
