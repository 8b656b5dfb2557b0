/**
 * Fee and currency rules: the EIP-1559 base-fee prediction and the table of
 * "main currencies" (WETH, USDT, USDC) a sandwich can be funded with.
 */
module Utils {
  import opened Eth
  import opened Wrappers
  import opened Arith

  // ---------------------------------------------------------------------------
  // Constants
  // ---------------------------------------------------------------------------

  /**
   * The main currencies: WETH 0xC02aaA39b223FE8D0A0e5C4F27eAD9083C756Cc2,
   * USDT 0xdAC17F958D2ee523a2206206994597C13D831ec7 and
   * USDC 0xA0b86991c6218b36c1d19D4a2e9Eb0cE3606eB48, as bytes.
   */
  const WETH: Address := [0xc0, 0x2a, 0xaa, 0x39, 0xb2, 0x23, 0xfe, 0x8d, 0x0a, 0x0e,
                          0x5c, 0x4f, 0x27, 0xea, 0xd9, 0x08, 0x3c, 0x75, 0x6c, 0xc2]
  const USDT: Address := [0xda, 0xc1, 0x7f, 0x95, 0x8d, 0x2e, 0xe5, 0x23, 0xa2, 0x20,
                          0x62, 0x06, 0x99, 0x45, 0x97, 0xc1, 0x3d, 0x83, 0x1e, 0xc7]
  const USDC: Address := [0xa0, 0xb8, 0x69, 0x91, 0xc6, 0x21, 0x8b, 0x36, 0xc1, 0xd1,
                          0x9d, 0x4a, 0x2e, 0x9e, 0xb0, 0xce, 0x36, 0x06, 0xeb, 0x48]

  const WETH_BALANCE_SLOT: int := 3
  const USDT_BALANCE_SLOT: int := 2
  const USDC_BALANCE_SLOT: int := 9

  const WETH_DECIMALS: nat := 18
  const USDT_DECIMALS: nat := 6
  const USDC_DECIMALS: nat := 6

  // ---------------------------------------------------------------------------
  // EIP-1559 base fee of the next block
  // ---------------------------------------------------------------------------

  /** Half the gas limit, or 1 when that half is 0 (so it can divide). */
  function TargetGasUsed(gasLimit: nat): (t: nat)
    ensures t >= 1
    ensures gasLimit >= 2 ==> t == gasLimit / 2
    ensures gasLimit < 2 ==> t == 1
  {
    if gasLimit / 2 == 0 then 1 else gasLimit / 2
  }

  /** The change the base fee undergoes for a gas distance `delta` from the target. */
  function Adjustment(baseFee: nat, delta: nat, target: nat): nat
    requires target > 0
  {
    baseFee * delta / target / 8
  }

  /** The adjustment grows with the distance from the target. */
  lemma AdjustmentMonotone(baseFee: nat, d1: nat, d2: nat, target: nat)
    requires target > 0 && d1 <= d2
    ensures Adjustment(baseFee, d1, target) <= Adjustment(baseFee, d2, target)
  {
    MulMonotone(baseFee, d1, d2);
    DivMonotone(baseFee * d1, baseFee * d2, target);
    DivMonotone(baseFee * d1 / target, baseFee * d2 / target, 8);
  }

  /** Below the target the distance is at most the target, so the fee drops by at most an eighth. */
  lemma AdjustmentAtMostEighth(baseFee: nat, delta: nat, target: nat)
    requires target > 0 && delta <= target
    ensures Adjustment(baseFee, delta, target) <= baseFee / 8
  {
    AdjustmentMonotone(baseFee, delta, target, target);
    DivModUnique(baseFee * target, target, baseFee, 0);
  }

  /**
   * `calculate_next_block_base_fee`: the EIP-1559 update with elasticity 2
   * and change denominator 8, plus a random `seed` in `0..=8`.
   */
  function NextBaseFee(gasUsed: nat, gasLimit: nat, baseFee: nat, seed: nat): nat
    requires seed <= 8
  {
    var target := TargetGasUsed(gasLimit);
    if gasUsed > target then
      baseFee + Adjustment(baseFee, gasUsed - target, target) + seed
    else
      AdjustmentAtMostEighth(baseFee, target - gasUsed, target);
      baseFee - Adjustment(baseFee, target - gasUsed, target) + seed
  }

  /**
   * Above the target the fee rises by the adjustment; at or below it, it falls
   * by the adjustment, which is at most an eighth of the fee; exactly at the
   * target it is unchanged. The seed is added in every case.
   */
  lemma NextBaseFeeBounds(gasUsed: nat, gasLimit: nat, baseFee: nat, seed: nat)
    requires seed <= 8
    ensures var target := TargetGasUsed(gasLimit);
            var r := NextBaseFee(gasUsed, gasLimit, baseFee, seed);
            && (gasUsed > target ==> r == baseFee + Adjustment(baseFee, gasUsed - target, target) + seed)
            && (gasUsed <= target ==> r + Adjustment(baseFee, target - gasUsed, target) == baseFee + seed)
            && (gasUsed <= target ==> baseFee - baseFee / 8 + seed <= r <= baseFee + seed)
            && (gasUsed == target ==> r == baseFee + seed)
  {
    var target := TargetGasUsed(gasLimit);
    if gasUsed <= target {
      AdjustmentAtMostEighth(baseFee, target - gasUsed, target);
      assert baseFee * 0 / target / 8 == 0;
    }
  }

  /** With the same limit, fee and seed, more gas used never lowers the prediction. */
  lemma NextBaseFeeMonotone(used1: nat, used2: nat, gasLimit: nat, baseFee: nat, seed: nat)
    requires seed <= 8 && used1 <= used2
    ensures NextBaseFee(used1, gasLimit, baseFee, seed) <= NextBaseFee(used2, gasLimit, baseFee, seed)
  {
    var target := TargetGasUsed(gasLimit);
    if used1 > target {
      AdjustmentMonotone(baseFee, used1 - target, used2 - target, target);
    } else if used2 <= target {
      AdjustmentMonotone(baseFee, target - used2, target - used1, target);
      AdjustmentAtMostEighth(baseFee, target - used1, target);
    } else {
      AdjustmentAtMostEighth(baseFee, target - used1, target);
    }
  }

  // ---------------------------------------------------------------------------
  // Main currencies
  // ---------------------------------------------------------------------------

  predicate IsWeth(token: Address) {
    token == WETH
  }

  predicate IsMainCurrency(token: Address) {
    token in [WETH, USDT, USDC]
  }

  /** `MainCurrency`; `Default` stands for any pair without WETH or a stablecoin and behaves as WETH. */
  datatype MainCurrency = Weth | Usdt | Usdc | Default {
    function Decimals(): nat {
      match this
      case Weth => WETH_DECIMALS
      case Usdt => USDC_DECIMALS
      case Usdc => USDC_DECIMALS
      case Default => WETH_DECIMALS
    }

    function BalanceSlot(): int {
      match this
      case Weth => WETH_BALANCE_SLOT
      case Usdt => USDT_BALANCE_SLOT
      case Usdc => USDC_BALANCE_SLOT
      case Default => WETH_BALANCE_SLOT
    }

    /** Importance: WETH first, then USDT, then USDC. */
    function Weight(): nat {
      match this
      case Weth => 3
      case Usdt => 2
      case Usdc => 1
      case Default => 3
    }
  }

  /** `MainCurrency::new`: the variant of a token address. */
  function CurrencyOf(token: Address): (mc: MainCurrency)
    ensures mc.Default? <==> !IsMainCurrency(token)
    ensures mc.Weth? <==> IsWeth(token)
    ensures mc.Usdt? <==> token == USDT
    ensures mc.Usdc? <==> token == USDC
  {
    if token == WETH then Weth
    else if token == USDT then Usdt
    else if token == USDC then Usdc
    else Default
  }

  /**
   * The currency table: `Default` borrows WETH's decimals, slot and weight,
   * USDT reports the (equal) USDC decimals, and the three main currencies
   * have pairwise distinct weights, WETH above USDT above USDC.
   */
  lemma CurrencyTable()
    ensures Default.Decimals() == Weth.Decimals() && Default.BalanceSlot() == Weth.BalanceSlot()
    ensures Default.Weight() == Weth.Weight()
    ensures Usdt.Decimals() == USDT_DECIMALS == USDC_DECIMALS
    ensures Weth.Weight() > Usdt.Weight() > Usdc.Weight()
    ensures CurrencyOf(WETH) == Weth && CurrencyOf(USDT) == Usdt && CurrencyOf(USDC) == Usdc
  {
  }

  /**
   * `return_main_and_target_currency`: which of the two pair tokens funds
   * the sandwich (the main currency) and which is bought (the target).
   */
  function MainAndTarget(token0: Address, token1: Address): (r: Option<(Address, Address)>)
    ensures r.None? <==> !IsMainCurrency(token0) && !IsMainCurrency(token1)
    ensures r.Some? ==> r.value == (token0, token1) || r.value == (token1, token0)
    ensures r.Some? ==> IsMainCurrency(r.value.0)
    ensures r.Some? && IsMainCurrency(r.value.1) ==>
              CurrencyOf(r.value.0).Weight() >= CurrencyOf(r.value.1).Weight()
  {
    var supported0 := IsMainCurrency(token0);
    var supported1 := IsMainCurrency(token1);
    if !supported0 && !supported1 then None
    else if supported0 && supported1 then
      if CurrencyOf(token0).Weight() > CurrencyOf(token1).Weight() then Some((token0, token1))
      else Some((token1, token0))
    else if supported0 then Some((token0, token1))
    else Some((token1, token0))
  }

  /** The choice does not depend on the order in which the pair lists its tokens. */
  lemma MainAndTargetSymmetric(token0: Address, token1: Address)
    ensures MainAndTarget(token0, token1) == MainAndTarget(token1, token0)
  {
    if IsMainCurrency(token0) && IsMainCurrency(token1) && token0 != token1 {
      assert CurrencyOf(token0).Weight() != CurrencyOf(token1).Weight();
    }
  }
}
