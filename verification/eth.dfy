/**
 * Ethereum value types shared by the whole model: bytes, 20-byte addresses,
 * 32-byte hashes and the bounds of the fixed-width integers the bot uses.
 */
module Eth {
  type Byte = b: int | 0 <= b < 256
  type Bytes = seq<Byte>

  /** An `H160`: exactly 20 bytes. */
  type Address = s: Bytes | |s| == 20 witness seq(20, _ => 0)

  /** An `H256`: exactly 32 bytes. */
  type Hash = s: Bytes | |s| == 32 witness seq(32, _ => 0)

  const ZERO_ADDRESS: Address := [0, 0, 0, 0, 0, 0, 0, 0, 0, 0, 0, 0, 0, 0, 0, 0, 0, 0, 0, 0]

  const TWO_8: nat := 0x100
  const TWO_32: nat := 0x1_0000_0000
  const TWO_64: nat := 0x1_0000_0000_0000_0000
  const TWO_256: nat := 0x1_0000_0000_0000_0000_0000_0000_0000_0000_0000_0000_0000_0000_0000_0000_0000_0000

  /** `U256::MAX`. */
  const U256_MAX: nat := TWO_256 - 1

  const U8_MAX: nat := 0xff
  const U32_MAX: nat := 0xffff_ffff
  const U64_MAX: nat := 0xffff_ffff_ffff_ffff

  const I32_MIN: int := -0x8000_0000
  const I32_MAX: int := 0x7fff_ffff
  const I64_MIN: int := -0x8000_0000_0000_0000
  const I64_MAX: int := 0x7fff_ffff_ffff_ffff
  const I128_MIN: int := -0x8000_0000_0000_0000_0000_0000_0000_0000
  const I128_MAX: int := 0x7fff_ffff_ffff_ffff_ffff_ffff_ffff_ffff

  /** An `i128`, the type of simulated revenues and profits. */
  type I128 = x: int | I128_MIN <= x <= I128_MAX

  /** `b` raised to the power `e`. */
  function Pow(b: nat, e: nat): (r: nat)
    ensures b > 0 ==> r > 0
  {
    if e == 0 then 1 else b * Pow(b, e - 1)
  }
}
