/**
 * The transaction records handed to the EVM simulator. The simulator itself
 * is not part of this model.
 */
module Evm {
  import opened Eth
  import opened Wrappers

  /** Gas limit used for a victim transaction that does not state one. */
  const DEFAULT_GAS_LIMIT: nat := 5000000

  datatype VictimTx = VictimTx(
    txHash: Hash,
    from: Address,
    to: Address,
    data: Bytes,
    value: nat,
    gasPrice: nat,
    gasLimit: Option<nat>)

  datatype Tx = Tx(
    caller: Address,
    transactTo: Address,
    data: Bytes,
    value: nat,
    gasPrice: nat,
    gasLimit: nat)

  /** `Tx::from(VictimTx)`: the same call, with the default gas limit when none is given. */
  function TxFrom(v: VictimTx): (t: Tx)
    ensures t.caller == v.from && t.transactTo == v.to && t.data == v.data
    ensures t.value == v.value && t.gasPrice == v.gasPrice
    ensures v.gasLimit.Some? ==> t.gasLimit == v.gasLimit.value
    ensures v.gasLimit.None? ==> t.gasLimit == DEFAULT_GAS_LIMIT
  {
    Tx(v.from, v.to, v.data, v.value, v.gasPrice, v.gasLimit.GetOr(DEFAULT_GAS_LIMIT))
  }
}
