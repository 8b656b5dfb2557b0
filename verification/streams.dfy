/**
 * The two kinds of event the strategy consumes: a new block header and a
 * pending transaction seen in the mempool. Only the transaction fields the
 * bot reads are kept.
 */
module Streams {
  import opened Eth
  import opened Wrappers

  /** A block as the strategy sees it: its number, base fee and predicted next base fee. */
  datatype NewBlock = NewBlock(blockNumber: nat, baseFee: nat, nextBaseFee: nat)

  /** The fields of an `ethers` transaction the bot reads. */
  datatype Transaction = Transaction(
    hash: Hash,
    from: Address,
    to: Option<Address>,
    input: Bytes,
    value: nat,
    gas: nat,
    gasPrice: Option<nat>,
    maxFeePerGas: Option<nat>,
    transactionType: Option<nat>)

  /** A mempool transaction and the block at which the strategy admitted it (if it did). */
  datatype NewPendingTx = NewPendingTx(addedBlock: Option<nat>, tx: Transaction)
}
