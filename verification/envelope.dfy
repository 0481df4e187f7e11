/** The persisted envelope (`TxInfo` of src/txinfo.rs): the transaction under construction and
    the omnilock config every later command reads back. */
module Envelope {
  import opened Tx
  import opened Omnilock

  datatype TxInfo = TxInfo(transaction: Transaction, omnilockConfig: OmniLockConfig)
}
