/** A transaction: the immutable (action, currency, amount) triple a wallet replays. */
module Transactions {
  import opened Enums

  /** Amounts are exact reals: the floating-point rounding of the source is not modelled. */
  datatype Transaction = Transaction(walletAction: WalletAction, currency: Currency, amount: real)
}
