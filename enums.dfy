/** The two closed enumerations of the wallet: supported currencies and wallet actions. */
module Enums {

  datatype Currency = USD | BTC | ETH

  datatype WalletAction = DEPOSIT | WITHDRAW

  /** Every member of Currency, the set a currency is checked against. */
  const AllCurrencies: set<Currency> := {USD, BTC, ETH}

  /** Every member of WalletAction, the set an action is checked against. */
  const AllWalletActions: set<WalletAction> := {DEPOSIT, WITHDRAW}
}
