/** The side-effect-free guards a transaction passes before it touches any balance. */
module Validation {
  import opened Wrappers
  import opened Enums

  /** The three ways a transaction is rejected (a ValueError in each case). */
  datatype ValidationError =
    | UnsupportedCurrency(currency: Currency)
    | UnsupportedWalletAction(walletAction: WalletAction)
    | NonPositiveAmount(amount: real)

  /** Membership of the currency in the enumeration. The type is closed, so the check always passes. */
  function ValidateCurrency(currency: Currency): (r: Outcome<ValidationError>)
    ensures r == Pass
  {
    assert currency in AllCurrencies by { assert currency.USD? || currency.BTC? || currency.ETH?; }
    if currency !in AllCurrencies then Fail(UnsupportedCurrency(currency)) else Pass
  }

  /** Membership of the action in the enumeration. The type is closed, so the check always passes. */
  function ValidateWalletAction(walletAction: WalletAction): (r: Outcome<ValidationError>)
    ensures r == Pass
  {
    assert walletAction in AllWalletActions by { assert walletAction.DEPOSIT? || walletAction.WITHDRAW?; }
    if walletAction !in AllWalletActions then Fail(UnsupportedWalletAction(walletAction)) else Pass
  }

  /** An amount is accepted exactly when it is strictly positive. */
  function ValidateAmount(amount: real): (r: Outcome<ValidationError>)
    ensures r.Pass? <==> amount > 0.0
    ensures r.Fail? ==> r.error == NonPositiveAmount(amount)
  {
    if amount <= 0.0 then Fail(NonPositiveAmount(amount)) else Pass
  }

  /**
   * The action is checked first, then the currency, then the amount; the first
   * failure is the error. With closed enumerations only the amount can fail.
   */
  function ValidateTransaction(walletAction: WalletAction, currency: Currency, amount: real): (r: Outcome<ValidationError>)
    ensures r.Pass? <==> amount > 0.0
    ensures r.Fail? ==> r.error == NonPositiveAmount(amount)
  {
    var byAction := ValidateWalletAction(walletAction);
    if byAction.Fail? then byAction
    else
      var byCurrency := ValidateCurrency(currency);
      if byCurrency.Fail? then byCurrency
      else ValidateAmount(amount)
  }
}
