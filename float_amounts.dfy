/**
 * Amounts and balances as the source's doubles see them at its guard and its
 * comparison: finite values, the two infinities and NaN. Only what the amount
 * guard and the withdrawal test need is modelled; finite sums are exact, so an
 * overflow of a finite sum to infinity is not shown.
 */
module FloatAmounts {
  import opened Enums
  import opened Validation
  import opened Ledger

  datatype Double = Finite(value: real) | PosInf | NegInf | NaN

  /** IEEE-754 `<`: false whenever either operand is NaN. */
  predicate Less(x: Double, y: Double)
  {
    match (x, y)
    case (NaN, _) => false
    case (_, NaN) => false
    case (Finite(a), Finite(b)) => a < b
    case (NegInf, _) => !y.NegInf?
    case (_, PosInf) => !x.PosInf?
    case _ => false
  }

  /** IEEE-754 `<=`: false whenever either operand is NaN. */
  predicate LessEq(x: Double, y: Double)
  {
    !x.NaN? && !y.NaN? && (x == y || Less(x, y))
  }

  function Negate(x: Double): (r: Double)
  {
    match x
    case Finite(a) => Finite(-a)
    case PosInf => NegInf
    case NegInf => PosInf
    case NaN => NaN
  }

  /** IEEE-754 addition without rounding: NaN absorbs, opposite infinities give NaN. */
  function Add(x: Double, y: Double): (r: Double)
  {
    match (x, y)
    case (NaN, _) => NaN
    case (_, NaN) => NaN
    case (PosInf, NegInf) => NaN
    case (NegInf, PosInf) => NaN
    case (PosInf, _) => PosInf
    case (_, PosInf) => PosInf
    case (NegInf, _) => NegInf
    case (_, NegInf) => NegInf
    case (Finite(a), Finite(b)) => Finite(a + b)
  }

  /** The amount guard as written: an amount is rejected only when `amount <= 0` holds. */
  function AcceptsAmountAsWritten(amount: Double): (ok: bool)
  {
    !LessEq(amount, Finite(0.0))
  }

  /** A deposit as written: the balance becomes `balance + amount` and the call reports true. */
  function DepositAsWritten(balance: Double, amount: Double): (r: (Double, bool))
  {
    (Add(balance, amount), true)
  }

  /** A withdrawal as written: skipped iff `balance < amount`, otherwise `balance - amount`. */
  function WithdrawAsWritten(balance: Double, amount: Double): (r: (Double, bool))
  {
    if Less(balance, amount) then (balance, false) else (Add(balance, Negate(amount)), true)
  }

  /** The guard as written lets NaN and positive infinity through; negative infinity is still rejected. */
  lemma NonFiniteAmountsAccepted()
    ensures AcceptsAmountAsWritten(NaN) && AcceptsAmountAsWritten(PosInf)
    ensures !AcceptsAmountAsWritten(NegInf)
  {
  }

  /**
   * Depositing NaN turns the balance into NaN, after which every withdrawal
   * that passes the guard reports success; depositing and then withdrawing
   * infinity also reports success and leaves NaN.
   */
  lemma NaNBalanceCoversEverything(amount: Double)
    ensures DepositAsWritten(Finite(0.0), NaN) == (NaN, true)
    ensures AcceptsAmountAsWritten(amount) ==> WithdrawAsWritten(NaN, amount) == (NaN, true)
    ensures WithdrawAsWritten(DepositAsWritten(Finite(0.0), PosInf).0, PosInf) == (NaN, true)
  {
  }

  /** The intended guard: an amount is accepted only when it is finite and strictly positive. */
  function AcceptsAmount(amount: Double): (ok: bool)
    ensures ok <==> amount.Finite? && amount.value > 0.0
    ensures ok ==> ValidateAmount(amount.value).Pass?
  {
    amount.Finite? && Less(Finite(0.0), amount)
  }

  /** Behind the intended guard a double deposit reports the flag and balance of the ledger's Process. */
  lemma AcceptedDepositFollowsProcess(b: Balances, c: Currency, amount: Double, verbose: bool)
    requires AcceptsAmount(amount)
    ensures var p := Process(b, DEPOSIT, c, amount.value, verbose).value;
      DepositAsWritten(Finite(Get(b, c)), amount) == (Finite(Get(p.balances, c)), p.success)
  {
  }

  /** Behind the intended guard a double withdrawal reports the flag and balance of the ledger's Process. */
  lemma AcceptedWithdrawalFollowsProcess(b: Balances, c: Currency, amount: Double, verbose: bool)
    requires AcceptsAmount(amount)
    ensures var p := Process(b, WITHDRAW, c, amount.value, verbose).value;
      WithdrawAsWritten(Finite(Get(b, c)), amount) == (Finite(Get(p.balances, c)), p.success)
  {
  }
}
