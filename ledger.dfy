/**
 * The pure specification of the wallet ledger: the per-transaction step, the
 * ordered replay of a transaction list as a left fold of that step, and what
 * both guarantee about the balances.
 */
module Ledger {
  import opened Wrappers
  import opened Enums
  import opened Transactions
  import opened Validation

  /** Per-currency balances; a currency absent from the map holds 0. */
  type Balances = map<Currency, real>

  /** Total lookup: an unseen currency reads as 0, as a defaultdict(float) does. */
  function Get(b: Balances, c: Currency): (r: real)
  {
    if c in b then b[c] else 0.0
  }

  /** No currency holds a negative balance. */
  predicate NonNegative(b: Balances)
  {
    forall c :: Get(b, c) >= 0.0
  }

  /** The effect of one accepted transaction: new balances, the returned flag, whether a warning was emitted. */
  datatype Processed = Processed(balances: Balances, success: bool, warned: bool)

  /**
   * One transaction applied to balances `b`: validation first; a deposit always
   * succeeds; a withdrawal larger than the balance is skipped (warning iff
   * `verbose`); any other withdrawal succeeds.
   */
  function Process(b: Balances, walletAction: WalletAction, currency: Currency, amount: real, verbose: bool)
    : (r: Result<Processed, ValidationError>)
  {
    var checked := ValidateTransaction(walletAction, currency, amount);
    if checked.Fail? then Failure(checked.error)
    else match walletAction
      case DEPOSIT =>
        Success(Processed(b[currency := Get(b, currency) + amount], true, false))
      case WITHDRAW =>
        if Get(b, currency) < amount then Success(Processed(b, false, verbose))
        else Success(Processed(b[currency := Get(b, currency) - amount], true, false))
  }

  /** The signed change an applied transaction makes to currency `c`; zero when skipped or about another currency. */
  function Delta(t: Transaction, applied: bool, c: Currency): (d: real)
  {
    if !applied || t.currency != c then 0.0
    else if t.walletAction == DEPOSIT then t.amount
    else -t.amount
  }

  lemma ProcessRejectsNonPositive(b: Balances, walletAction: WalletAction, currency: Currency, amount: real, verbose: bool)
    ensures Process(b, walletAction, currency, amount, verbose).Failure? <==> amount <= 0.0
    ensures amount <= 0.0 ==> Process(b, walletAction, currency, amount, verbose) == Failure(NonPositiveAmount(amount))
  {
  }

  lemma ProcessDeposit(b: Balances, currency: Currency, amount: real, verbose: bool)
    requires amount > 0.0
    ensures var r := Process(b, DEPOSIT, currency, amount, verbose);
      && r.Success? && r.value.success && !r.value.warned
      && Get(r.value.balances, currency) == Get(b, currency) + amount
      && forall c :: c != currency ==> Get(r.value.balances, c) == Get(b, c)
  {
  }

  lemma ProcessWithdrawSkipped(b: Balances, currency: Currency, amount: real, verbose: bool)
    requires amount > 0.0 && Get(b, currency) < amount
    ensures var r := Process(b, WITHDRAW, currency, amount, verbose);
      && r.Success? && !r.value.success && r.value.warned == verbose
      && r.value.balances == b
  {
  }

  lemma ProcessWithdrawApplied(b: Balances, currency: Currency, amount: real, verbose: bool)
    requires amount > 0.0 && Get(b, currency) >= amount
    ensures var r := Process(b, WITHDRAW, currency, amount, verbose);
      && r.Success? && r.value.success && !r.value.warned
      && Get(r.value.balances, currency) == Get(b, currency) - amount
      && forall c :: c != currency ==> Get(r.value.balances, c) == Get(b, c)
  {
  }

  /** A skip is the only way to report `false`, and a warning is emitted exactly for a skip under `verbose`. */
  lemma ProcessFlags(b: Balances, walletAction: WalletAction, currency: Currency, amount: real, verbose: bool)
    requires Process(b, walletAction, currency, amount, verbose).Success?
    ensures var p := Process(b, walletAction, currency, amount, verbose).value;
      && (p.success <==> walletAction == DEPOSIT || Get(b, currency) >= amount)
      && (p.warned <==> verbose && !p.success)
  {
  }

  /** Every accepted transaction moves its own currency by its Delta and no other currency at all. */
  lemma ProcessDelta(b: Balances, t: Transaction, verbose: bool, c: Currency)
    requires Process(b, t.walletAction, t.currency, t.amount, verbose).Success?
    ensures var p := Process(b, t.walletAction, t.currency, t.amount, verbose).value;
      Get(p.balances, c) == Get(b, c) + Delta(t, p.success, c)
  {
  }

  lemma ProcessPreservesNonNegative(b: Balances, walletAction: WalletAction, currency: Currency, amount: real, verbose: bool)
    requires NonNegative(b)
    requires Process(b, walletAction, currency, amount, verbose).Success?
    ensures NonNegative(Process(b, walletAction, currency, amount, verbose).value.balances)
  {
    var p := Process(b, walletAction, currency, amount, verbose).value;
    forall c ensures Get(p.balances, c) >= 0.0 {
      ProcessDelta(b, Transaction(walletAction, currency, amount), verbose, c);
    }
  }

  /** Where a replay stopped: the index of the rejected transaction and its error. */
  datatype Abort = Abort(index: nat, error: ValidationError)

  /**
   * The outcome of replaying a list: the balances reached, the flag returned by
   * each transaction processed, whether each of them emitted a warning, and the
   * abort, if a transaction was rejected.
   */
  datatype Run = Run(balances: Balances, applied: seq<bool>, warned: seq<bool>, abort: Option<Abort>)

  /**
   * Replay of `ts` from balances `b`, strictly in list order, with warnings on:
   * the left fold of Process. The first rejected transaction stops the replay
   * with the balances reached just before it.
   */
  function Replay(b: Balances, ts: seq<Transaction>): (r: Run)
    ensures |r.warned| == |r.applied|
    ensures r.abort.None? ==> |r.applied| == |ts|
    ensures r.abort.Some? ==> r.abort.value.index == |r.applied| < |ts|
    decreases |ts|
  {
    if ts == [] then Run(b, [], [], None)
    else
      var prev := Replay(b, ts[..|ts| - 1]);
      var t := ts[|ts| - 1];
      if prev.abort.Some? then prev
      else match Process(prev.balances, t.walletAction, t.currency, t.amount, true)
        case Failure(e) => Run(prev.balances, prev.applied, prev.warned, Some(Abort(|ts| - 1, e)))
        case Success(p) => Run(p.balances, prev.applied + [p.success], prev.warned + [p.warned], None)
  }

  /** Net change to currency `c`: its applied deposits minus its applied withdrawals. */
  function Net(ts: seq<Transaction>, applied: seq<bool>, c: Currency): (n: real)
    requires |applied| == |ts|
    decreases |ts|
  {
    if ts == [] then 0.0
    else Net(ts[..|ts| - 1], applied[..|ts| - 1], c) + Delta(ts[|ts| - 1], applied[|ts| - 1], c)
  }

  /** Replaying never drives a balance negative. */
  lemma {:induction false} ReplayNonNegative(b: Balances, ts: seq<Transaction>)
    requires NonNegative(b)
    ensures NonNegative(Replay(b, ts).balances)
    decreases |ts|
  {
    if ts != [] {
      var prev := Replay(b, ts[..|ts| - 1]);
      var t := ts[|ts| - 1];
      ReplayNonNegative(b, ts[..|ts| - 1]);
      if prev.abort.None? && Process(prev.balances, t.walletAction, t.currency, t.amount, true).Success? {
        ProcessPreservesNonNegative(prev.balances, t.walletAction, t.currency, t.amount, true);
      }
    }
  }

  /** A replay runs to the end exactly when every amount is positive. */
  lemma {:induction false} ReplayCompletesIff(b: Balances, ts: seq<Transaction>)
    ensures Replay(b, ts).abort.None? <==> forall i :: 0 <= i < |ts| ==> ts[i].amount > 0.0
    decreases |ts|
  {
    if ts != [] {
      var init := ts[..|ts| - 1];
      ReplayCompletesIff(b, init);
      assert forall i :: 0 <= i < |init| ==> init[i] == ts[i];
    }
  }

  /** Once a prefix of the list has aborted, the rest of the list is never processed. */
  lemma {:induction false} ReplayAbortSticks(b: Balances, ts: seq<Transaction>, j: nat)
    requires j <= |ts| && Replay(b, ts[..j]).abort.Some?
    ensures Replay(b, ts) == Replay(b, ts[..j])
    decreases |ts|
  {
    if j == |ts| {
      assert ts[..j] == ts;
    } else {
      var init := ts[..|ts| - 1];
      assert init[..j] == ts[..j];
      ReplayAbortSticks(b, init, j);
    }
  }

  /** Every prefix up to where the replay stopped replays cleanly, returning the same flags. */
  lemma {:induction false} ReplayCleanPrefix(b: Balances, ts: seq<Transaction>, j: nat)
    requires j <= |Replay(b, ts).applied|
    ensures Replay(b, ts[..j]).abort.None?
    ensures Replay(b, ts[..j]).applied == Replay(b, ts).applied[..j]
    decreases |ts|
  {
    var r := Replay(b, ts);
    if j == |ts| {
      assert ts[..j] == ts;
    } else {
      var init := ts[..|ts| - 1];
      var prev := Replay(b, init);
      assert init[..j] == ts[..j];
      ReplayCleanPrefix(b, init, j);
      if prev.abort.None? && r.abort.None? {
        assert r.applied[..j] == prev.applied[..j];
      }
    }
  }

  /**
   * An abort at index k: transaction k has a non-positive amount, all before it
   * are positive, and the balances are exactly those of a clean replay of the
   * first k transactions (nothing after k is applied).
   */
  lemma {:induction false} ReplayAbortAt(b: Balances, ts: seq<Transaction>, k: nat, e: ValidationError)
    requires Replay(b, ts).abort == Some(Abort(k, e))
    ensures k < |ts| && ts[k].amount <= 0.0 && e == NonPositiveAmount(ts[k].amount)
    ensures forall i :: 0 <= i < k ==> ts[i].amount > 0.0
    ensures Replay(b, ts[..k]) == Run(Replay(b, ts).balances, Replay(b, ts).applied, Replay(b, ts).warned, None)
    decreases |ts|
  {
    var init := ts[..|ts| - 1];
    var prev := Replay(b, init);
    var t := ts[|ts| - 1];
    if prev.abort.Some? {
      ReplayAbortAt(b, init, k, e);
      assert init[..k] == ts[..k];
      assert forall i :: 0 <= i <= k ==> init[i] == ts[i];
    } else {
      assert k == |init|;
      assert ts[..k] == init;
      ProcessRejectsNonPositive(prev.balances, t.walletAction, t.currency, t.amount, true);
      ReplayCompletesIff(b, init);
      assert forall i :: 0 <= i < k ==> init[i] == ts[i];
    }
  }

  /** The replay runs with warnings on: transaction i emits a warning exactly when it is skipped. */
  lemma {:induction false} ReplayWarnsOnSkip(b: Balances, ts: seq<Transaction>, i: nat)
    requires i < |Replay(b, ts).applied|
    ensures Replay(b, ts).warned[i] == !Replay(b, ts).applied[i]
    decreases |ts|
  {
    var init := ts[..|ts| - 1];
    var prev := Replay(b, init);
    var t := ts[|ts| - 1];
    if prev.abort.Some? || i < |prev.applied| {
      ReplayWarnsOnSkip(b, init, i);
    } else {
      ProcessFlags(prev.balances, t.walletAction, t.currency, t.amount, true);
    }
  }

  /**
   * What each flag of a replay means: transaction i reported `true` exactly when
   * it was a deposit or the balance it found covered the withdrawal; `false` is
   * a skipped withdrawal.
   */
  lemma {:induction false} ReplayAppliedMeans(b: Balances, ts: seq<Transaction>, i: nat)
    requires i < |Replay(b, ts).applied|
    ensures var before := Replay(b, ts[..i]).balances;
      Replay(b, ts).applied[i] <==> ts[i].walletAction == DEPOSIT || Get(before, ts[i].currency) >= ts[i].amount
  {
    var r := Replay(b, ts);
    ReplayCleanPrefix(b, ts, i + 1);
    var upto := ts[..i + 1];
    var next := Replay(b, upto);
    assert next.abort.None? && next.applied == r.applied[..i + 1];
    assert upto[..|upto| - 1] == ts[..i] && upto[|upto| - 1] == ts[i];
    var prev := Replay(b, ts[..i]);
    var t := ts[i];
    assert prev.abort.None?;
    var p := Process(prev.balances, t.walletAction, t.currency, t.amount, true);
    assert p.Success? && next.applied == prev.applied + [p.value.success];
    assert r.applied[i] == p.value.success;
    ProcessFlags(prev.balances, t.walletAction, t.currency, t.amount, true);
  }

  /**
   * The balance of each currency after a complete replay is its starting
   * balance plus its deposits minus its applied withdrawals; skipped
   * withdrawals contribute nothing.
   */
  lemma {:induction false} ReplayNet(b: Balances, ts: seq<Transaction>, c: Currency)
    requires Replay(b, ts).abort.None?
    ensures Get(Replay(b, ts).balances, c) == Get(b, c) + Net(ts, Replay(b, ts).applied, c)
    decreases |ts|
  {
    if ts != [] {
      var init := ts[..|ts| - 1];
      var prev := Replay(b, init);
      var t := ts[|ts| - 1];
      var r := Replay(b, ts);
      ReplayNet(b, init, c);
      ProcessDelta(prev.balances, t, true, c);
      assert r.applied[..|ts| - 1] == prev.applied;
    }
  }

  /** A currency that no transaction mentions keeps its balance through a replay. */
  lemma {:induction false} ReplayUntouched(b: Balances, ts: seq<Transaction>, c: Currency)
    requires forall i :: 0 <= i < |ts| ==> ts[i].currency != c
    ensures Get(Replay(b, ts).balances, c) == Get(b, c)
    decreases |ts|
  {
    if ts != [] {
      var init := ts[..|ts| - 1];
      var prev := Replay(b, init);
      var t := ts[|ts| - 1];
      assert forall i :: 0 <= i < |init| ==> init[i] == ts[i];
      ReplayUntouched(b, init, c);
      if prev.abort.None? && Process(prev.balances, t.walletAction, t.currency, t.amount, true).Success? {
        ProcessDelta(prev.balances, t, true, c);
      }
    }
  }

  /** Order matters: a withdrawal after its funding deposit succeeds, the same withdrawal before it is skipped. */
  lemma ReplayOrderMatters()
    ensures var r := Replay(map[], [Transaction(DEPOSIT, BTC, 10.0), Transaction(WITHDRAW, BTC, 5.0)]);
      r.abort.None? && r.applied == [true, true] && Get(r.balances, BTC) == 5.0
    ensures var r := Replay(map[], [Transaction(WITHDRAW, BTC, 5.0), Transaction(DEPOSIT, BTC, 10.0)]);
      r.abort.None? && r.applied == [false, true] && Get(r.balances, BTC) == 10.0
  {
  }
}
