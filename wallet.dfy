/**
 * The wallet object: a transaction list and a per-currency balance map that is
 * updated in place, transaction by transaction.
 */
module Wallets {
  import opened Wrappers
  import opened Enums
  import opened Transactions
  import opened Validation
  import opened Ledger

  class Wallet {
    var transactionList: seq<Transaction>
    var state: Balances

    /** The generated dataclass initialiser: stores the list and starts from all-zero balances. */
    constructor (transactionList: seq<Transaction>)
      ensures this.transactionList == transactionList
      ensures state == map[]
    {
      this.transactionList := transactionList;
      state := map[];
    }

    /**
     * Replays the transaction list in order. A rejected transaction stops the
     * loop with its error; the balances then hold every earlier transaction.
     * Every transaction runs with warnings on; `warnings` records, per processed
     * transaction, whether it emitted one.
     */
    method PostInit() returns (r: Outcome<Abort>, warnings: seq<bool>)
      modifies this`state
      ensures var run := Replay(old(state), transactionList);
        && state == run.balances && warnings == run.warned
        && (r.Pass? <==> run.abort.None?)
        && (r.Fail? ==> run.abort == Some(r.error))
      ensures NonNegative(old(state)) ==> NonNegative(state)
    {
      ghost var start := state;
      ghost var applied: seq<bool> := [];
      warnings := [];
      var i := 0;
      while i < |transactionList|
        invariant 0 <= i <= |transactionList|
        invariant Replay(start, transactionList[..i]) == Run(state, applied, warnings, None)
      {
        var t := transactionList[i];
        assert transactionList[..i + 1][..i] == transactionList[..i];
        var processed, warned := ProcessTransaction(t.walletAction, t.currency, t.amount, true);
        if processed.Failure? {
          ReplayAbortSticks(start, transactionList, i + 1);
          if NonNegative(start) { ReplayNonNegative(start, transactionList); }
          return Fail(Abort(i, processed.error)), warnings;
        }
        applied := applied + [processed.value];
        warnings := warnings + [warned];
        i := i + 1;
      }
      assert transactionList[..i] == transactionList;
      if NonNegative(start) { ReplayNonNegative(start, transactionList); }
      r := Pass;
    }

    /**
     * Applies one transaction in place. A rejected transaction changes nothing;
     * otherwise the new state, the returned flag and the warning are those of Process.
     */
    method ProcessTransaction(walletAction: WalletAction, currency: Currency, amount: real, verbose: bool)
      returns (r: Result<bool, ValidationError>, warned: bool)
      modifies this`state
      ensures match Process(old(state), walletAction, currency, amount, verbose)
        case Failure(e) => r == Failure(e) && state == old(state) && !warned
        case Success(p) => r == Success(p.success) && state == p.balances && warned == p.warned
      ensures NonNegative(old(state)) ==> NonNegative(state)
    {
      ghost var before := state;
      var checked := ValidateTransaction(walletAction, currency, amount);
      if checked.Fail? {
        return Failure(checked.error), false;
      }
      match walletAction {
        case DEPOSIT =>
          state := state[currency := Get(state, currency) + amount];
          r, warned := Success(true), false;
        case WITHDRAW =>
          if Get(state, currency) < amount {
            r, warned := Success(false), verbose;
          } else {
            state := state[currency := Get(state, currency) - amount];
            r, warned := Success(true), false;
          }
      }
      assert state == Process(before, walletAction, currency, amount, verbose).value.balances;
      if NonNegative(before) {
        ProcessPreservesNonNegative(before, walletAction, currency, amount, verbose);
      }
    }

    /** A snapshot of the balances: equal to the state, and a value no caller can use to change it. */
    method Balance() returns (snapshot: Balances)
      ensures forall c :: Get(snapshot, c) == Get(state, c)
      ensures snapshot.Keys == state.Keys
    {
      snapshot := state;
    }

    /**
     * Constructs a wallet from a transaction list, as the dataclass does: the
     * initialiser, then the replay. A rejected transaction aborts construction
     * and no wallet is returned.
     */
    static method Create(transactionList: seq<Transaction>) returns (r: Result<Wallet, Abort>)
      ensures var run := Replay(map[], transactionList);
        && (r.Success? <==> run.abort.None?)
        && (r.Success? ==> fresh(r.value) && r.value.transactionList == transactionList
                           && r.value.state == run.balances && NonNegative(r.value.state))
        && (r.Failure? ==> run.abort == Some(r.error))
    {
      var w := new Wallet(transactionList);
      var outcome, warnings := w.PostInit();
      assert NonNegative(map[]);
      if outcome.Fail? {
        return Failure(outcome.error);
      }
      r := Success(w);
    }
  }
}
