/** Client-side scenarios: what a caller of the wallet can conclude from its contracts alone. */
module WalletTests {
  import opened Wrappers
  import opened Enums
  import opened Transactions
  import opened Ledger
  import opened Wallets

  /** The repository's own test list. */
  const TestList: seq<Transaction> := [
    Transaction(DEPOSIT, BTC, 1.5), Transaction(DEPOSIT, USD, 1000.0),
    Transaction(WITHDRAW, USD, 300.0), Transaction(WITHDRAW, BTC, 2.0),
    Transaction(DEPOSIT, ETH, 5.0), Transaction(WITHDRAW, BTC, 0.5)]

  /** The first three transactions of the test list: all applied, none warns. */
  lemma TestListFirstHalf()
    ensures Replay(map[], TestList[..3]) == Run(map[BTC := 1.5, USD := 700.0], [true, true, true], [false, false, false], None)
  {
    var ts := TestList;
    assert ts[..1][..0] == [] && ts[..2][..1] == ts[..1] && ts[..3][..2] == ts[..2];
    assert Replay(map[], ts[..1]) == Run(map[BTC := 1.5], [true], [false], None);
    assert Replay(map[], ts[..2]) == Run(map[BTC := 1.5, USD := 1000.0], [true, true], [false, false], None);
  }

  /** The replay of the test list: the BTC 2 withdrawal is skipped with the only warning. */
  lemma SimpleScenario()
    ensures var r := Replay(map[], TestList);
      && r.abort.None? && r.applied == [true, true, true, false, true, true]
      && r.warned == [false, false, false, true, false, false]
      && Get(r.balances, BTC) == 1.0 && Get(r.balances, ETH) == 5.0 && Get(r.balances, USD) == 700.0
  {
    var ts := TestList;
    TestListFirstHalf();
    assert ts[..4][..3] == ts[..3] && ts[..5][..4] == ts[..4] && ts[..|ts| - 1] == ts[..5];
    assert Replay(map[], ts[..4]) == Run(map[BTC := 1.5, USD := 700.0], [true, true, true, false], [false, false, false, true], None);
    assert Replay(map[], ts[..5]) == Run(map[BTC := 1.5, USD := 700.0, ETH := 5.0], [true, true, true, false, true], [false, false, false, true, false], None);
  }

  /** Constructing a wallet from the repository's test list and reading its three balances. */
  method SimpleWalletInitialization() returns (btc: real, eth: real, usd: real)
    ensures btc == 1.0 && eth == 5.0 && usd == 700.0
  {
    SimpleScenario();
    var created := Wallet.Create(TestList);
    var w := created.value;
    btc, eth, usd := Get(w.state, BTC), Get(w.state, ETH), Get(w.state, USD);
  }

  /** An empty transaction list yields an empty balance map. */
  method EmptyWallet() returns (snapshot: Balances)
    ensures snapshot == map[]
  {
    var created := Wallet.Create([]);
    snapshot := created.value.Balance();
    assert snapshot.Keys == {};
  }

  /** A zero amount aborts construction at its index, after the earlier transactions were applied. */
  method ZeroAmountAborts() returns (index: nat)
    ensures index == 1
  {
    var ts := [Transaction(DEPOSIT, BTC, 1.0), Transaction(DEPOSIT, ETH, 0.0), Transaction(DEPOSIT, USD, 3.0)];
    assert ts[..2][..1][..0] == [];
    var created := Wallet.Create(ts);
    assert Replay(map[], ts) == Replay(map[], ts[..2]) by {
      ReplayAbortSticks(map[], ts, 2);
    }
    index := created.error.index;
  }

  /**
   * Changing a snapshot taken with Balance leaves the wallet untouched: a later
   * snapshot still shows the old value.
   */
  method SnapshotIsIndependent(w: Wallet, c: Currency, x: real) returns (edited: Balances, later: Balances)
    ensures Get(edited, c) == x
    ensures Get(later, c) == Get(w.state, c)
  {
    edited := w.Balance();
    edited := edited[c := x];
    later := w.Balance();
  }

  /** With verbose off, an uncovered withdrawal still reports false and changes nothing, but emits no warning. */
  method QuietSkip(w: Wallet, c: Currency, amount: real) returns (ok: bool, warned: bool)
    requires amount > 0.0 && Get(w.state, c) < amount
    modifies w`state
    ensures !ok && !warned && w.state == old(w.state)
  {
    var r;
    r, warned := w.ProcessTransaction(WITHDRAW, c, amount, false);
    ok := r.value;
  }
}
