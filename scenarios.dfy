/**
 * The unit-test scenarios of src/transaction_context.rs, and runs that show
 * how the ledger behaves where it has no ownership check and no terminal
 * chargeback state.
 */
module Scenarios {
  import opened Money
  import opened DataTypes
  import opened Ledger
  import opened Processor

  /** The tests' `price(value)`: whole currency units, scaled. */
  function Units(value: int): Price
    requires -922337203685477 <= value <= 922337203685477
  {
    value * PriceScalar
  }

  function Deposited(s: LedgerState, client: ClientId, tx: TxId, amount: Price): LedgerState {
    ApplyTransaction(s, client, tx, amount, DepositOrWithdraw.Deposit)
  }

  /** `test_deposit` and `test_withdraw`: both transactions are recorded, the total moves each time. */
  lemma DepositWithdrawScenario()
    ensures var s1 := Deposited(Empty, 1, 1, Units(100));
      && s1.transactions == map[1 := TxRecord(Units(100), TransactionFlags.None)]
      && s1.accounts[1] == Account(Units(100), 0, false)
      && CanHandleTransaction(s1, 1, 2, Withdraw)
      && (var s2 := ApplyTransaction(s1, 1, 2, Units(50), Withdraw);
          && s2.transactions.Keys == {1, 2}
          && s2.accounts[1] == Account(Units(50), 0, false)
          && s2.accounts[1].Available() == Units(50))
  {
  }

  /** `test_dispute`, `test_resolve`, `test_chargeback`. */
  lemma DisputeLifecycleScenario()
    ensures var s1 := ApplyDispute(Deposited(Empty, 1, 1, Units(100)), 1, 1);
      && s1.transactions[1] == TxRecord(Units(100), Disputed)
      && s1.accounts[1] == Account(Units(100), Units(100), false)
      && (var resolved := ApplyResolve(s1, 1, 1);
          && resolved.transactions[1] == TxRecord(Units(100), Resolved)
          && resolved.accounts[1] == Account(Units(100), 0, false))
      && (var charged := ApplyChargeback(s1, 1, 1);
          && charged.transactions[1] == TxRecord(Units(100), TransactionFlags.Chargeback)
          && charged.accounts[1] == Account(0, 0, true))
  {
  }

  /** `test_duplicate_transaction` and the three `test_invalid_*` tests. */
  lemma RejectedScenarios()
    ensures var s1 := Deposited(Empty, 1, 1, Units(100));
      && Deposited(s1, 1, 1, Units(200)) == s1
      && ApplyDispute(Empty, 1, 1) == Empty
      && ApplyResolve(Empty, 1, 1) == Empty
      && ApplyChargeback(Empty, 1, 1) == Empty
  {
  }

  function Event(ty: TransactionType, client: ClientId, tx: TxId, amount: Price): TransactionEvent {
    TransactionEvent(amount, tx, client, ty)
  }

  /**
   * A whole run: deposit 10, withdraw 5, dispute the deposit. The hold is the
   * full 10 against a total of 5, so held funds exceed the total.
   */
  lemma HeldExceedsTotalRun()
    ensures var events := [Event(TransactionType.Deposit, 1, 1, Units(10)),
                           Event(Withdrawal, 1, 2, Units(5)),
                           Event(Dispute, 1, 1, 0)];
      && Runnable(Empty, events)
      && Fold(Empty, events).accounts == map[1 := Account(Units(5), Units(10), false)]
  {
    var s1 := Deposited(Empty, 1, 1, Units(10));
    var s2 := ApplyTransaction(s1, 1, 2, Units(5), Withdraw);
    var s3 := ApplyDispute(s2, 1, 1);
    assert s2.accounts == map[1 := Account(Units(5), 0, false)];
  }

  /**
   * A negative amount on the wire is deposited as its magnitude, and the
   * dispute family's amount plays no part.
   */
  lemma NegativeAmountRun()
    ensures var events := [Event(TransactionType.Deposit, 7, 1, Units(-3)),
                           Event(Dispute, 7, 1, Units(-40))];
      && Runnable(Empty, events)
      && Fold(Empty, events).transactions == map[1 := TxRecord(Units(3), Disputed)]
      && Fold(Empty, events).accounts == map[7 := Account(Units(3), Units(3), false)]
  {
  }

  /**
   * No ownership check: client 2 disputes client 1's deposit and the hold
   * lands on client 2's account; client 1's account is untouched.
   */
  lemma CrossClientDisputeRun()
    ensures var events := [Event(TransactionType.Deposit, 1, 1, Units(10)),
                           Event(TransactionType.Deposit, 2, 2, Units(4)),
                           Event(Dispute, 2, 1, 0)];
      && Runnable(Empty, events)
      && Fold(Empty, events).accounts == map[1 := Account(Units(10), 0, false), 2 := Account(Units(4), Units(10), false)]
  {
  }

  /**
   * A chargeback is not final: the same deposit can be disputed and charged
   * back again, and the total falls a second time.
   */
  lemma RepeatedChargebackRun()
    ensures var events := [Event(TransactionType.Deposit, 1, 1, Units(10)),
                           Event(Dispute, 1, 1, 0),
                           Event(TransactionType.Chargeback, 1, 1, 0),
                           Event(Dispute, 1, 1, 0),
                           Event(TransactionType.Chargeback, 1, 1, 0)];
      && Runnable(Empty, events)
      && Fold(Empty, events).accounts == map[1 := Account(Units(-10), 0, true)]
  {
  }

  /** Client 1 deposits `i64::MAX` (tx 1) and client 2 deposits 0.0001 (tx 2). */
  function BigAndSmall(): seq<TransactionEvent> {
    [Event(TransactionType.Deposit, 1, 1, I64Max), Event(TransactionType.Deposit, 2, 2, 1)]
  }

  /** Client 2 disputes and charges back tx `tx`. */
  function DisputeAndChargeBack(tx: TxId): seq<TransactionEvent> {
    [Event(Dispute, 2, tx, 0), Event(TransactionType.Chargeback, 2, tx, 0)]
  }

  /** Both deposits recorded with the given flags, client 1's account untouched. */
  function MinTotalState(small: TransactionFlags, big: TransactionFlags, account: Account): LedgerState {
    LedgerState(map[1 := TxRecord(I64Max, big), 2 := TxRecord(1, small)],
                map[1 := Account(I64Max, 0, false), 2 := account])
  }

  lemma MinTotalDeposits()
    ensures Runnable(Empty, BigAndSmall())
    ensures Fold(Empty, BigAndSmall()) == MinTotalState(TransactionFlags.None, TransactionFlags.None, Account(1, 0, false))
  {
  }

  /** Charging back tx 2, whatever its flag, takes 0.0001 off client 2's total and locks the account. */
  lemma MinTotalSmallChargeback(flag: TransactionFlags, total: Price, locked: bool)
    requires total > I64Min
    ensures var s := MinTotalState(flag, TransactionFlags.None, Account(total, 0, locked));
      && Runnable(s, DisputeAndChargeBack(2))
      && Fold(s, DisputeAndChargeBack(2))
         == MinTotalState(TransactionFlags.Chargeback, TransactionFlags.None, Account(total - 1, 0, true))
  {
  }

  /** Client 2 charging back client 1's deposit of `i64::MAX` takes its total from -0.0001 to `i64::MIN`. */
  lemma MinTotalBigChargeback()
    ensures var s := MinTotalState(TransactionFlags.Chargeback, TransactionFlags.None, Account(-1, 0, true));
      && Runnable(s, DisputeAndChargeBack(1))
      && Fold(s, DisputeAndChargeBack(1))
         == MinTotalState(TransactionFlags.Chargeback, TransactionFlags.Chargeback, Account(I64Min, 0, true))
  {
  }

  /**
   * Two chargebacks of a deposit of 0.0001, then a cross-client chargeback
   * of a deposit of `i64::MAX`, leave client 2's total at `i64::MIN`: the one
   * value `Display for Price` cannot render.
   */
  lemma MinTotalRun()
    ensures var events := BigAndSmall() + DisputeAndChargeBack(2) + DisputeAndChargeBack(2) + DisputeAndChargeBack(1);
      && Runnable(Empty, events)
      && Fold(Empty, events).accounts == map[1 := Account(I64Max, 0, false), 2 := Account(I64Min, 0, true)]
  {
    var a, b := BigAndSmall(), DisputeAndChargeBack(2);
    MinTotalDeposits();
    MinTotalSmallChargeback(TransactionFlags.None, 1, false);
    FoldAppend(Empty, a, b);
    MinTotalSmallChargeback(TransactionFlags.Chargeback, 0, true);
    FoldAppend(Empty, a + b, b);
    MinTotalBigChargeback();
    FoldAppend(Empty, a + b + b, DisputeAndChargeBack(1));
  }
}
