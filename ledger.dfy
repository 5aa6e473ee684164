/**
 * The ledger of src/transaction_context.rs: a map from transaction id to the
 * recorded (amount, flag) and a map from client id to account. The pure
 * functions below give the effect of each handler on the two maps; the class
 * `TransactionContext` performs the same updates in place and is proved to
 * agree with them.
 */
module Ledger {
  import opened Wrappers
  import opened Money
  import opened DataTypes

  /** What the ledger keeps for an accepted deposit or withdrawal. No owning client is kept. */
  datatype TxRecord = TxRecord(amount: Price, flag: TransactionFlags)

  datatype LedgerState = LedgerState(transactions: map<TxId, TxRecord>, accounts: map<ClientId, Account>)

  const Empty: LedgerState := LedgerState(map[], map[])

  /** The client's account, or the default one `or_default` would insert. */
  function AccountOf(s: LedgerState, client: ClientId): Account {
    if client in s.accounts then s.accounts[client] else DefaultAccount
  }

  /**
   * `handle_transaction` reads `available()` only for a new tx id, a
   * withdrawal and an unlocked account; there the subtraction must not overflow.
   */
  predicate CanHandleTransaction(s: LedgerState, client: ClientId, tx: TxId, kind: DepositOrWithdraw) {
    kind == Withdraw && tx !in s.transactions ==>
      AccountOf(s, client).locked || AccountOf(s, client).AvailableInRange()
  }

  function Operate(account: Account, amount: Price, kind: DepositOrWithdraw): Result<Account, TransactionError>
    requires kind == Withdraw ==> account.locked || account.AvailableInRange()
  {
    if kind == DepositOrWithdraw.Deposit then account.DepositOutcome(amount) else account.WithdrawOutcome(amount)
  }

  /**
   * `handle_transaction`: a known tx id is a duplicate and changes nothing.
   * Otherwise the record is inserted, the account created if missing, and the
   * operation applied; if the operation fails the record is removed again.
   */
  function ApplyTransaction(s: LedgerState, client: ClientId, tx: TxId, amount: Price, kind: DepositOrWithdraw): LedgerState
    requires CanHandleTransaction(s, client, tx, kind)
  {
    if tx in s.transactions then s
    else
      var account := AccountOf(s, client);
      match Operate(account, amount, kind)
      case Ok(updated) =>
        LedgerState(s.transactions[tx := TxRecord(amount, TransactionFlags.None)], s.accounts[client := updated])
      case Err(_) =>
        LedgerState(s.transactions, s.accounts[client := account])
  }

  /**
   * `handle_dispute`: for a known tx the flag becomes `Disputed` whatever it
   * was, and then, if the event's client has an account, its held funds grow
   * by the recorded amount unless that overflows.
   */
  function ApplyDispute(s: LedgerState, client: ClientId, tx: TxId): LedgerState {
    if tx !in s.transactions then s
    else
      var record := s.transactions[tx];
      var transactions := s.transactions[tx := record.(flag := Disputed)];
      if client !in s.accounts then LedgerState(transactions, s.accounts)
      else
        var account := s.accounts[client];
        LedgerState(transactions, s.accounts[client := account.(held := AddOrKeep(account.held, record.amount))])
  }

  /** The guard `handle_resolve` and `handle_chargeback` share. */
  predicate CanSettle(s: LedgerState, client: ClientId, tx: TxId) {
    tx in s.transactions && s.transactions[tx].flag == Disputed && client in s.accounts
  }

  /**
   * `handle_resolve`: for a disputed tx and an existing account of the
   * event's client, held funds drop by the recorded amount (unless that
   * overflows) and the flag becomes `Resolved`.
   */
  function ApplyResolve(s: LedgerState, client: ClientId, tx: TxId): LedgerState {
    if !CanSettle(s, client, tx) then s
    else
      var record := s.transactions[tx];
      var account := s.accounts[client];
      LedgerState(s.transactions[tx := record.(flag := Resolved)],
                  s.accounts[client := account.(held := SubOrKeep(account.held, record.amount))])
  }

  /**
   * `handle_chargeback`: under the same guard, held and total funds drop by
   * the recorded amount (each unless it overflows), the account is locked and
   * the flag becomes `Chargeback`.
   */
  function ApplyChargeback(s: LedgerState, client: ClientId, tx: TxId): LedgerState {
    if !CanSettle(s, client, tx) then s
    else
      var record := s.transactions[tx];
      var account := s.accounts[client];
      var charged := Account(SubOrKeep(account.total, record.amount), SubOrKeep(account.held, record.amount), true);
      LedgerState(s.transactions[tx := record.(flag := TransactionFlags.Chargeback)], s.accounts[client := charged])
  }

  /** `TransactionContext`: the two maps, updated in place by the handlers. */
  class TransactionContext {
    var transactions: map<TxId, TxRecord>
    var accounts: map<ClientId, Account>

    function State(): LedgerState
      reads this
    {
      LedgerState(transactions, accounts)
    }

    /** `TransactionContext::new`: both maps empty. */
    constructor ()
      ensures State() == Empty
    {
      transactions := map[];
      accounts := map[];
    }

    /** `into_iter_accounts`: hands over every client's final account (in no particular order). */
    method IntoIterAccounts() returns (result: map<ClientId, Account>)
      ensures result.Keys == accounts.Keys
      ensures forall c :: c in result ==> result[c] == accounts[c]
    {
      result := accounts;
    }

    method HandleTransaction(client: ClientId, tx: TxId, amount: Price, kind: DepositOrWithdraw)
      requires CanHandleTransaction(State(), client, tx, kind)
      modifies this
      ensures State() == ApplyTransaction(old(State()), client, tx, amount, kind)
    {
      if tx in transactions {
        return;  // Duplicate
      }
      ghost var before := State();
      transactions := transactions[tx := TxRecord(amount, TransactionFlags.None)];
      // `entry(client).or_default()`: the account, or a default one put in its place
      var account := if client in accounts then accounts[client] else DefaultAccount;
      var result, updated;
      if kind == DepositOrWithdraw.Deposit {
        result, updated := account.Deposit(amount);
      } else {
        result, updated := account.Withdraw(amount);
      }
      assert Operate(account, amount, kind) == if result.Ok? then Ok(updated) else Err(result.error);
      accounts := accounts[client := updated];
      if result.Err? {
        transactions := transactions - {tx};
        assert transactions == before.transactions;
      }
    }

    method HandleDispute(client: ClientId, tx: TxId)
      modifies this
      ensures State() == ApplyDispute(old(State()), client, tx)
    {
      if tx !in transactions {
        return;  // NotFound
      }
      var record := transactions[tx];
      transactions := transactions[tx := record.(flag := Disputed)];
      if client !in accounts {
        return;  // InvalidDispute
      }
      var account := accounts[client];
      var _, held := TryAdd(account.held, record.amount);
      accounts := accounts[client := account.(held := held)];
    }

    method HandleResolve(client: ClientId, tx: TxId)
      modifies this
      ensures State() == ApplyResolve(old(State()), client, tx)
    {
      if tx !in transactions {
        return;  // NotFound
      }
      var record := transactions[tx];
      if record.flag != Disputed {
        return;  // InvalidDispute
      }
      if client !in accounts {
        return;  // InvalidDispute
      }
      var account := accounts[client];
      var _, held := TrySub(account.held, record.amount);
      accounts := accounts[client := account.(held := held)];
      transactions := transactions[tx := record.(flag := Resolved)];
    }

    method HandleChargeback(client: ClientId, tx: TxId)
      modifies this
      ensures State() == ApplyChargeback(old(State()), client, tx)
    {
      if tx !in transactions {
        return;  // NotFound
      }
      var record := transactions[tx];
      if record.flag != Disputed {
        return;  // InvalidDispute
      }
      if client !in accounts {
        return;  // InvalidDispute
      }
      var account := accounts[client];
      var _, held := TrySub(account.held, record.amount);
      var _, total := TrySub(account.total, record.amount);
      account := account.(held := held, total := total, locked := true);
      accounts := accounts[client := account];
      transactions := transactions[tx := record.(flag := TransactionFlags.Chargeback)];
    }
  }

  // ----- What each handler does, stated over the two maps -----

  /** A tx id already recorded makes `handle_transaction` a no-op, whatever the client, amount or kind. */
  lemma DuplicateIgnored(s: LedgerState, client: ClientId, tx: TxId, amount: Price, kind: DepositOrWithdraw)
    requires tx in s.transactions
    ensures CanHandleTransaction(s, client, tx, kind)
    ensures ApplyTransaction(s, client, tx, amount, kind) == s
  {
  }

  /**
   * An accepted deposit or withdrawal records (amount, `None`) under its tx
   * id, moves the client's total by exactly the amount and changes nothing
   * else.
   */
  lemma TransactionAccepted(s: LedgerState, client: ClientId, tx: TxId, amount: Price, kind: DepositOrWithdraw)
    requires CanHandleTransaction(s, client, tx, kind) && tx !in s.transactions
    requires Operate(AccountOf(s, client), amount, kind).Ok?
    ensures var s' := ApplyTransaction(s, client, tx, amount, kind);
      && s'.transactions == s.transactions[tx := TxRecord(amount, TransactionFlags.None)]
      && s'.accounts.Keys == s.accounts.Keys + {client}
      && (kind == DepositOrWithdraw.Deposit ==> s'.accounts[client].total == AccountOf(s, client).total + amount)
      && (kind == Withdraw ==> s'.accounts[client].total == AccountOf(s, client).total - amount)
      && s'.accounts[client].held == AccountOf(s, client).held
      && !s'.accounts[client].locked
      && forall c :: c in s.accounts && c != client ==> s'.accounts[c] == s.accounts[c]
  {
  }

  /**
   * A refused deposit or withdrawal leaves the records as they were; the only
   * possible trace is a default account created for the client.
   */
  lemma TransactionRefused(s: LedgerState, client: ClientId, tx: TxId, amount: Price, kind: DepositOrWithdraw)
    requires CanHandleTransaction(s, client, tx, kind) && tx !in s.transactions
    requires Operate(AccountOf(s, client), amount, kind).Err?
    ensures var s' := ApplyTransaction(s, client, tx, amount, kind);
      && s'.transactions == s.transactions
      && s'.accounts == s.accounts[client := AccountOf(s, client)]
      && (client !in s.accounts ==> s'.accounts[client] == DefaultAccount)
  {
  }

  /** A locked account takes no deposit or withdrawal: neither map changes. */
  lemma LockedAccountRefuses(s: LedgerState, client: ClientId, tx: TxId, amount: Price, kind: DepositOrWithdraw)
    requires client in s.accounts && s.accounts[client].locked
    ensures CanHandleTransaction(s, client, tx, kind)
    ensures ApplyTransaction(s, client, tx, amount, kind) == s
  {
  }

  /** A dispute of an unknown tx changes nothing. */
  lemma DisputeUnknown(s: LedgerState, client: ClientId, tx: TxId)
    requires tx !in s.transactions
    ensures ApplyDispute(s, client, tx) == s
  {
  }

  /**
   * A dispute of a known tx, whatever its flag, marks it `Disputed` and keeps
   * its amount. The hold lands on the event's client (no ownership check):
   * held grows by the recorded amount unless that overflows; total, locked
   * and every other account are untouched, and no account is created.
   */
  lemma DisputeKnown(s: LedgerState, client: ClientId, tx: TxId)
    requires tx in s.transactions
    ensures var s' := ApplyDispute(s, client, tx);
      var amount := s.transactions[tx].amount;
      && s'.transactions == s.transactions[tx := TxRecord(amount, Disputed)]
      && s'.accounts.Keys == s.accounts.Keys
      && (client in s.accounts ==>
            var before, after := s.accounts[client], s'.accounts[client];
            && after.held == (if IsI64(before.held + amount) then before.held + amount else before.held)
            && after.total == before.total
            && after.locked == before.locked)
      && forall c :: c in s.accounts && c != client ==> s'.accounts[c] == s.accounts[c]
  {
  }

  /**
   * Resolve and chargeback change nothing unless the tx is known, flagged
   * `Disputed`, and the event's client has an account.
   */
  lemma SettleRefused(s: LedgerState, client: ClientId, tx: TxId)
    requires !CanSettle(s, client, tx)
    ensures ApplyResolve(s, client, tx) == s
    ensures ApplyChargeback(s, client, tx) == s
  {
  }

  /**
   * An accepted resolve lowers the event client's held funds by the recorded
   * amount (unless that overflows), keeps total and locked, and flags the tx
   * `Resolved`; nothing else changes.
   */
  lemma ResolveAccepted(s: LedgerState, client: ClientId, tx: TxId)
    requires CanSettle(s, client, tx)
    ensures var s' := ApplyResolve(s, client, tx);
      var amount := s.transactions[tx].amount;
      var before, after := s.accounts[client], s'.accounts[client];
      && s'.transactions == s.transactions[tx := TxRecord(amount, Resolved)]
      && s'.accounts.Keys == s.accounts.Keys
      && after.held == (if IsI64(before.held - amount) then before.held - amount else before.held)
      && after.total == before.total
      && after.locked == before.locked
      && forall c :: c in s.accounts && c != client ==> s'.accounts[c] == s.accounts[c]
  {
  }

  /**
   * An accepted chargeback lowers held and total by the recorded amount
   * (each unless it overflows), locks the account and flags the tx
   * `Chargeback`; nothing else changes.
   */
  lemma ChargebackAccepted(s: LedgerState, client: ClientId, tx: TxId)
    requires CanSettle(s, client, tx)
    ensures var s' := ApplyChargeback(s, client, tx);
      var amount := s.transactions[tx].amount;
      var before, after := s.accounts[client], s'.accounts[client];
      && s'.transactions == s.transactions[tx := TxRecord(amount, TransactionFlags.Chargeback)]
      && s'.accounts.Keys == s.accounts.Keys
      && after.held == (if IsI64(before.held - amount) then before.held - amount else before.held)
      && after.total == (if IsI64(before.total - amount) then before.total - amount else before.total)
      && after.locked
      && forall c :: c in s.accounts && c != client ==> s'.accounts[c] == s.accounts[c]
  {
  }

  /** After an accepted chargeback, every later deposit or withdrawal for that client is refused. */
  lemma ChargebackFreezes(s: LedgerState, client: ClientId, tx: TxId, tx': TxId, amount: Price, kind: DepositOrWithdraw)
    requires CanSettle(s, client, tx)
    ensures var s' := ApplyChargeback(s, client, tx);
      && CanHandleTransaction(s', client, tx', kind)
      && ApplyTransaction(s', client, tx', amount, kind) == s'
  {
    var s' := ApplyChargeback(s, client, tx);
    LockedAccountRefuses(s', client, tx', amount, kind);
  }
}
