/**
 * The dispatcher of src/transaction_processor.rs. Events arrive in order,
 * each amount is made absolute, and the event is routed by type to a ledger
 * handler. Over a finite input the whole run is a left fold of `Process`
 * over the events, starting from the empty ledger.
 */
module Processor {
  import opened Money
  import opened DataTypes
  import opened Ledger

  /** `update_accounts` would read `available()` only for a withdrawal; there it must not overflow. */
  predicate CanDispatch(s: LedgerState, e: TransactionEvent) {
    e.ty == Withdrawal ==> CanHandleTransaction(s, e.client, e.tx, Withdraw)
  }

  /** `update_accounts`: the routing table from event type to handler. */
  function Dispatch(s: LedgerState, e: TransactionEvent): LedgerState
    requires CanDispatch(s, e)
  {
    match e.ty
    case Deposit => ApplyTransaction(s, e.client, e.tx, e.amount, DepositOrWithdraw.Deposit)
    case Withdrawal => ApplyTransaction(s, e.client, e.tx, e.amount, Withdraw)
    case Dispute => ApplyDispute(s, e.client, e.tx)
    case Resolve => ApplyResolve(s, e.client, e.tx)
    case Chargeback => ApplyChargeback(s, e.client, e.tx)
  }

  /** The event as `run` passes it on, its amount made absolute. */
  function Normalize(e: TransactionEvent): (n: TransactionEvent)
    requires e.amount != I64Min
    ensures n.amount >= 0 && (n.amount == e.amount || n.amount == -e.amount)
    ensures n.tx == e.tx && n.client == e.client && n.ty == e.ty
  {
    e.(amount := Abs(e.amount))
  }

  /** One turn of `run` can be taken without a panic. */
  predicate CanProcess(s: LedgerState, e: TransactionEvent) {
    e.amount != I64Min && CanDispatch(s, Normalize(e))
  }

  /** One turn of `run`: normalise, then dispatch. */
  function Process(s: LedgerState, e: TransactionEvent): LedgerState
    requires CanProcess(s, e)
  {
    Dispatch(s, Normalize(e))
  }

  /** Every turn of `run` over `events`, from `s`, can be taken without a panic. */
  predicate Runnable(s: LedgerState, events: seq<TransactionEvent>)
    decreases |events|
  {
    events == [] || (CanProcess(s, events[0]) && Runnable(Process(s, events[0]), events[1..]))
  }

  /** The ledger after `run` has processed `events`, first to last, from `s`. */
  function Fold(s: LedgerState, events: seq<TransactionEvent>): LedgerState
    requires Runnable(s, events)
    decreases |events|
  {
    if events == [] then s else Fold(Process(s, events[0]), events[1..])
  }

  /** `TransactionProcessor`: the ledger it drives and the queue it drains. */
  class TransactionProcessor {
    const context: TransactionContext
    var receiver: seq<TransactionEvent>

    constructor (context: TransactionContext, receiver: seq<TransactionEvent>)
      ensures this.context == context && this.receiver == receiver
    {
      this.context := context;
      this.receiver := receiver;
    }

    /** `run`: take events one at a time, in arrival order, until the queue is exhausted. */
    method Run()
      requires Runnable(context.State(), receiver)
      modifies this, context
      ensures receiver == []
      ensures context.State() == Fold(old(context.State()), old(receiver))
    {
      ghost var start, all := context.State(), receiver;
      while receiver != []
        invariant Runnable(context.State(), receiver)
        invariant Fold(context.State(), receiver) == Fold(start, all)
        decreases |receiver|
      {
        var event := receiver[0];
        receiver := receiver[1..];
        var amount := MakeAbsolute(event.amount);
        event := event.(amount := amount);
        UpdateAccounts(event);
      }
    }

    /** `update_accounts`: deposits and withdrawals carry the amount; the dispute family passes only client and tx. */
    method UpdateAccounts(event: TransactionEvent)
      requires CanDispatch(context.State(), event)
      modifies context
      ensures context.State() == Dispatch(old(context.State()), event)
    {
      match event.ty
      case Deposit => context.HandleTransaction(event.client, event.tx, event.amount, DepositOrWithdraw.Deposit);
      case Withdrawal => context.HandleTransaction(event.client, event.tx, event.amount, Withdraw);
      case Dispute => context.HandleDispute(event.client, event.tx);
      case Resolve => context.HandleResolve(event.client, event.tx);
      case Chargeback => context.HandleChargeback(event.client, event.tx);
    }
  }

  /**
   * `exhaust_sources`: a fresh, empty ledger, every event processed, and the
   * final account map handed back.
   */
  method ExhaustSources(events: seq<TransactionEvent>) returns (accounts: map<ClientId, Account>)
    requires Runnable(Empty, events)
    ensures accounts == Fold(Empty, events).accounts
  {
    var context := new TransactionContext();
    var processor := new TransactionProcessor(context, events);
    processor.Run();
    accounts := context.IntoIterAccounts();
  }

  // ----- Properties of the run -----

  /**
   * Processing in arrival order: running `a + b` is running `a`, then `b`
   * from where `a` left the ledger.
   */
  lemma {:induction false} FoldAppend(s: LedgerState, a: seq<TransactionEvent>, b: seq<TransactionEvent>)
    ensures Runnable(s, a + b) <==> Runnable(s, a) && Runnable(Fold(s, a), b)
    ensures Runnable(s, a + b) ==> Fold(s, a + b) == Fold(Fold(s, a), b)
    decreases |a|
  {
    if a == [] {
      assert a + b == b;
    } else {
      assert (a + b)[0] == a[0];
      assert (a + b)[1..] == a[1..] + b;
      if CanProcess(s, a[0]) {
        FoldAppend(Process(s, a[0]), a[1..], b);
      }
    }
  }

  /** Dispute, resolve and chargeback ignore the event's amount. */
  lemma DisputeFamilyIgnoresAmount(s: LedgerState, e: TransactionEvent, amount: Price)
    requires e.ty == Dispute || e.ty == Resolve || e.ty == TransactionType.Chargeback
    ensures CanDispatch(s, e) && CanDispatch(s, e.(amount := amount))
    ensures Dispatch(s, e) == Dispatch(s, e.(amount := amount))
  {
  }

  predicate Monetary(e: TransactionEvent) {
    e.ty == TransactionType.Deposit || e.ty == Withdrawal
  }

  /**
   * What a later ledger keeps of an earlier one: every record, with its
   * amount; every account; and every lock.
   */
  predicate Extends(s: LedgerState, s': LedgerState) {
    && (forall tx :: tx in s.transactions ==>
          tx in s'.transactions && s'.transactions[tx].amount == s.transactions[tx].amount)
    && (forall c :: c in s.accounts ==> c in s'.accounts && (s.accounts[c].locked ==> s'.accounts[c].locked))
  }

  /** Every recorded amount is non-negative. */
  predicate AmountsNonNegative(s: LedgerState) {
    forall tx :: tx in s.transactions ==> s.transactions[tx].amount >= 0
  }

  /** A dispute-family turn: `s'` extends `s` with no new record or account, and amounts are unchanged. */
  predicate Settled(s: LedgerState, s': LedgerState) {
    && Extends(s, s')
    && s'.transactions.Keys == s.transactions.Keys
    && s'.accounts.Keys == s.accounts.Keys
  }

  lemma TransactionStep(s: LedgerState, client: ClientId, tx: TxId, amount: Price, kind: DepositOrWithdraw)
    requires amount >= 0 && CanHandleTransaction(s, client, tx, kind)
    ensures var s' := ApplyTransaction(s, client, tx, amount, kind);
      && Extends(s, s')
      && (forall t :: t in s'.transactions && t !in s.transactions ==> t == tx)
      && (forall c :: c in s'.accounts && c !in s.accounts ==> c == client)
      && (AmountsNonNegative(s) ==> AmountsNonNegative(s'))
  {
  }

  /** Dispute, resolve and chargeback create no record or account and change no amount. */
  lemma SettleStep(s: LedgerState, e: TransactionEvent)
    requires !Monetary(e)
    ensures CanDispatch(s, e) && Settled(s, Dispatch(s, e))
  {
  }

  /** The handler a deposit or withdrawal event reaches. */
  function KindOf(e: TransactionEvent): DepositOrWithdraw {
    if e.ty == TransactionType.Deposit then DepositOrWithdraw.Deposit else Withdraw
  }

  /**
   * One turn of `run` keeps every record, amount, account and lock; records
   * only the event's tx and creates only the event's client's account, and
   * only for a deposit or withdrawal; and records a non-negative amount.
   */
  lemma ProcessStep(s: LedgerState, e: TransactionEvent)
    requires CanProcess(s, e)
    ensures var s' := Process(s, e);
      && Extends(s, s')
      && (forall tx :: tx in s'.transactions && tx !in s.transactions ==> tx == e.tx && Monetary(e))
      && (forall c :: c in s'.accounts && c !in s.accounts ==> c == e.client && Monetary(e))
      && (AmountsNonNegative(s) ==> AmountsNonNegative(s'))
  {
    var n := Normalize(e);
    if Monetary(e) {
      assert Process(s, e) == ApplyTransaction(s, n.client, n.tx, n.amount, KindOf(e));
      TransactionStep(s, n.client, n.tx, n.amount, KindOf(e));
    } else {
      assert Process(s, e) == Dispatch(s, n);
      SettleStep(s, n);
    }
  }

  /**
   * Over a whole run: nothing recorded is ever dropped or re-priced, no
   * account disappears, a lock is never lifted, every amount recorded is
   * non-negative, and every new record and account comes from a deposit or
   * withdrawal event of the input.
   */
  lemma {:induction false} FoldProperties(s: LedgerState, events: seq<TransactionEvent>)
    requires Runnable(s, events)
    ensures var s' := Fold(s, events);
      && Extends(s, s')
      && (AmountsNonNegative(s) ==> AmountsNonNegative(s'))
      && (forall tx :: tx in s'.transactions && tx !in s.transactions ==>
            exists i :: 0 <= i < |events| && events[i].tx == tx && Monetary(events[i]))
      && (forall c :: c in s'.accounts && c !in s.accounts ==>
            exists i :: 0 <= i < |events| && events[i].client == c && Monetary(events[i]))
    decreases |events|
  {
    if events != [] {
      var e, rest := events[0], events[1..];
      var s1 := Process(s, e);
      ProcessStep(s, e);
      FoldProperties(s1, rest);
      var s' := Fold(s1, rest);
      forall tx | tx in s'.transactions && tx !in s.transactions
        ensures exists i :: 0 <= i < |events| && events[i].tx == tx && Monetary(events[i])
      {
        if tx in s1.transactions {
          assert events[0].tx == tx && Monetary(events[0]);
        } else {
          var i :| 0 <= i < |rest| && rest[i].tx == tx && Monetary(rest[i]);
          assert events[i + 1] == rest[i];
        }
      }
      forall c | c in s'.accounts && c !in s.accounts
        ensures exists i :: 0 <= i < |events| && events[i].client == c && Monetary(events[i])
      {
        if c in s1.accounts {
          assert events[0].client == c && Monetary(events[0]);
        } else {
          var i :| 0 <= i < |rest| && rest[i].client == c && Monetary(rest[i]);
          assert events[i + 1] == rest[i];
        }
      }
    }
  }

  /**
   * From the empty ledger: every amount the ledger stores is non-negative,
   * and every stored tx id and every account belongs to a deposit or
   * withdrawal event of the input.
   */
  lemma RunFromEmpty(events: seq<TransactionEvent>)
    requires Runnable(Empty, events)
    ensures var s' := Fold(Empty, events);
      && AmountsNonNegative(s')
      && (forall tx :: tx in s'.transactions ==>
            exists i :: 0 <= i < |events| && events[i].tx == tx && Monetary(events[i]))
      && (forall c :: c in s'.accounts ==>
            exists i :: 0 <= i < |events| && events[i].client == c && Monetary(events[i]))
  {
    FoldProperties(Empty, events);
  }

  /**
   * A lock is for good: once a client's account is locked, after any run a
   * deposit or withdrawal for that client changes nothing.
   */
  lemma LockedStaysFrozen(s: LedgerState, events: seq<TransactionEvent>, e: TransactionEvent)
    requires Runnable(s, events)
    requires e.client in s.accounts && s.accounts[e.client].locked
    requires Monetary(e) && e.amount != I64Min
    ensures CanProcess(Fold(s, events), e)
    ensures Process(Fold(s, events), e) == Fold(s, events)
  {
    FoldProperties(s, events);
    var s' := Fold(s, events);
    LockedAccountRefuses(s', e.client, e.tx, Abs(e.amount), KindOf(e));
  }
}
