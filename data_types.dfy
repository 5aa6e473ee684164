/**
 * Event, flag, error and account types of src/data_types.rs, with the
 * account's deposit and withdrawal state changes.
 */
module DataTypes {
  import opened Wrappers
  import opened Money

  /** `u16` client ids and `u32` transaction ids. */
  type ClientId = x: int | 0 <= x < 0x1_0000
  type TxId = x: int | 0 <= x < 0x1_0000_0000

  datatype TransactionType = Deposit | Withdrawal | Dispute | Resolve | Chargeback

  /** One input event; `amount` defaults to zero for the dispute family. */
  datatype TransactionEvent = TransactionEvent(amount: Price, tx: TxId, client: ClientId, ty: TransactionType)

  /** The dispute state stored with each recorded transaction. */
  datatype TransactionFlags = None | Disputed | Resolved | Chargeback

  datatype TransactionError = Overflow | Duplicate | NotFound | InvalidDispute | InsufficientFunds | Locked

  /** Which account operation `handle_transaction` applies. */
  datatype DepositOrWithdraw = Deposit | Withdraw

  /** The lower-case name under which each type appears in the input. */
  function TypeName(t: TransactionType): string {
    match t
    case Deposit => "deposit"
    case Withdrawal => "withdrawal"
    case Dispute => "dispute"
    case Resolve => "resolve"
    case Chargeback => "chargeback"
  }

  /**
   * `TransactionType::try_from(&str)`: exactly the five names are accepted,
   * each naming its own type; anything else is an error that quotes the input.
   */
  function ParseTransactionType(s: string): (r: Result<TransactionType, string>)
    ensures r.Ok? <==> s in {"deposit", "withdrawal", "dispute", "resolve", "chargeback"}
    ensures r.Ok? ==> TypeName(r.value) == s
    ensures r.Err? ==> r.error == "Invalid transaction type: " + s
  {
    match s
    case "deposit" => Ok(TransactionType.Deposit)
    case "withdrawal" => Ok(Withdrawal)
    case "dispute" => Ok(Dispute)
    case "resolve" => Ok(Resolve)
    case "chargeback" => Ok(TransactionType.Chargeback)
    case _ => Err("Invalid transaction type: " + s)
  }

  /** Every type's name parses back to that type. */
  lemma ParseTypeName(t: TransactionType)
    ensures ParseTransactionType(TypeName(t)) == Ok(t)
  {
  }

  /**
   * A client's balances. `Default` gives the all-zero, unlocked account that
   * `or_default` creates.
   */
  datatype Account = Account(total: Price, held: Price, locked: bool) {

    /** `available()` subtracts without a check: it is defined only while the difference fits. */
    predicate AvailableInRange() {
      IsI64(total - held)
    }

    /** `available()`: the funds not held, `total - held`. */
    function Available(): (a: Price)
      requires AvailableInRange()
      ensures a + held == total
    {
      total - held
    }

    /** What `deposit` does to the account: the new account, or the error it reports. */
    function DepositOutcome(amount: Price): Result<Account, TransactionError> {
      if locked then Err(Locked)
      else match CheckedAdd(total, amount)
        case None => Err(Overflow)
        case Some(t) => Ok(this.(total := t))
    }

    /** What `withdraw` does to the account; reading `available()` needs it in range. */
    function WithdrawOutcome(amount: Price): Result<Account, TransactionError>
      requires locked || AvailableInRange()
    {
      if locked then Err(Locked)
      else if amount > Available() then Err(InsufficientFunds)
      else match CheckedSub(total, amount)
        case None => Err(Overflow)
        case Some(t) => Ok(this.(total := t))
    }

    /**
     * `Account::deposit(&mut self, amount)`: the account is passed in and its
     * new value handed back. A locked account refuses; an overflowing total
     * refuses; otherwise the total grows by exactly `amount`. A refusal
     * changes nothing.
     */
    method Deposit(amount: Price) returns (r: Result<(), TransactionError>, updated: Account)
      ensures r == Err(Locked) <==> locked
      ensures r == Err(Overflow) <==> !locked && !IsI64(total + amount)
      ensures r.Ok? <==> !locked && IsI64(total + amount)
      ensures r.Ok? ==> updated == Account(total + amount, held, locked)
      ensures r.Err? ==> updated == this
      ensures r.Ok? ==> DepositOutcome(amount) == Ok(updated)
      ensures r.Err? ==> DepositOutcome(amount) == Err(r.error)
    {
      if locked {
        return Err(Locked), this;
      }
      var ok, newTotal := TryAdd(total, amount);
      if !ok {
        return Err(Overflow), this;
      }
      return Ok(()), this.(total := newTotal);
    }

    /**
     * `Account::withdraw(&mut self, amount)`, checking in order: locked, then
     * `amount > available()`, then overflow of the subtraction. A refusal
     * changes nothing; success lowers the total by exactly `amount`.
     */
    method Withdraw(amount: Price) returns (r: Result<(), TransactionError>, updated: Account)
      requires locked || AvailableInRange()
      ensures r == Err(Locked) <==> locked
      ensures r == Err(InsufficientFunds) <==> !locked && amount > total - held
      ensures r == Err(Overflow) <==> !locked && amount <= total - held && !IsI64(total - amount)
      ensures r.Ok? <==> !locked && amount <= total - held && IsI64(total - amount)
      ensures r.Ok? ==> updated == Account(total - amount, held, locked)
      ensures r.Err? ==> updated == this
      ensures r.Ok? ==> WithdrawOutcome(amount) == Ok(updated)
      ensures r.Err? ==> WithdrawOutcome(amount) == Err(r.error)
    {
      if locked {
        return Err(Locked), this;
      }
      if amount > Available() {
        return Err(InsufficientFunds), this;
      }
      var ok, newTotal := TrySub(total, amount);
      if !ok {
        return Err(Overflow), this;
      }
      return Ok(()), this.(total := newTotal);
    }
  }

  const DefaultAccount: Account := Account(0, 0, false)

  /** A locked account refuses every deposit and withdrawal and stays as it is. */
  lemma LockedRefusesAll(acc: Account, amount: Price)
    requires acc.locked
    ensures acc.DepositOutcome(amount) == Err(Locked)
    ensures acc.WithdrawOutcome(amount) == Err(Locked)
  {
  }

  /**
   * A withdrawal of a non-negative amount never reports `Overflow`, and when
   * it succeeds the account is left with non-negative available funds,
   * lowered by exactly the amount.
   */
  lemma WithdrawNonNegative(acc: Account, amount: Price)
    requires amount >= 0 && (acc.locked || acc.AvailableInRange())
    ensures acc.WithdrawOutcome(amount) != Err(Overflow)
    ensures acc.WithdrawOutcome(amount).Ok? ==>
              var after := acc.WithdrawOutcome(amount).value;
              after.AvailableInRange() && 0 <= after.Available() == acc.Available() - amount
  {
  }

  /**
   * A deposit followed by a withdrawal of the same amount gives back the
   * account exactly, for a non-negative amount on an account whose held and
   * available funds are not negative (a fresh account, for one).
   */
  lemma DepositThenWithdraw(acc: Account, amount: Price)
    requires amount >= 0 && acc.held >= 0
    requires acc.AvailableInRange() && acc.Available() >= 0
    requires acc.DepositOutcome(amount).Ok?
    ensures acc.DepositOutcome(amount).value.AvailableInRange()
    ensures acc.DepositOutcome(amount).value.WithdrawOutcome(amount) == Ok(acc)
  {
  }
}
