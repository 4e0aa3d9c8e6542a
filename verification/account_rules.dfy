/**
 * The business rules of the account hierarchy (Account, Savings, Checking), each
 * operation written as a function from the account's state before the call to
 * its state after it. The class `Accounts.Account` performs the same operations
 * in place and is proved to agree with these functions.
 *
 * Money is an exact `real`; the date stamped on a transaction is a parameter
 * (the program reads it from the wall clock).
 */
module AccountRules {
  import opened Wrappers

  /** The two concrete account classes. */
  datatype Variant = Savings | Checking

  /**
   * One entry of the history. `amount` carries a sign for display (debits are
   * logged negative, except plain withdrawals); `balanceAfter` is the balance
   * once the entry's operation has been applied.
   */
  datatype Transaction = Transaction(date: string, kind: string, amount: real, balanceAfter: real)

  /** Every field of an account object. */
  datatype AccountState = AccountState(
    variant: Variant,
    pin: int,
    balance: real,
    deposits: nat,
    withdrawals: nat,
    interestRate: real,
    serviceCharges: real,
    status: bool,
    transactions: seq<Transaction>)

  // Labels written into the history
  const DepositKind: string := "Deposit"
  const WithdrawalKind: string := "Withdrawal"
  const InterestKind: string := "Interest"
  const ServiceChargeKind: string := "Service Charge"
  const OverdraftFeeKind: string := "Overdraft Fee"

  /** Below this balance a savings account is frozen. */
  const MinimumBalance: real := 25.0
  /** Flat fee of a checking withdrawal that exceeds the balance. */
  const OverdraftFee: real := 15.0
  /** Savings withdrawals per cycle that carry no charge; each further one costs $1. */
  const FreeWithdrawals: nat := 4
  /** Checking charge per cycle: a base amount plus an amount per withdrawal. */
  const CheckingBaseCharge: real := 5.0
  const CheckingWithdrawalCharge: real := 0.10

  /** Annual interest rate of each variant. */
  function InterestRate(v: Variant): real
  {
    match v
    case Savings => 0.05
    case Checking => 0.03
  }

  /** The name `getType` reports, and the one `createAccount` accepts. */
  function TypeName(v: Variant): string
  {
    match v
    case Savings => "Savings"
    case Checking => "Checking"
  }

  /** The variant a type name asks for; any other string is refused. */
  function ParseVariant(name: string): Option<Variant>
  {
    if name == "Savings" then Some(Savings)
    else if name == "Checking" then Some(Checking)
    else None
  }

  /** A freshly constructed account: zero balance and counters, active. */
  function NewAccount(v: Variant, pin: int): AccountState
  {
    AccountState(v, pin, 0.0, 0, 0, InterestRate(v), 0.0, true, [])
  }

  /** The balance the history shows: that of its last entry, or 0 when empty. */
  function LoggedBalance(log: seq<Transaction>): real
  {
    if log == [] then 0.0 else log[|log| - 1].balanceAfter
  }

  /**
   * What every account built by the program satisfies: the balance is the
   * one its history shows, pending charges are never negative, the rate is
   * that of the variant, and a checking account is never frozen.
   */
  predicate Invariant(s: AccountState)
  {
    && s.balance == LoggedBalance(s.transactions)
    && s.serviceCharges >= 0.0
    && s.interestRate == InterestRate(s.variant)
    && (s.variant == Checking ==> s.status)
  }

  /** Account::addTransaction: log an entry stamped with the current balance. */
  function AddTransaction(s: AccountState, kind: string, amount: real, date: string): AccountState
  {
    s.(transactions := s.transactions + [Transaction(date, kind, amount, s.balance)])
  }

  /** Account::deposit: a non-positive amount is refused. */
  function BaseDeposit(s: AccountState, amount: real, date: string): AccountState
  {
    if amount <= 0.0 then s
    else AddTransaction(s.(balance := s.balance + amount, deposits := s.deposits + 1),
                        DepositKind, amount, date)
  }

  /** Account::withdraw: a non-positive amount or one above the balance is refused. */
  function BaseWithdraw(s: AccountState, amount: real, date: string): AccountState
  {
    if amount <= 0.0 then s
    else if s.balance >= amount then
      AddTransaction(s.(balance := s.balance - amount, withdrawals := s.withdrawals + 1),
                     WithdrawalKind, amount, date)
    else s
  }

  /** Account::calcInt: add one month of interest and log it. */
  function CalcInt(s: AccountState, date: string): AccountState
  {
    var monthlyInterest := s.balance * (s.interestRate / 12.0);
    AddTransaction(s.(balance := s.balance + monthlyInterest), InterestKind, monthlyInterest, date)
  }

  /** Account::monthlyProc: deduct pending charges, add interest, reset the cycle. */
  function BaseMonthlyProc(s: AccountState, date: string): AccountState
  {
    var charged := s.(balance := s.balance - s.serviceCharges);
    var logged := if s.serviceCharges > 0.0
                  then AddTransaction(charged, ServiceChargeKind, -s.serviceCharges, date)
                  else charged;
    CalcInt(logged, date).(withdrawals := 0, deposits := 0, serviceCharges := 0.0)
  }

  /** Savings::withdraw: only an active account with enough funds pays out; it freezes below the minimum. */
  function SavingsWithdraw(s: AccountState, amount: real, date: string): AccountState
  {
    if amount <= 0.0 then s
    else if s.status && s.balance >= amount then
      var t := BaseWithdraw(s, amount, date);
      if t.balance < MinimumBalance then t.(status := false) else t
    else s
  }

  /**
   * Savings::deposit: the base deposit, then reactivation whenever the balance
   * is at least the minimum. The reactivation test runs even when the base
   * deposit refused the amount.
   */
  function SavingsDeposit(s: AccountState, amount: real, date: string): AccountState
  {
    var t := BaseDeposit(s, amount, date);
    if t.balance >= MinimumBalance then t.(status := true) else t
  }

  /** Savings::monthlyProc: $1 per withdrawal beyond the free ones, then the base cycle, then the freeze test. */
  function SavingsMonthlyProc(s: AccountState, date: string): AccountState
  {
    var t := if s.withdrawals > FreeWithdrawals
             then s.(serviceCharges := s.serviceCharges + (s.withdrawals - FreeWithdrawals) as real)
             else s;
    var u := BaseMonthlyProc(t, date);
    if u.balance < MinimumBalance then u.(status := false) else u
  }

  /**
   * Checking::withdraw: with enough funds, the base withdrawal; otherwise the
   * overdraft fee is taken from the balance and also added to the pending
   * charges, and the requested amount is not paid out.
   */
  function CheckingWithdraw(s: AccountState, amount: real, date: string): AccountState
  {
    if amount <= 0.0 then s
    else if s.balance >= amount then BaseWithdraw(s, amount, date)
    else AddTransaction(s.(balance := s.balance - OverdraftFee,
                           serviceCharges := s.serviceCharges + OverdraftFee),
                        OverdraftFeeKind, -OverdraftFee, date)
  }

  /** Checking::monthlyProc: base charge plus a charge per withdrawal, then the base cycle. */
  function CheckingMonthlyProc(s: AccountState, date: string): AccountState
  {
    BaseMonthlyProc(s.(serviceCharges := s.serviceCharges + CheckingBaseCharge
                                         + s.withdrawals as real * CheckingWithdrawalCharge), date)
  }

  /** The virtual `deposit`, dispatched on the variant. */
  function Deposit(s: AccountState, amount: real, date: string): AccountState
  {
    match s.variant
    case Savings => SavingsDeposit(s, amount, date)
    case Checking => BaseDeposit(s, amount, date)
  }

  /** The virtual `withdraw`, dispatched on the variant. */
  function Withdraw(s: AccountState, amount: real, date: string): AccountState
  {
    match s.variant
    case Savings => SavingsWithdraw(s, amount, date)
    case Checking => CheckingWithdraw(s, amount, date)
  }

  /** The virtual `monthlyProc`, dispatched on the variant. */
  function MonthlyProc(s: AccountState, date: string): AccountState
  {
    match s.variant
    case Savings => SavingsMonthlyProc(s, date)
    case Checking => CheckingMonthlyProc(s, date)
  }
}
