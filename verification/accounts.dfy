/**
 * The account object: its fields are updated in place by deposit, withdraw
 * and monthly processing. Each method is proved to leave the object in the
 * state the matching function of `AccountRules` computes from the old one.
 * The C++ class hierarchy becomes one class with a constant variant tag; the
 * overriding methods of Savings and Checking are methods of their own here,
 * and `Deposit`, `Withdraw` and `MonthlyProc` dispatch on the tag as the
 * virtual calls do.
 */
module Accounts {
  import opened Wrappers
  import opened AccountRules

  class Account {
    const variant: Variant
    var pin: int
    var balance: real
    var deposits: nat
    var withdrawals: nat
    var interestRate: real
    var serviceCharges: real
    var status: bool
    var transactions: seq<Transaction>

    /** The object's fields as one value. */
    ghost function State(): AccountState
      reads this
    {
      AccountState(variant, pin, balance, deposits, withdrawals, interestRate,
                   serviceCharges, status, transactions)
    }

    ghost predicate Valid()
      reads this
    {
      Invariant(State())
    }

    /** The Savings and Checking constructors: zero balance, active, the variant's rate. */
    constructor (v: Variant, pin: int)
      ensures State() == NewAccount(v, pin)
      ensures Valid()
    {
      variant := v;
      this.pin := pin;
      balance := 0.0;
      deposits := 0;
      withdrawals := 0;
      interestRate := InterestRate(v);
      serviceCharges := 0.0;
      status := true;
      transactions := [];
    }

    function GetPIN(): int
      reads this
    {
      pin
    }

    /** The current balance, which is the one the history shows. */
    function GetBalance(): (b: real)
      reads this
      requires Valid()
      ensures b == LoggedBalance(transactions)
    {
      balance
    }

    /** The type name, which names this account's variant back. */
    function GetType(): (name: string)
      reads this
      ensures ParseVariant(name) == Some(variant)
    {
      TypeName(variant)
    }

    method AddTransaction(kind: string, amount: real, date: string)
      modifies this
      ensures State() == AccountRules.AddTransaction(old(State()), kind, amount, date)
    {
      transactions := transactions + [Transaction(date, kind, amount, balance)];
    }

    /** Account::deposit */
    method BaseDeposit(amount: real, date: string)
      modifies this
      ensures State() == AccountRules.BaseDeposit(old(State()), amount, date)
    {
      if amount <= 0.0 {
        return;
      }
      balance := balance + amount;
      deposits := deposits + 1;
      AddTransaction(DepositKind, amount, date);
    }

    /** Account::withdraw */
    method BaseWithdraw(amount: real, date: string)
      modifies this
      ensures State() == AccountRules.BaseWithdraw(old(State()), amount, date)
    {
      if amount <= 0.0 {
        return;
      }
      if balance >= amount {
        balance := balance - amount;
        withdrawals := withdrawals + 1;
        AddTransaction(WithdrawalKind, amount, date);
      }
    }

    /** Account::calcInt */
    method CalcInt(date: string)
      modifies this
      ensures State() == AccountRules.CalcInt(old(State()), date)
    {
      var monthlyInterest := balance * (interestRate / 12.0);
      balance := balance + monthlyInterest;
      AddTransaction(InterestKind, monthlyInterest, date);
    }

    /** Account::monthlyProc */
    method BaseMonthlyProc(date: string)
      modifies this
      ensures State() == AccountRules.BaseMonthlyProc(old(State()), date)
    {
      balance := balance - serviceCharges;
      if serviceCharges > 0.0 {
        AddTransaction(ServiceChargeKind, -serviceCharges, date);
      }
      CalcInt(date);
      withdrawals, deposits, serviceCharges := 0, 0, 0.0;
    }

    /** Savings::withdraw */
    method SavingsWithdraw(amount: real, date: string)
      requires variant == Savings
      modifies this
      ensures State() == AccountRules.SavingsWithdraw(old(State()), amount, date)
    {
      if amount <= 0.0 {
        return;
      }
      if status && balance >= amount {
        BaseWithdraw(amount, date);
        if balance < MinimumBalance {
          status := false;
        }
      }
    }

    /** Savings::deposit */
    method SavingsDeposit(amount: real, date: string)
      requires variant == Savings
      modifies this
      ensures State() == AccountRules.SavingsDeposit(old(State()), amount, date)
    {
      BaseDeposit(amount, date);
      if balance >= MinimumBalance {
        status := true;
      }
    }

    /** Savings::monthlyProc */
    method SavingsMonthlyProc(date: string)
      requires variant == Savings
      modifies this
      ensures State() == AccountRules.SavingsMonthlyProc(old(State()), date)
    {
      if withdrawals > FreeWithdrawals {
        serviceCharges := serviceCharges + (withdrawals - FreeWithdrawals) as real;
      }
      BaseMonthlyProc(date);
      if balance < MinimumBalance {
        status := false;
      }
    }

    /** Checking::withdraw */
    method CheckingWithdraw(amount: real, date: string)
      requires variant == Checking
      modifies this
      ensures State() == AccountRules.CheckingWithdraw(old(State()), amount, date)
    {
      if amount <= 0.0 {
        return;
      }
      if balance >= amount {
        BaseWithdraw(amount, date);
      } else {
        balance := balance - OverdraftFee;
        serviceCharges := serviceCharges + OverdraftFee;
        AddTransaction(OverdraftFeeKind, -OverdraftFee, date);
      }
    }

    /** Checking::monthlyProc */
    method CheckingMonthlyProc(date: string)
      requires variant == Checking
      modifies this
      ensures State() == AccountRules.CheckingMonthlyProc(old(State()), date)
    {
      serviceCharges := serviceCharges + (CheckingBaseCharge + withdrawals as real * CheckingWithdrawalCharge);
      BaseMonthlyProc(date);
    }

    /** The virtual `deposit`: the variant's rule; the account stays consistent. */
    method Deposit(amount: real, date: string)
      modifies this
      ensures State() == AccountRules.Deposit(old(State()), amount, date)
      ensures old(Valid()) ==> Valid()
    {
      match variant
      case Savings => SavingsDeposit(amount, date);
      case Checking => BaseDeposit(amount, date);
    }

    /** The virtual `withdraw`: the variant's rule; the account stays consistent. */
    method Withdraw(amount: real, date: string)
      modifies this
      ensures State() == AccountRules.Withdraw(old(State()), amount, date)
      ensures old(Valid()) ==> Valid()
    {
      match variant
      case Savings => SavingsWithdraw(amount, date);
      case Checking => CheckingWithdraw(amount, date);
    }

    /** The virtual `monthlyProc`: the variant's rule; the account stays consistent. */
    method MonthlyProc(date: string)
      modifies this
      ensures State() == AccountRules.MonthlyProc(old(State()), date)
      ensures old(Valid()) ==> Valid()
    {
      match variant
      case Savings => SavingsMonthlyProc(date);
      case Checking => CheckingMonthlyProc(date);
    }
  }
}
