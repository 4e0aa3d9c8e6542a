/**
 * What the account rules guarantee: the guard and effect of every operation,
 * the order of monthly processing, that the history is only ever extended and
 * always ends at the current balance, the savings freeze, and some typical
 * sessions (a savings freeze, a checking overdraft, a month's checking charge).
 */
module AccountProperties {
  import opened Wrappers
  import opened AccountRules

  /** One choice of the account menu that changes the account. */
  datatype Operation =
    | DepositOp(amount: real, date: string)
    | WithdrawOp(amount: real, date: string)
    | MonthlyProcOp(date: string)

  function Apply(s: AccountState, op: Operation): AccountState
  {
    match op
    case DepositOp(a, d) => Deposit(s, a, d)
    case WithdrawOp(a, d) => Withdraw(s, a, d)
    case MonthlyProcOp(d) => MonthlyProc(s, d)
  }

  /** The state after a session of operations, in order. */
  function Run(s: AccountState, ops: seq<Operation>): AccountState
    decreases |ops|
  {
    if ops == [] then s else Run(Apply(s, ops[0]), ops[1..])
  }

  /**
   * The charge `monthlyProc` deducts before interest, written out from the
   * numbers of the C++ code independently of the rule functions.
   */
  function PendingCharge(s: AccountState): real
  {
    match s.variant
    case Savings =>
      s.serviceCharges + (if s.withdrawals > 4 then (s.withdrawals - 4) as real else 0.0)
    case Checking =>
      s.serviceCharges + 5.0 + 0.10 * s.withdrawals as real
  }

  // ---------------------------------------------------------------- types

  /** A type name picks a variant exactly when it is that variant's name. */
  lemma TypeNameRoundTrip(v: Variant, name: string)
    ensures ParseVariant(TypeName(v)) == Some(v)
    ensures ParseVariant(name) == Some(v) <==> name == TypeName(v)
  {
  }

  /** A new account has a zero balance, an empty history, is active and consistent. */
  lemma NewAccountIsConsistent(v: Variant, pin: int)
    ensures Invariant(NewAccount(v, pin))
    ensures NewAccount(v, pin).balance == 0.0 && NewAccount(v, pin).transactions == []
    ensures NewAccount(v, pin).status
    ensures NewAccount(v, pin).interestRate == (if v == Savings then 0.05 else 0.03)
  {
  }

  // ------------------------------------------------------------- deposit

  /**
   * A non-positive deposit changes nothing, except that a savings account
   * holding at least the minimum is reactivated (the reactivation test of
   * Savings::deposit runs after the refused base deposit).
   */
  lemma InvalidDeposit(s: AccountState, amount: real, date: string)
    requires amount <= 0.0
    ensures Deposit(s, amount, date) ==
      if s.variant == Savings && s.balance >= MinimumBalance then s.(status := true) else s
    ensures Deposit(s, amount, date).balance == s.balance
    ensures Deposit(s, amount, date).deposits == s.deposits
    ensures Deposit(s, amount, date).transactions == s.transactions
  {
  }

  /**
   * A positive deposit adds exactly the amount, counts one deposit and logs one
   * "Deposit" entry ending at the new balance; a savings account becomes
   * active when the new balance reaches the minimum, and nothing else changes.
   */
  lemma ValidDeposit(s: AccountState, amount: real, date: string)
    requires amount > 0.0
    ensures var r := Deposit(s, amount, date);
      && r.balance == s.balance + amount
      && r.deposits == s.deposits + 1
      && r.transactions == s.transactions + [Transaction(date, DepositKind, amount, r.balance)]
      && r.status == (if s.variant == Savings && r.balance >= MinimumBalance then true else s.status)
      && r == s.(balance := r.balance, deposits := r.deposits,
                 transactions := r.transactions, status := r.status)
  {
  }

  // ------------------------------------------------------------ withdraw

  /** A non-positive withdrawal is refused by both variants. */
  lemma InvalidWithdraw(s: AccountState, amount: real, date: string)
    requires amount <= 0.0
    ensures Withdraw(s, amount, date) == s
  {
  }

  /**
   * A savings withdrawal changes the account exactly when the amount is
   * positive, the account is active and the funds suffice; then it pays out,
   * counts one withdrawal, logs one "Withdrawal" and freezes the account iff
   * the new balance is below the minimum.
   */
  lemma SavingsWithdrawGuard(s: AccountState, amount: real, date: string)
    requires s.variant == Savings
    ensures var r := Withdraw(s, amount, date);
      && (r != s <==> amount > 0.0 && s.status && s.balance >= amount)
      && (amount > 0.0 && s.status && s.balance >= amount ==>
            && r.balance == s.balance - amount
            && r.withdrawals == s.withdrawals + 1
            && r.transactions == s.transactions + [Transaction(date, WithdrawalKind, amount, r.balance)]
            && (r.status <==> r.balance >= MinimumBalance)
            && r == s.(balance := r.balance, withdrawals := r.withdrawals,
                       transactions := r.transactions, status := r.status))
  {
    var r := Withdraw(s, amount, date);
    if amount > 0.0 && s.status && s.balance >= amount {
      assert |r.transactions| == |s.transactions| + 1;
    }
  }

  /**
   * A checking withdrawal within the balance is a plain withdrawal; one above
   * it takes the $15 fee from the balance, adds it to the pending charges,
   * logs one "Overdraft Fee" of -15, and does not pay out the requested amount.
   */
  lemma CheckingWithdrawal(s: AccountState, amount: real, date: string)
    requires s.variant == Checking && amount > 0.0
    ensures var r := Withdraw(s, amount, date);
      if amount <= s.balance then
        && r.balance == s.balance - amount
        && r.withdrawals == s.withdrawals + 1
        && r.transactions == s.transactions + [Transaction(date, WithdrawalKind, amount, r.balance)]
        && r == s.(balance := r.balance, withdrawals := r.withdrawals, transactions := r.transactions)
      else
        && r.balance == s.balance - OverdraftFee
        && r.serviceCharges == s.serviceCharges + OverdraftFee
        && r.withdrawals == s.withdrawals
        && r.transactions == s.transactions + [Transaction(date, OverdraftFeeKind, -OverdraftFee, r.balance)]
        && r == s.(balance := r.balance, serviceCharges := r.serviceCharges,
                   transactions := r.transactions)
  {
  }

  // ------------------------------------------------------ monthly processing

  /** The base cycle: deduct the pending charges, add interest on what is left, reset. */
  lemma BaseMonthlyProcEffect(s: AccountState, date: string)
    ensures var r := BaseMonthlyProc(s, date);
      var charged := s.balance - s.serviceCharges;
      var interest := charged * (s.interestRate / 12.0);
      && r.balance == charged + interest
      && r.transactions == s.transactions
           + (if s.serviceCharges > 0.0 then [Transaction(date, ServiceChargeKind, -s.serviceCharges, charged)] else [])
           + [Transaction(date, InterestKind, interest, r.balance)]
      && r == s.(balance := r.balance, transactions := r.transactions,
                 deposits := 0, withdrawals := 0, serviceCharges := 0.0)
  {
  }

  /**
   * Monthly processing deducts the pending charge first (logging it only when
   * positive), then adds interest at the monthly rate on the reduced balance
   * and logs it, resets the three cycle counters, and finally freezes a
   * savings account whose balance ends below the minimum.
   */
  lemma MonthlyProcEffect(s: AccountState, date: string)
    ensures var r := MonthlyProc(s, date);
      var charge := PendingCharge(s);
      var charged := s.balance - charge;
      var interest := charged * (s.interestRate / 12.0);
      && r.balance == charged + interest
      && r.transactions == s.transactions
           + (if charge > 0.0 then [Transaction(date, ServiceChargeKind, -charge, charged)] else [])
           + [Transaction(date, InterestKind, interest, r.balance)]
      && r.deposits == 0 && r.withdrawals == 0 && r.serviceCharges == 0.0
      && r.status == (if s.variant == Savings && r.balance < MinimumBalance then false else s.status)
      && r.variant == s.variant && r.pin == s.pin && r.interestRate == s.interestRate
  {
    var t := s.(serviceCharges := PendingCharge(s));
    BaseMonthlyProcEffect(t, date);
    match s.variant
    case Savings =>
      assert SavingsMonthlyProc(s, date) ==
        var u := BaseMonthlyProc(t, date); if u.balance < MinimumBalance then u.(status := false) else u;
    case Checking =>
      assert CheckingMonthlyProc(s, date) == BaseMonthlyProc(t, date);
  }

  /** Both variants end a cycle with all three counters at zero. */
  lemma MonthlyProcResetsCounters(s: AccountState, date: string)
    ensures MonthlyProc(s, date).deposits == 0
    ensures MonthlyProc(s, date).withdrawals == 0
    ensures MonthlyProc(s, date).serviceCharges == 0.0
  {
  }

  /**
   * The overdraft fee is paid twice: once from the balance at the withdrawal,
   * and again at the next monthly processing, where it is part of the
   * service charge.
   */
  lemma OverdraftFeeChargedTwice(s: AccountState, amount: real, d1: string, d2: string)
    requires s.variant == Checking && s.serviceCharges >= 0.0 && 0.0 < amount && s.balance < amount
    ensures var r := MonthlyProc(Withdraw(s, amount, d1), d2);
      var charge := PendingCharge(s) + OverdraftFee;
      var beforeInterest := s.balance - 2.0 * OverdraftFee - PendingCharge(s);
      && |r.transactions| == |s.transactions| + 3
      && r.transactions[|s.transactions| + 1] == Transaction(d2, ServiceChargeKind, -charge, s.balance - OverdraftFee - charge)
      && r.balance == beforeInterest + beforeInterest * (s.interestRate / 12.0)
  {
    var t := Withdraw(s, amount, d1);
    CheckingWithdrawal(s, amount, d1);
    MonthlyProcEffect(t, d2);
  }

  // ------------------------------------------------------------ the history

  /** Every operation keeps the account consistent, extends its history and keeps its variant and PIN. */
  lemma ApplyKeepsInvariant(s: AccountState, op: Operation)
    requires Invariant(s)
    ensures var r := Apply(s, op);
      && Invariant(r)
      && s.transactions <= r.transactions
      && r.variant == s.variant && r.pin == s.pin
  {
  }

  /** A whole session keeps the account consistent and only ever appends to the history. */
  lemma {:induction false} RunKeepsInvariant(s: AccountState, ops: seq<Operation>)
    requires Invariant(s)
    ensures var r := Run(s, ops);
      && Invariant(r)
      && s.transactions <= r.transactions
      && r.variant == s.variant && r.pin == s.pin
    decreases |ops|
  {
    if ops != [] {
      ApplyKeepsInvariant(s, ops[0]);
      RunKeepsInvariant(Apply(s, ops[0]), ops[1..]);
    }
  }

  /**
   * From a new account, after any session the balance is the last logged
   * `balanceAfter` (or 0 with an empty history), and the PIN is the one it
   * was created with.
   */
  lemma LogTracksBalance(v: Variant, pin: int, ops: seq<Operation>)
    ensures var r := Run(NewAccount(v, pin), ops);
      && (r.transactions == [] ==> r.balance == 0.0)
      && (r.transactions != [] ==> r.balance == r.transactions[|r.transactions| - 1].balanceAfter)
      && r.pin == pin
  {
    RunKeepsInvariant(NewAccount(v, pin), ops);
  }

  /**
   * A frozen savings account becomes active after one operation exactly when
   * that operation is a deposit leaving the balance at the minimum or more:
   * withdrawals are refused while frozen, and monthly processing only ever
   * clears the flag.
   */
  lemma ReactivationOnlyByDeposit(s: AccountState, op: Operation)
    requires s.variant == Savings && !s.status
    ensures Apply(s, op).status <==> op.DepositOp? && Apply(s, op).balance >= MinimumBalance
    ensures Apply(s, op).variant == Savings
  {
  }

  /** Whether some deposit of the session, applied in turn from `s`, ends at the minimum balance or more. */
  predicate ReactivatingDepositIn(s: AccountState, ops: seq<Operation>)
    decreases |ops|
  {
    && ops != []
    && ((ops[0].DepositOp? && Apply(s, ops[0]).balance >= MinimumBalance)
        || ReactivatingDepositIn(Apply(s, ops[0]), ops[1..]))
  }

  /**
   * A frozen savings account stays frozen, and refuses every withdrawal, until
   * a deposit brings its balance back to the minimum; deposits that leave it
   * below the minimum (refused ones included) do not unfreeze it.
   */
  lemma {:induction false} FrozenUntilDeposit(s: AccountState, ops: seq<Operation>, amount: real, date: string)
    requires s.variant == Savings && !s.status
    ensures !ReactivatingDepositIn(s, ops) ==> !Run(s, ops).status
    ensures !ReactivatingDepositIn(s, ops) ==> Withdraw(Run(s, ops), amount, date) == Run(s, ops)
    decreases |ops|
  {
    if ops != [] && !ReactivatingDepositIn(s, ops) {
      ReactivationOnlyByDeposit(s, ops[0]);
      FrozenUntilDeposit(Apply(s, ops[0]), ops[1..], amount, date);
    }
  }

  // ------------------------------------------------------------- scenarios

  /** Deposit 100, withdraw 80 (frozen at 20), then withdrawing 5 is refused. */
  lemma SavingsFreezeScenario()
    ensures var s0 := NewAccount(Savings, 1111);
      var s1 := Deposit(s0, 100.0, "d");
      var s2 := Withdraw(s1, 80.0, "d");
      && s1.balance == 100.0 && s1.status
      && s2.balance == 20.0 && !s2.status
      && Withdraw(s2, 5.0, "d") == s2
  {
  }

  /** A new checking account asked for 50 goes to -15 with 15 pending and one fee entry. */
  lemma CheckingOverdraftScenario()
    ensures var r := Withdraw(NewAccount(Checking, 0), 50.0, "d");
      && r.balance == -15.0 && r.serviceCharges == 15.0
      && r.transactions == [Transaction("d", "Overdraft Fee", -15.0, -15.0)]
  {
  }

  /** Three checking withdrawals in a cycle make a service charge of 5.30 before interest. */
  lemma CheckingServiceChargeScenario(s: AccountState, date: string)
    requires s.variant == Checking && s.withdrawals == 3 && s.serviceCharges == 0.0
    ensures MonthlyProc(s, date).transactions[|s.transactions|]
            == Transaction(date, "Service Charge", -5.30, s.balance - 5.30)
  {
    MonthlyProcEffect(s, date);
  }

  /**
   * A refused deposit can change a reachable savings account: deposit 30,
   * withdraw 5.05 (frozen at 24.95), month end lifts it to about 25.05 while
   * it stays frozen; a deposit of 0 then reactivates it.
   */
  lemma InvalidDepositReactivates()
    ensures var s := Run(NewAccount(Savings, 0),
                         [DepositOp(30.0, "d"), WithdrawOp(5.05, "d"), MonthlyProcOp("d")]);
      && !s.status && s.balance >= 25.0
      && Deposit(s, 0.0, "d") != s
      && Deposit(s, 0.0, "d").status
  {
  }
}
