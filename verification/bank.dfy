/**
 * The account registry: a map from account number to account object and the
 * counter that hands out the next number.
 */
module BankRegistry {
  import opened Wrappers
  import opened AccountRules
  import opened Accounts

  class Bank {
    var accounts: map<int, Account>
    var nextAccountNumber: int

    /**
     * Numbers already handed out are all below the counter, which starts at 1;
     * no account object is registered twice; every account is consistent.
     */
    ghost predicate Valid()
      reads this, accounts.Values
    {
      && 1 <= nextAccountNumber
      && (forall n :: n in accounts ==> 1 <= n < nextAccountNumber && accounts[n].Valid())
      && (forall m, n :: m in accounts && n in accounts && m != n ==> accounts[m] != accounts[n])
    }

    /** An empty registry whose first number is 1 (no saved registry is read). */
    constructor ()
      ensures Valid()
      ensures accounts == map[] && nextAccountNumber == 1
    {
      accounts := map[];
      nextAccountNumber := 1;
    }

    /**
     * "Savings" or "Checking" registers a new account of that variant with the
     * given PIN under the current counter, which it returns and advances; no
     * other entry changes and that number was free. Any other name returns -1
     * and changes nothing.
     */
    method CreateAccount(accountType: string, pin: int) returns (n: int)
      modifies this
      ensures ParseVariant(accountType).None? ==>
        n == -1 && accounts == old(accounts) && nextAccountNumber == old(nextAccountNumber)
      ensures ParseVariant(accountType).Some? ==>
        && n == old(nextAccountNumber)
        && nextAccountNumber == old(nextAccountNumber) + 1
        && n in accounts && fresh(accounts[n])
        && accounts == old(accounts)[n := accounts[n]]
        && accounts[n].State() == NewAccount(ParseVariant(accountType).value, pin)
        && accounts[n].GetType() == accountType
        && Authenticate(n, pin)
      ensures old(Valid()) ==> Valid() && n !in old(accounts)
    {
      var acc: Account? := null;
      if accountType == "Savings" {
        acc := new Account(Savings, pin);
      } else if accountType == "Checking" {
        acc := new Account(Checking, pin);
      }
      if acc != null {
        n := nextAccountNumber;
        nextAccountNumber := nextAccountNumber + 1;
        accounts := accounts[n := acc];
        return;
      }
      n := -1;
    }

    /** The account registered under a number, or nothing. */
    function GetAccount(n: int): (r: Option<Account>)
      reads this
      ensures r.Some? <==> n in accounts
      ensures r.Some? ==> r.value == accounts[n]
    {
      if n in accounts then Some(accounts[n]) else None
    }

    /** Whether the number is registered and its PIN is exactly the one given. */
    function Authenticate(n: int, pin: int): (ok: bool)
      reads this, accounts.Values
      ensures ok <==> n in accounts && accounts[n].pin == pin
    {
      match GetAccount(n)
      case Some(acc) => acc.GetPIN() == pin
      case None => false
    }
  }

  /**
   * A client of the registry: numbers are handed out from 1 in order, a
   * refused type name does not use one up, and each account authenticates
   * with its own PIN only.
   */
  method NumbersInCreationOrder() returns (first: int, refused: int, second: int, okFirst: bool, wrongPin: bool)
    ensures first == 1 && refused == -1 && second == 2
    ensures okFirst && !wrongPin
  {
    var bank := new Bank();
    first := bank.CreateAccount("Savings", 1111);
    refused := bank.CreateAccount("Brokerage", 2222);
    second := bank.CreateAccount("Checking", 3333);
    okFirst := bank.Authenticate(first, 1111);
    wrongPin := bank.Authenticate(second, 1111);
  }
}
