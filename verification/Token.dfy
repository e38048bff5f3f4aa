/** The token the contract escrows, seen as balances and one operation. */
module Token {
  import opened Arithmetic
  import opened Types
  import opened Wrappers

  type Balance = x: int | 0 <= x <= I128_MAX

  type Ledger = map<Address, Balance>

  function BalanceOf(ledger: Ledger, account: Address): Balance {
    if account in ledger then ledger[account] else 0
  }

  // Debits, then credits; either half can trap. An account may pay itself.
  function Transfer(ledger: Ledger, from: Address, to: Address, amount: Int128): Option<Ledger> {
    if amount < 0 || BalanceOf(ledger, from) < amount then None
    else
      var debited := ledger[from := BalanceOf(ledger, from) - amount];
      if BalanceOf(debited, to) + amount > I128_MAX then None
      else Some(debited[to := BalanceOf(debited, to) + amount])
  }

  // Everything issued, over all accounts.
  ghost function Issued(ledger: Ledger): nat {
    if ledger == map[] then 0
    else
      var account :| account in ledger;
      ledger[account] + Issued(ledger - {account})
  }

  lemma {:induction false} IssuedSplit(ledger: Ledger, account: Address)
    requires account in ledger
    ensures Issued(ledger) == ledger[account] + Issued(ledger - {account})
    decreases |ledger|
  {
    var first :| first in ledger && Issued(ledger) == ledger[first] + Issued(ledger - {first});
    if first != account {
      IssuedSplit(ledger - {first}, account);
      IssuedSplit(ledger - {account}, first);
      assert ledger - {first} - {account} == ledger - {account} - {first};
    }
  }

  lemma {:induction false} IssuedUpdate(ledger: Ledger, account: Address, balance: Balance)
    ensures Issued(ledger[account := balance]) == Issued(ledger) - BalanceOf(ledger, account) + balance
  {
    var updated := ledger[account := balance];
    IssuedSplit(updated, account);
    if account in ledger {
      IssuedSplit(ledger, account);
      assert updated - {account} == ledger - {account};
    } else {
      assert updated - {account} == ledger;
    }
  }

  /** A transfer moves exactly `amount`, touches no third account and issues nothing. */
  lemma {:induction false} TransferMovesExactly(ledger: Ledger, from: Address, to: Address, amount: Int128)
    requires Transfer(ledger, from, to, amount).Some?
    ensures
      var moved := Transfer(ledger, from, to, amount).value;
      && Issued(moved) == Issued(ledger)
      && (from == to ==> BalanceOf(moved, from) == BalanceOf(ledger, from))
      && (from != to ==> BalanceOf(moved, from) == BalanceOf(ledger, from) - amount)
      && (from != to ==> BalanceOf(moved, to) == BalanceOf(ledger, to) + amount)
      && (forall other | other != from && other != to :: BalanceOf(moved, other) == BalanceOf(ledger, other))
  {
    var debited := ledger[from := BalanceOf(ledger, from) - amount];
    IssuedUpdate(ledger, from, BalanceOf(ledger, from) - amount);
    IssuedUpdate(debited, to, BalanceOf(debited, to) + amount);
  }

  lemma {:induction false} PairWithinIssued(ledger: Ledger, a: Address, b: Address)
    requires a != b
    ensures BalanceOf(ledger, a) + BalanceOf(ledger, b) <= Issued(ledger)
  {
    if a in ledger {
      IssuedSplit(ledger, a);
    }
    if b in ledger {
      IssuedSplit(ledger, b);
    }
    if a in ledger && b in ledger {
      IssuedSplit(ledger - {a}, b);
    }
  }

  /** When no more than an `i128` is issued, only a poor payer can make a
      transfer fail. */
  lemma {:induction false} TransferSucceedsIff(ledger: Ledger, from: Address, to: Address, amount: Int128)
    requires 0 <= amount && Issued(ledger) <= I128_MAX
    ensures Transfer(ledger, from, to, amount).Some? <==> amount <= BalanceOf(ledger, from)
  {
    if from != to {
      PairWithinIssued(ledger, from, to);
    }
  }

  // Every balance, after `amount` has gone from one account to another.
  ghost predicate Moves(before: Ledger, after: Ledger, from: Address, to: Address, amount: int) {
    forall account ::
      BalanceOf(after, account) == BalanceOf(before, account)
                                   + (if account == to then amount else 0) - (if account == from then amount else 0)
  }

  /** Without any assumption on what is issued: the payer must have the amount, and
      a payee other than the payer must have room for it. */
  lemma {:induction false} TransferIff(ledger: Ledger, from: Address, to: Address, amount: Int128)
    ensures Transfer(ledger, from, to, amount).Some? <==>
            && 0 <= amount <= BalanceOf(ledger, from)
            && (from == to || BalanceOf(ledger, to) + amount <= I128_MAX)
    ensures Transfer(ledger, from, to, amount).Some? ==>
            Moves(ledger, Transfer(ledger, from, to, amount).value, from, to, amount)
  {
    if Transfer(ledger, from, to, amount).Some? {
      TransferMovesExactly(ledger, from, to, amount);
    }
  }
}
