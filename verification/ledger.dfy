/** The coin balance as a ledger: a natural number that changes only through
    the store's `increment_coin_balance` and `decrement_coin_balance`
    procedures, seen here as plain addition and subtraction. */
module Ledger {
  import opened Common

  /** `increment_coin_balance`: adds the amount to the balance. */
  function Credit(balance: nat, amount: nat): nat {
    balance + amount
  }

  /** `decrement_coin_balance` behind the bot's own `coin_balance < coins`
      test: refused (`None`) when the balance falls short of the amount,
      otherwise the balance less the amount. */
  function Debit(balance: nat, amount: int): Option<nat> {
    if balance < amount then None else Some(balance - amount)
  }

  /** A debit is refused exactly when the balance is short, and an accepted
      debit takes off exactly the amount. */
  lemma DebitRefusedIffShort(balance: nat, amount: int)
    ensures Debit(balance, amount).None? <==> balance < amount
    ensures Debit(balance, amount).Some? ==> Debit(balance, amount).value + amount == balance
  {
  }

  /** The balance after crediting the same amount n times. */
  function CreditTimes(balance: nat, amount: nat, n: nat): nat {
    if n == 0 then balance else Credit(CreditTimes(balance, amount, n - 1), amount)
  }

  /** n credits of c add n * c. */
  lemma {:induction false} CreditTimesAddsProduct(balance: nat, amount: nat, n: nat)
    ensures CreditTimes(balance, amount, n) == balance + n * amount
  {
    if n > 0 {
      CreditTimesAddsProduct(balance, amount, n - 1);
      assert n * amount == (n - 1) * amount + amount;
    }
  }
}
