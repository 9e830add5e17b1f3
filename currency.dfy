/** The currency ledger: one signed balance that changes only through `AddCurrency`.
    The order store and the customization store both hold a reference to the same
    ledger object, so a reward or a purchase is seen by every reader of `balance`. */
module Currency {

  class CurrencyStore {
    /** Whole coins. Prices, rewards (already floored) and the developer menu's
        parsed amounts are all integers. There is no floor at zero. */
    var balance: int

    /** A fresh ledger starts empty. */
    constructor ()
      ensures balance == 0
    {
      balance := 0;
    }

    /** Signed adjustment: a credit when `amount` is positive, a debit otherwise. */
    method AddCurrency(amount: int)
      modifies this
      ensures balance == old(balance) + amount
    {
      balance := balance + amount;
    }
  }

  /** Two adjustments in a row leave the same balance as one adjustment by their sum;
      in particular a debit that follows an equal credit restores the balance. */
  method AddCurrencyComposes(c: CurrencyStore, a: int, b: int)
    modifies c
    ensures c.balance == old(c.balance) + (a + b)
    ensures b == -a ==> c.balance == old(c.balance)
  {
    c.AddCurrency(a);
    c.AddCurrency(b);
  }

  /** "Set Money" in the developer menu: adjust by the difference to the target. */
  method SetMoney(c: CurrencyStore, target: int)
    modifies c
    ensures c.balance == target
  {
    var difference := target - c.balance;
    c.AddCurrency(difference);
  }

  /** The developer menu's reset: debit the whole current balance. */
  method ResetMoney(c: CurrencyStore)
    modifies c
    ensures c.balance == 0
  {
    c.AddCurrency(-c.balance);
  }
}
