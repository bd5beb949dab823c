/** Customers and their wallet. */
module Customers {
  import opened Outcomes

  class Customer {
    const name: string
    var wallet: int

    constructor (name: string, wallet: int)
      ensures this.name == name && this.wallet == wallet
    {
      this.name, this.wallet := name, wallet;
    }

    /** Takes `amount` from the wallet, or fails and leaves the wallet as it is when the wallet holds less. */
    method Deduct(amount: int) returns (o: Outcome)
      modifies this
      ensures o == if old(wallet) < amount then Fail(InsufficientFunds) else Pass
      ensures wallet == if o.Pass? then old(wallet) - amount else old(wallet)
      ensures old(wallet) >= 0 ==> wallet >= 0
    {
      if wallet < amount {
        return Fail(InsufficientFunds);
      }
      wallet := wallet - amount;
      o := Pass;
    }
  }
}
