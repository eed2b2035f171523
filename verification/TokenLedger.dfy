/** The settlement token, as a plain balance sheet in which a transfer moves
    exactly the amount asked for or is refused. */
module TokenLedger {
  import opened Types

  type Balances = map<Address, nat>

  function BalanceOf(balances: Balances, owner: Address): nat {
    if owner in balances then balances[owner] else 0
  }

  function Move(balances: Balances, from: Address, to: Address, amount: int): Result<Balances> {
    if amount < 0 || BalanceOf(balances, from) < amount then
      Err(TokenRefused)
    else
      var debited := balances[from := BalanceOf(balances, from) - amount];
      Ok(debited[to := BalanceOf(debited, to) + amount])
  }

  class Token {
    var balances: Balances

    constructor (initial: Balances)
      ensures balances == initial
    {
      balances := initial;
    }

    method Transfer(from: Address, to: Address, amount: int) returns (r: Result<()>)
      modifies this
      ensures match Move(old(balances), from, to, amount)
              case Ok(moved) => r == Ok(()) && balances == moved
              case Err(e) => r == Err(e) && balances == old(balances)
    {
      if amount < 0 || BalanceOf(balances, from) < amount {
        return Err(TokenRefused);
      }
      balances := balances[from := BalanceOf(balances, from) - amount];
      balances := balances[to := BalanceOf(balances, to) + amount];
      return Ok(());
    }
  }
}
