/** The vault contract always holds the tokens its books say it holds. */
module Solvency {
  import opened Types
  import opened TokenLedger
  import opened VaultModel

  /** The sum of every recorded `collateral_balance`. */
  ghost function Total(vaults: map<Address, Vault>): int
    decreases |vaults|
  {
    if vaults == map[] then 0
    else
      var g :| g in vaults;
      vaults[g].collateralBalance + Total(vaults - {g})
  }

  /** The sum does not depend on the order in which positions are picked. */
  lemma {:induction false} TotalSplit(vaults: map<Address, Vault>, g: Address)
    requires g in vaults
    ensures Total(vaults) == vaults[g].collateralBalance + Total(vaults - {g})
    decreases |vaults|
  {
    var h :| h in vaults && Total(vaults) == vaults[h].collateralBalance + Total(vaults - {h});
    if h != g {
      TotalSplit(vaults - {h}, g);
      TotalSplit(vaults - {g}, h);
      assert vaults - {h} - {g} == vaults - {g} - {h};
    }
  }

  lemma TotalUpdate(v: VaultState, vault: Vault)
    ensures Total(v.vaults[vault.guarantor := vault])
         == Total(v.vaults) - VaultOf(v, vault.guarantor).collateralBalance + vault.collateralBalance
  {
    var g := vault.guarantor;
    var updated := v.vaults[g := vault];
    TotalSplit(updated, g);
    assert updated - {g} == v.vaults - {g};
    if g in v.vaults {
      TotalSplit(v.vaults, g);
    } else {
      assert v.vaults - {g} == v.vaults;
    }
  }

  /** What every `save` asserts, of every position, each stored under its own guarantor. */
  ghost predicate PositionsSound(v: VaultState) {
    forall g :: g in v.vaults ==>
      v.vaults[g].guarantor == g && 0 <= v.vaults[g].lockedAmount <= v.vaults[g].collateralBalance
  }

  ghost predicate Solvent(c: Custody) {
    BalanceOf(c.balances, c.vault.self) >= Total(c.vault.vaults)
  }

  ghost predicate CustodySound(c: Custody) {
    PositionsSound(c.vault) && Solvent(c)
  }

  ghost predicate NothingLocked(v: VaultState) {
    forall g :: VaultOf(v, g).lockedAmount == 0
  }

  lemma {:induction false} TotalNonNegative(v: VaultState)
    requires PositionsSound(v)
    ensures Total(v.vaults) >= 0
    decreases |v.vaults|
  {
    if v.vaults != map[] {
      var g :| g in v.vaults;
      TotalSplit(v.vaults, g);
      TotalNonNegative(v.(vaults := v.vaults - {g}));
    }
  }

  /** The tokens behind any one position are there. */
  lemma PositionBacked(c: Custody, g: Address)
    requires CustodySound(c)
    ensures 0 <= VaultOf(c.vault, g).lockedAmount <= VaultOf(c.vault, g).collateralBalance
    ensures VaultOf(c.vault, g).collateralBalance <= BalanceOf(c.balances, c.vault.self)
  {
    TotalNonNegative(c.vault);
    if g in c.vault.vaults {
      TotalSplit(c.vault.vaults, g);
      TotalNonNegative(c.vault.(vaults := c.vault.vaults - {g}));
    }
  }

  /** The custody after a change to one position: nothing else in the vault moves. */
  ghost predicate OnlyPosition(before: Custody, after: Custody, g: Address, balance: int, locked: int) {
    after.vault == before.vault.(vaults := before.vault.vaults[g := Vault(g, balance, locked)])
  }

  /** A deposit goes through exactly when the signer has the tokens, the position has room
      in its machine integer, and it is not from the vault to itself. */
  lemma DepositIff(c: Custody, env: Env, g: Address, amount: int)
    requires CustodySound(c)
    ensures Deposit(c, env, g, amount).Ok? <==>
              && g in env.auth && 0 < amount <= BalanceOf(c.balances, g) && g != c.vault.self
              && I128(VaultOf(c.vault, g).collateralBalance + amount)
    ensures Deposit(c, env, g, amount).Ok? ==>
              var next, vault := Deposit(c, env, g, amount).value, VaultOf(c.vault, g);
              && CustodySound(next)
              && Move(c.balances, g, c.vault.self, amount) == Ok(next.balances)
              && OnlyPosition(c, next, g, vault.collateralBalance + amount, vault.lockedAmount)
  {
    PositionBacked(c, g);
    var vault := VaultOf(c.vault, g);
    TotalUpdate(c.vault, vault.(collateralBalance := vault.collateralBalance + amount));
  }

  /** A guarantor can always withdraw, and never more than what is unlocked. */
  lemma WithdrawIff(c: Custody, env: Env, g: Address, amount: int)
    requires CustodySound(c) && g in env.auth
    ensures Withdraw(c, env, g, amount).Ok? <==> 0 < amount <= Available(c.vault, g)
    ensures Withdraw(c, env, g, amount).Ok? ==>
              var next, vault := Withdraw(c, env, g, amount).value, VaultOf(c.vault, g);
              && CustodySound(next)
              && OnlyPosition(c, next, g, vault.collateralBalance - amount, vault.lockedAmount)
              && (g != c.vault.self ==> BalanceOf(next.balances, g) == BalanceOf(c.balances, g) + amount)
  {
    PositionBacked(c, g);
    var vault := VaultOf(c.vault, g);
    TotalUpdate(c.vault, vault.(collateralBalance := vault.collateralBalance - amount));
  }

  /** Withdrawing what was just deposited undoes the deposit: every position and every
      token balance is what it was. */
  lemma WithdrawUndoesDeposit(c: Custody, env: Env, g: Address, amount: int)
    requires CustodySound(c) && Deposit(c, env, g, amount).Ok?
    ensures var undone := Withdraw(Deposit(c, env, g, amount).value, env, g, amount);
            && undone.Ok?
            && (forall x :: VaultOf(undone.value.vault, x) == VaultOf(c.vault, x))
            && (forall x :: BalanceOf(undone.value.balances, x) == BalanceOf(c.balances, x))
  {
    DepositIff(c, env, g, amount);
    PositionBacked(c, g);
    WithdrawIff(Deposit(c, env, g, amount).value, env, g, amount);
  }

  lemma LockIff(c: Custody, env: Env, caller: Address, g: Address, amount: int)
    requires CustodySound(c)
    ensures LockCollateral(c, env, caller, g, amount).Ok? <==>
              caller in env.auth && c.vault.loanLedger == Some(caller) && 0 < amount <= Available(c.vault, g)
    ensures LockCollateral(c, env, caller, g, amount).Ok? ==>
              var next, vault := LockCollateral(c, env, caller, g, amount).value, VaultOf(c.vault, g);
              && CustodySound(next) && next.balances == c.balances
              && OnlyPosition(c, next, g, vault.collateralBalance, vault.lockedAmount + amount)
  {
    PositionBacked(c, g);
    var vault := VaultOf(c.vault, g);
    TotalUpdate(c.vault, vault.(lockedAmount := vault.lockedAmount + amount));
  }

  lemma ReleaseIff(c: Custody, env: Env, caller: Address, g: Address, amount: int)
    requires CustodySound(c)
    ensures ReleaseCollateral(c, env, caller, g, amount).Ok? <==>
              && caller in env.auth && (c.vault.loanLedger == Some(caller) || c.vault.liquidationEngine == Some(caller))
              && 0 < amount <= VaultOf(c.vault, g).lockedAmount
    ensures ReleaseCollateral(c, env, caller, g, amount).Ok? ==>
              var next, vault := ReleaseCollateral(c, env, caller, g, amount).value, VaultOf(c.vault, g);
              && CustodySound(next) && next.balances == c.balances
              && OnlyPosition(c, next, g, vault.collateralBalance, vault.lockedAmount - amount)
  {
    PositionBacked(c, g);
    var vault := VaultOf(c.vault, g);
    TotalUpdate(c.vault, vault.(lockedAmount := vault.lockedAmount - amount));
  }

  /** Seizing locked collateral cannot run short of tokens, and pays the settlement
      address in force exactly the amount seized. */
  lemma ForfeitIff(c: Custody, env: Env, caller: Address, g: Address, amount: int)
    requires CustodySound(c)
    ensures ForfeitCollateral(c, env, caller, g, amount).Ok? <==>
              && caller in env.auth && c.vault.liquidationEngine == Some(caller)
              && 0 < amount <= VaultOf(c.vault, g).lockedAmount
    ensures ForfeitCollateral(c, env, caller, g, amount).Ok? ==>
              var next, vault := ForfeitCollateral(c, env, caller, g, amount).value, VaultOf(c.vault, g);
              && CustodySound(next)
              && Move(c.balances, c.vault.self, c.vault.settlement, amount) == Ok(next.balances)
              && OnlyPosition(c, next, g, vault.collateralBalance - amount, vault.lockedAmount - amount)
  {
    PositionBacked(c, g);
    var vault := VaultOf(c.vault, g);
    TotalUpdate(c.vault, vault.(lockedAmount := vault.lockedAmount - amount,
                                collateralBalance := vault.collateralBalance - amount));
  }
}
