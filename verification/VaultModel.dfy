/** The vault contract's storage and its entry points as state transitions.
    Each transition either yields the next state or names the check that refused. */
module VaultModel {
  import opened Types
  import opened TokenLedger

  /** One guarantor's collateral position. */
  datatype Vault = Vault(guarantor: Address, collateralBalance: int, lockedAmount: int)

  datatype Action = Upgrade(wasmHash: nat) | SetSettlement(settlement: Address)

  datatype ScheduledAction = ScheduledAction(action: Action, eta: nat)

  datatype VaultState = VaultState(
    self: Address,
    admin: Address,
    settlement: Address,
    timelockSecs: nat,
    loanLedger: Option<Address>,
    liquidationEngine: Option<Address>,
    scheduled: Option<ScheduledAction>,
    vaults: map<Address, Vault>)

  /** The vault contract together with the token balances it moves. */
  datatype Custody = Custody(vault: VaultState, balances: Balances)

  function VaultOf(v: VaultState, guarantor: Address): Vault {
    if guarantor in v.vaults then v.vaults[guarantor] else Vault(guarantor, 0, 0)
  }

  function Available(v: VaultState, guarantor: Address): int {
    VaultOf(v, guarantor).collateralBalance - VaultOf(v, guarantor).lockedAmount
  }

  /** Every change to a position is written through here, behind three assertions. */
  function Save(v: VaultState, vault: Vault): Result<VaultState> {
    if 0 <= vault.lockedAmount <= vault.collateralBalance then
      Ok(v.(vaults := v.vaults[vault.guarantor := vault]))
    else
      Err(AccountingAssertion)
  }

  // ----- Guarantor operations -----

  function Deposit(c: Custody, env: Env, guarantor: Address, amount: int): Result<Custody> {
    if guarantor !in env.auth then Err(AuthMissing)
    else if amount <= 0 then Err(InvalidAmount)
    else
      var moved :- Move(c.balances, guarantor, c.vault.self, amount);
      if BalanceOf(moved, c.vault.self) - BalanceOf(c.balances, c.vault.self) != amount then Err(InvalidAmount)
      else
        var vault := VaultOf(c.vault, guarantor);
        if !I128(vault.collateralBalance + amount) then Err(Overflow)
        else
          var saved :- Save(c.vault, vault.(collateralBalance := vault.collateralBalance + amount));
          Ok(Custody(saved, moved))
  }

  function Withdraw(c: Custody, env: Env, guarantor: Address, amount: int): Result<Custody> {
    if guarantor !in env.auth then Err(AuthMissing)
    else if amount <= 0 then Err(InvalidAmount)
    else if amount > Available(c.vault, guarantor) then Err(InsufficientAvailable)
    else
      var vault := VaultOf(c.vault, guarantor);
      var saved :- Save(c.vault, vault.(collateralBalance := vault.collateralBalance - amount));
      var moved :- Move(c.balances, c.vault.self, guarantor, amount);
      Ok(Custody(saved, moved))
  }

  // ----- Protocol operations -----

  function LockCollateral(c: Custody, env: Env, caller: Address, guarantor: Address, amount: int): Result<Custody> {
    if caller !in env.auth then Err(AuthMissing)
    else if c.vault.loanLedger.None? then Err(LedgerNotSet)
    else if c.vault.loanLedger != Some(caller) then Err(NotAuthorized)
    else if amount <= 0 then Err(InvalidAmount)
    else if amount > Available(c.vault, guarantor) then Err(InsufficientAvailable)
    else
      var vault := VaultOf(c.vault, guarantor);
      var saved :- Save(c.vault, vault.(lockedAmount := vault.lockedAmount + amount));
      Ok(c.(vault := saved))
  }

  function ReleaseCollateral(c: Custody, env: Env, caller: Address, guarantor: Address, amount: int): Result<Custody> {
    if caller !in env.auth then Err(AuthMissing)
    else if c.vault.loanLedger != Some(caller) && c.vault.liquidationEngine != Some(caller) then Err(NotAuthorized)
    else if amount <= 0 then Err(InvalidAmount)
    else if amount > VaultOf(c.vault, guarantor).lockedAmount then Err(InsufficientLocked)
    else
      var vault := VaultOf(c.vault, guarantor);
      var saved :- Save(c.vault, vault.(lockedAmount := vault.lockedAmount - amount));
      Ok(c.(vault := saved))
  }

  function ForfeitCollateral(c: Custody, env: Env, caller: Address, guarantor: Address, amount: int): Result<Custody> {
    if caller !in env.auth then Err(AuthMissing)
    else if c.vault.liquidationEngine.None? then Err(EngineNotSet)
    else if c.vault.liquidationEngine != Some(caller) then Err(NotAuthorized)
    else if amount <= 0 then Err(InvalidAmount)
    else if amount > VaultOf(c.vault, guarantor).lockedAmount then Err(InsufficientLocked)
    else
      var vault := VaultOf(c.vault, guarantor);
      var saved :- Save(c.vault, vault.(lockedAmount := vault.lockedAmount - amount,
                                        collateralBalance := vault.collateralBalance - amount));
      var moved :- Move(c.balances, c.vault.self, c.vault.settlement, amount);
      Ok(Custody(saved, moved))
  }

  // ----- Administration -----

  function RequireAdmin(stored: Address, env: Env, admin: Address): Result<()> {
    if admin !in env.auth then Err(AuthMissing)
    else if admin != stored then Err(NotAuthorized)
    else Ok(())
  }

  function SetLoanLedger(c: Custody, env: Env, admin: Address, ledger: Address): Result<Custody> {
    var _ :- RequireAdmin(c.vault.admin, env, admin);
    if c.vault.loanLedger.Some? then Err(AlreadySet)
    else Ok(c.(vault := c.vault.(loanLedger := Some(ledger))))
  }

  function SetLiquidationEngine(c: Custody, env: Env, admin: Address, engine: Address): Result<Custody> {
    var _ :- RequireAdmin(c.vault.admin, env, admin);
    if c.vault.liquidationEngine.Some? then Err(AlreadySet)
    else Ok(c.(vault := c.vault.(liquidationEngine := Some(engine))))
  }

  function ScheduleAction(c: Custody, env: Env, admin: Address, action: Action): Result<Custody> {
    var _ :- RequireAdmin(c.vault.admin, env, admin);
    if c.vault.scheduled.Some? then Err(ActionPending)
    else if !U64(env.now + c.vault.timelockSecs) then Err(Overflow)
    else
      Ok(c.(vault := c.vault.(scheduled := Some(ScheduledAction(action, env.now + c.vault.timelockSecs)))))
  }

  function ExecuteAction(c: Custody, env: Env, admin: Address): Result<Custody> {
    var _ :- RequireAdmin(c.vault.admin, env, admin);
    match c.vault.scheduled
    case None => Err(NoPendingAction)
    case Some(scheduled) =>
      if env.now < scheduled.eta then Err(TimelockNotExpired)
      else
        match scheduled.action
        case Upgrade(_) => Err(CodeReplaced)
        case SetSettlement(settlement) =>
          Ok(c.(vault := c.vault.(scheduled := None, settlement := settlement)))
  }

  function CancelAction(c: Custody, env: Env, admin: Address): Result<Custody> {
    var _ :- RequireAdmin(c.vault.admin, env, admin);
    if c.vault.scheduled.None? then Err(NoPendingAction)
    else Ok(c.(vault := c.vault.(scheduled := None)))
  }
}
