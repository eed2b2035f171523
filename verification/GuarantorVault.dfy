/** The vault contract as the object it is: storage keys are fields, entry points
    are methods that update them in place. Every method is proved to do exactly what
    its transition in `VaultModel` says, and to leave no trace when it aborts. */
module GuarantorVault {
  import opened Types
  import opened TokenLedger
  import Model = VaultModel

  /** An aborted call reverts; a successful one lands on the transition's state. */
  ghost predicate Follows(before: Model.Custody, spec: Result<Model.Custody>,
                          after: Model.Custody, r: Result<()>)
  {
    match spec
    case Ok(next) => r == Ok(()) && after == next
    case Err(e) => r == Err(e) && after == before
  }

  class GuarantorVault {
    const self: Address
    const token: Token
    const timelockSecs: nat
    var admin: Address
    var settlement: Address
    var loanLedger: Option<Address>
    var liquidationEngine: Option<Address>
    var scheduled: Option<Model.ScheduledAction>
    var vaults: map<Address, Model.Vault>

    constructor (self: Address, admin: Address, token: Token, settlement: Address, timelockSecs: nat)
      ensures this.self == self && this.token == token
      ensures State() == Model.Custody(
                           Model.VaultState(self, admin, settlement, timelockSecs, None, None, None, map[]),
                           token.balances)
    {
      this.self, this.token, this.timelockSecs := self, token, timelockSecs;
      this.admin, this.settlement := admin, settlement;
      loanLedger, liquidationEngine, scheduled := None, None, None;
      vaults := map[];
    }

    ghost function State(): Model.Custody
      reads this, token
    {
      Model.Custody(
        Model.VaultState(self, admin, settlement, timelockSecs, loanLedger, liquidationEngine, scheduled, vaults),
        token.balances)
    }

    function VaultOf(guarantor: Address): Model.Vault
      reads this
    {
      if guarantor in vaults then vaults[guarantor] else Model.Vault(guarantor, 0, 0)
    }

    method Save(vault: Model.Vault) returns (r: Result<()>)
      modifies this`vaults
      ensures r == if 0 <= vault.lockedAmount <= vault.collateralBalance then Ok(()) else Err(AccountingAssertion)
      ensures vaults == if r.Ok? then old(vaults)[vault.guarantor := vault] else old(vaults)
    {
      if vault.collateralBalance < 0 || vault.lockedAmount < 0 || vault.collateralBalance < vault.lockedAmount {
        return Err(AccountingAssertion);
      }
      vaults := vaults[vault.guarantor := vault];
      return Ok(());
    }

    method Deposit(env: Env, guarantor: Address, amount: int) returns (r: Result<()>)
      modifies this`vaults, token
      ensures Follows(old(State()), Model.Deposit(old(State()), env, guarantor, amount), State(), r)
    {
      if guarantor !in env.auth { return Err(AuthMissing); }
      if amount <= 0 { return Err(InvalidAmount); }

      var reverted := token.balances;
      var before := BalanceOf(token.balances, self);
      r := token.Transfer(guarantor, self, amount);
      if r.Err? { return; }
      var after := BalanceOf(token.balances, self);
      if after - before != amount {
        token.balances := reverted;
        return Err(InvalidAmount);
      }

      var vault := VaultOf(guarantor);
      if !I128(vault.collateralBalance + amount) {
        token.balances := reverted;
        return Err(Overflow);
      }
      vault := vault.(collateralBalance := vault.collateralBalance + amount);
      r := Save(vault);
      if r.Err? { token.balances := reverted; }
    }

    method Withdraw(env: Env, guarantor: Address, amount: int) returns (r: Result<()>)
      modifies this`vaults, token
      ensures Follows(old(State()), Model.Withdraw(old(State()), env, guarantor, amount), State(), r)
    {
      if guarantor !in env.auth { return Err(AuthMissing); }
      if amount <= 0 { return Err(InvalidAmount); }

      var reverted := vaults;
      var vault := VaultOf(guarantor);
      var available := vault.collateralBalance - vault.lockedAmount;
      if amount > available { return Err(InsufficientAvailable); }
      vault := vault.(collateralBalance := vault.collateralBalance - amount);
      r := Save(vault);
      if r.Err? { return; }

      r := token.Transfer(self, guarantor, amount);
      if r.Err? { vaults := reverted; }
    }

    method LockCollateral(env: Env, caller: Address, guarantor: Address, amount: int) returns (r: Result<()>)
      modifies this`vaults
      ensures Follows(old(State()), Model.LockCollateral(old(State()), env, caller, guarantor, amount), State(), r)
    {
      if caller !in env.auth { return Err(AuthMissing); }
      if loanLedger.None? { return Err(LedgerNotSet); }
      if caller != loanLedger.value { return Err(NotAuthorized); }
      if amount <= 0 { return Err(InvalidAmount); }

      var vault := VaultOf(guarantor);
      var available := vault.collateralBalance - vault.lockedAmount;
      if amount > available { return Err(InsufficientAvailable); }
      vault := vault.(lockedAmount := vault.lockedAmount + amount);
      r := Save(vault);
    }

    method ReleaseCollateral(env: Env, caller: Address, guarantor: Address, amount: int) returns (r: Result<()>)
      modifies this`vaults
      ensures Follows(old(State()), Model.ReleaseCollateral(old(State()), env, caller, guarantor, amount), State(), r)
    {
      if caller !in env.auth { return Err(AuthMissing); }
      if loanLedger != Some(caller) && liquidationEngine != Some(caller) { return Err(NotAuthorized); }
      if amount <= 0 { return Err(InvalidAmount); }

      var vault := VaultOf(guarantor);
      if amount > vault.lockedAmount { return Err(InsufficientLocked); }
      vault := vault.(lockedAmount := vault.lockedAmount - amount);
      r := Save(vault);
    }

    method ForfeitCollateral(env: Env, caller: Address, guarantor: Address, amount: int) returns (r: Result<()>)
      modifies this`vaults, token
      ensures Follows(old(State()), Model.ForfeitCollateral(old(State()), env, caller, guarantor, amount), State(), r)
    {
      if caller !in env.auth { return Err(AuthMissing); }
      if liquidationEngine.None? { return Err(EngineNotSet); }
      if caller != liquidationEngine.value { return Err(NotAuthorized); }
      if amount <= 0 { return Err(InvalidAmount); }

      var reverted := vaults;
      var vault := VaultOf(guarantor);
      if amount > vault.lockedAmount { return Err(InsufficientLocked); }
      vault := vault.(lockedAmount := vault.lockedAmount - amount);
      vault := vault.(collateralBalance := vault.collateralBalance - amount);
      r := Save(vault);
      if r.Err? { return; }

      r := token.Transfer(self, settlement, amount);
      if r.Err? { vaults := reverted; }
    }

    method SetLoanLedger(env: Env, caller: Address, ledger: Address) returns (r: Result<()>)
      modifies this`loanLedger
      ensures Follows(old(State()), Model.SetLoanLedger(old(State()), env, caller, ledger), State(), r)
    {
      if caller !in env.auth { return Err(AuthMissing); }
      if caller != admin { return Err(NotAuthorized); }
      if loanLedger.Some? { return Err(AlreadySet); }
      loanLedger := Some(ledger);
      return Ok(());
    }

    method SetLiquidationEngine(env: Env, caller: Address, engine: Address) returns (r: Result<()>)
      modifies this`liquidationEngine
      ensures Follows(old(State()), Model.SetLiquidationEngine(old(State()), env, caller, engine), State(), r)
    {
      if caller !in env.auth { return Err(AuthMissing); }
      if caller != admin { return Err(NotAuthorized); }
      if liquidationEngine.Some? { return Err(AlreadySet); }
      liquidationEngine := Some(engine);
      return Ok(());
    }

    method ScheduleAction(env: Env, caller: Address, action: Model.Action) returns (r: Result<()>)
      modifies this`scheduled
      ensures Follows(old(State()), Model.ScheduleAction(old(State()), env, caller, action), State(), r)
    {
      if caller !in env.auth { return Err(AuthMissing); }
      if caller != admin { return Err(NotAuthorized); }
      if scheduled.Some? { return Err(ActionPending); }
      if !U64(env.now + timelockSecs) { return Err(Overflow); }
      scheduled := Some(Model.ScheduledAction(action, env.now + timelockSecs));
      return Ok(());
    }

    method ExecuteAction(env: Env, caller: Address) returns (r: Result<()>)
      modifies this`scheduled, this`settlement
      ensures Follows(old(State()), Model.ExecuteAction(old(State()), env, caller), State(), r)
    {
      if caller !in env.auth { return Err(AuthMissing); }
      if caller != admin { return Err(NotAuthorized); }
      if scheduled.None? { return Err(NoPendingAction); }
      var pending := scheduled.value;
      if env.now < pending.eta { return Err(TimelockNotExpired); }
      match pending.action {
        case Upgrade(_) => return Err(CodeReplaced);
        case SetSettlement(address) =>
          scheduled := None;
          settlement := address;
          return Ok(());
      }
    }

    method CancelAction(env: Env, caller: Address) returns (r: Result<()>)
      modifies this`scheduled
      ensures Follows(old(State()), Model.CancelAction(old(State()), env, caller), State(), r)
    {
      if caller !in env.auth { return Err(AuthMissing); }
      if caller != admin { return Err(NotAuthorized); }
      if scheduled.None? { return Err(NoPendingAction); }
      scheduled := None;
      return Ok(());
    }
  }
}
