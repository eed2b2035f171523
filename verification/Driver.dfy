/** Transactions carried out on the contract objects. What the state machine says a run does
    is what the objects do, so every result about runs is a result about them. */
module Driver {
  import opened Types
  import opened GuarantorVault
  import opened LoanLedger
  import opened LiquidationEngine
  import opened Protocol
  import opened Invariants
  import Steps

  /** The state of the three objects and the token, at a ledger time. */
  ghost function WorldOf(engine: LiquidationEngine, now: nat): World
    reads engine, engine.ledger, engine.ledger.vault, engine.ledger.vault.token
  {
    World(now, engine.State(), engine.ledger.State())
  }

  /** Where a command run at the world's current time leaves it. */
  ghost function Landed(w: World, signers: set<Address>, command: Command): World {
    match Execute(w, signers, command)
    case Ok(next) => next
    case Err(_) => w
  }

  function EnvOf(engine: LiquidationEngine, now: nat, signers: set<Address>): Env {
    Env(now, signers - {engine.vault.self, engine.ledger.self, engine.self})
  }

  // ----- One call, by the contract it goes to -----

  predicate MovesTokens(command: Command) {
    command.TokenTransfer? || command.Deposit? || command.Withdraw? || command.ForfeitCollateral?
  }

  method MoveTokens(engine: LiquidationEngine, now: nat, signers: set<Address>, command: Command)
    requires engine.Wired() && MovesTokens(command)
    modifies engine.vault`vaults, engine.vault.token
    ensures WorldOf(engine, now) == Landed(old(WorldOf(engine, now)), signers, command)
  {
    var vault, env := engine.vault, EnvOf(engine, now, signers);
    match command {
      case TokenTransfer(sender, receiver, amount) =>
        if sender in env.auth && sender != vault.self {
          var _ := vault.token.Transfer(sender, receiver, amount);
        }
      case Deposit(guarantor, amount) => var _ := vault.Deposit(env, guarantor, amount);
      case Withdraw(guarantor, amount) => var _ := vault.Withdraw(env, guarantor, amount);
      case ForfeitCollateral(caller, guarantor, amount) =>
        var _ := vault.ForfeitCollateral(env, caller, guarantor, amount);
    }
  }

  predicate MovesLocks(command: Command) {
    command.LockCollateral? || command.ReleaseCollateral?
  }

  method MoveLocks(engine: LiquidationEngine, now: nat, signers: set<Address>, command: Command)
    requires engine.Wired() && MovesLocks(command)
    modifies engine.vault`vaults
    ensures WorldOf(engine, now) == Landed(old(WorldOf(engine, now)), signers, command)
  {
    var env := EnvOf(engine, now, signers);
    if command.LockCollateral? {
      var _ := engine.vault.LockCollateral(env, command.caller, command.guarantor, command.amount);
    } else {
      var _ := engine.vault.ReleaseCollateral(env, command.caller, command.guarantor, command.amount);
    }
  }

  predicate RunsTimelock(command: Command) {
    command.ScheduleAction? || command.ExecuteAction? || command.CancelAction?
  }

  method RunTimelock(engine: LiquidationEngine, now: nat, signers: set<Address>, command: Command)
    requires engine.Wired() && RunsTimelock(command)
    modifies engine.vault`scheduled, engine.vault`settlement
    ensures WorldOf(engine, now) == Landed(old(WorldOf(engine, now)), signers, command)
  {
    var env := EnvOf(engine, now, signers);
    match command {
      case ScheduleAction(admin, action) => var _ := engine.vault.ScheduleAction(env, admin, action);
      case ExecuteAction(admin) => var _ := engine.vault.ExecuteAction(env, admin);
      case CancelAction(admin) => var _ := engine.vault.CancelAction(env, admin);
    }
  }

  predicate SetsWiring(command: Command) {
    command.SetLoanLedger? || command.SetVaultEngine? || command.SetLedgerEngine?
  }

  method SetWiring(engine: LiquidationEngine, now: nat, signers: set<Address>, command: Command)
    requires engine.Wired() && SetsWiring(command)
    modifies engine.vault`loanLedger, engine.vault`liquidationEngine, engine.ledger`liquidationEngine
    ensures WorldOf(engine, now) == Landed(old(WorldOf(engine, now)), signers, command)
  {
    var env := EnvOf(engine, now, signers);
    match command {
      case SetLoanLedger(admin, ledger) => var _ := engine.vault.SetLoanLedger(env, admin, ledger);
      case SetVaultEngine(admin, address) => var _ := engine.vault.SetLiquidationEngine(env, admin, address);
      case SetLedgerEngine(admin, address) => var _ := engine.ledger.SetLiquidationEngine(env, admin, address);
    }
  }

  predicate SetsRoles(command: Command) {
    command.SetPartner? || command.SetVerifier?
  }

  method SetRoles(engine: LiquidationEngine, now: nat, signers: set<Address>, command: Command)
    requires engine.Wired() && SetsRoles(command)
    modifies engine.ledger`partners, engine.ledger`verifiers
    ensures WorldOf(engine, now) == Landed(old(WorldOf(engine, now)), signers, command)
  {
    var env := EnvOf(engine, now, signers);
    match command {
      case SetPartner(admin, partner, authorized) =>
        var _ := engine.ledger.SetPartner(env, admin, partner, authorized);
      case SetVerifier(admin, verifier, authorized) =>
        var _ := engine.ledger.SetVerifier(env, admin, verifier, authorized);
    }
  }

  predicate SetsParameters(command: Command) {
    command.SetOracle? || command.SetReputation?
  }

  method SetParameters(engine: LiquidationEngine, now: nat, signers: set<Address>, command: Command)
    requires engine.Wired() && SetsParameters(command)
    modifies engine.ledger`oracle, engine.ledger`reputation
    ensures WorldOf(engine, now) == Landed(old(WorldOf(engine, now)), signers, command)
  {
    var env := EnvOf(engine, now, signers);
    match command {
      case SetOracle(admin, oracle) => var _ := engine.ledger.SetOracle(env, admin, oracle);
      case SetReputation(oracle, beneficiary, scoreBps) =>
        var _ := engine.ledger.SetReputation(env, oracle, beneficiary, scoreBps);
    }
  }

  method SetPaused(engine: LiquidationEngine, now: nat, signers: set<Address>, command: Command)
    requires engine.Wired() && command.SetPaused?
    modifies engine`isPaused
    ensures WorldOf(engine, now) == Landed(old(WorldOf(engine, now)), signers, command)
  {
    var _ := engine.SetPaused(EnvOf(engine, now, signers), command.admin, command.paused);
  }

  predicate LendsMoney(command: Command) {
    command.Originate? || command.AttestRepayment? || command.ReassignPartner?
  }

  method Lend(engine: LiquidationEngine, now: nat, signers: set<Address>, command: Command)
    requires engine.Wired() && LendsMoney(command)
    modifies engine.ledger, engine.vault
    ensures WorldOf(engine, now) == Landed(old(WorldOf(engine, now)), signers, command)
  {
    var env := EnvOf(engine, now, signers);
    match command {
      case Originate(guarantor, beneficiary, partner, principalUsd, installmentCount, intervalSecs) =>
        var _ := engine.ledger.Originate(env, guarantor, beneficiary, partner, principalUsd, installmentCount,
                                         intervalSecs);
      case AttestRepayment(partner, verifier, loanId, amount) =>
        var _ := engine.ledger.AttestRepayment(env, partner, verifier, loanId, amount);
      case ReassignPartner(admin, loanId, partner) =>
        var _ := engine.ledger.ReassignPartner(env, admin, loanId, partner);
    }
  }

  predicate MarksLoan(command: Command) {
    command.MarkGrace? || command.MarkDefaulted?
  }

  method MarkLoan(engine: LiquidationEngine, now: nat, signers: set<Address>, command: Command)
    requires engine.Wired() && MarksLoan(command)
    modifies engine.ledger`loans, engine.ledger`openLoans
    ensures WorldOf(engine, now) == Landed(old(WorldOf(engine, now)), signers, command)
  {
    var env := EnvOf(engine, now, signers);
    if command.MarkGrace? {
      var _ := engine.ledger.MarkGrace(env, command.caller, command.loanId);
    } else {
      var _ := engine.ledger.MarkDefaulted(env, command.caller, command.loanId);
    }
  }

  predicate IsCrank(command: Command) {
    command.FlagOverdue? || command.Liquidate? || command.Poke?
  }

  method Crank(engine: LiquidationEngine, now: nat, signers: set<Address>, command: Command)
    requires engine.Wired() && IsCrank(command)
    modifies engine.ledger`loans, engine.ledger`openLoans, engine.vault`vaults, engine.vault.token
    ensures WorldOf(engine, now) == Landed(old(WorldOf(engine, now)), signers, command)
  {
    var env := EnvOf(engine, now, signers);
    match command {
      case FlagOverdue(loanId) => var _ := engine.FlagOverdue(env, loanId);
      case Liquidate(loanId) => var _ := engine.Liquidate(env, loanId);
      case Poke(loanId) => var _ := engine.Poke(env, loanId);
    }
  }

  // ----- Transactions -----

  /** Any call, on the object it is addressed to. */
  method Dispatch(engine: LiquidationEngine, now: nat, signers: set<Address>, command: Command)
    requires engine.Wired()
    modifies engine, engine.ledger, engine.vault, engine.vault.token
    ensures WorldOf(engine, now) == Landed(old(WorldOf(engine, now)), signers, command)
  {
    if MovesTokens(command) {
      MoveTokens(engine, now, signers, command);
    } else if MovesLocks(command) {
      MoveLocks(engine, now, signers, command);
    } else if RunsTimelock(command) {
      RunTimelock(engine, now, signers, command);
    } else if SetsWiring(command) {
      SetWiring(engine, now, signers, command);
    } else if SetsRoles(command) {
      SetRoles(engine, now, signers, command);
    } else if SetsParameters(command) {
      SetParameters(engine, now, signers, command);
    } else if command.SetPaused? {
      SetPaused(engine, now, signers, command);
    } else if LendsMoney(command) {
      Lend(engine, now, signers, command);
    } else if MarksLoan(command) {
      MarkLoan(engine, now, signers, command);
    } else {
      Crank(engine, now, signers, command);
    }
  }

  /** A step is the clock moving and the call landing. */
  lemma StepLands(w: World, tx: Tx)
    ensures Step(w, tx) == Landed(Arrival(w, tx), tx.signers, tx.command)
  {
  }

  lemma NextStep(w: World, txs: seq<Tx>, k: nat, next: World)
    requires k < |txs| && next == Landed(Arrival(At(w, txs, k), txs[k]), txs[k].signers, txs[k].command)
    ensures next == At(w, txs, k + 1)
  {
    StepLands(At(w, txs, k), txs[k]);
    AtNext(w, txs, k);
  }

  /** A sequence of transactions on the objects is a run of the state machine, so deployed
      objects keep the invariant whatever is called on them. */
  method Process(engine: LiquidationEngine, start: nat, txs: seq<Tx>) returns (now: nat)
    requires engine.Wired()
    modifies engine, engine.ledger, engine.vault, engine.vault.token
    ensures WorldOf(engine, now) == Run(old(WorldOf(engine, start)), txs)
    ensures old(Genesis(WorldOf(engine, start))) ==> Inv(WorldOf(engine, now))
  {
    ghost var w0 := WorldOf(engine, start);
    now := start;
    for k := 0 to |txs|
      invariant WorldOf(engine, now) == At(w0, txs, k)
    {
      now := now + txs[k].elapsed;
      assert WorldOf(engine, now) == Arrival(At(w0, txs, k), txs[k]);
      Dispatch(engine, now, txs[k].signers, txs[k].command);
      NextStep(w0, txs, k, WorldOf(engine, now));
    }
    AtEnds(w0, txs);
    if Genesis(w0) {
      Steps.Reachable(w0, txs);
    }
  }
}
