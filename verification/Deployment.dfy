/** The deployment script's sequence: construct the three contracts, then wire them once.
    It leaves the objects in a state from which every guarantee about runs starts. */
module Deployment {
  import opened Types
  import opened TokenLedger
  import opened LoanModel
  import opened GuarantorVault
  import opened LoanLedger
  import opened LiquidationEngine
  import opened Protocol
  import opened Roles

  /** Each contract is told of the others, once. */
  method Wire(env: Env, admin: Address, engine: LiquidationEngine)
    requires admin in env.auth && engine.Wired()
    requires engine.ledger.admin == admin && engine.vault.admin == admin
    requires engine.ledger.liquidationEngine.None?
    requires engine.vault.loanLedger.None? && engine.vault.liquidationEngine.None?
    modifies engine.vault`loanLedger, engine.vault`liquidationEngine, engine.ledger`liquidationEngine
    ensures engine.vault.loanLedger == Some(engine.ledger.self)
    ensures engine.vault.liquidationEngine == Some(engine.self) == engine.ledger.liquidationEngine
  {
    var _ := engine.vault.SetLoanLedger(env, admin, engine.ledger.self);
    var _ := engine.vault.SetLiquidationEngine(env, admin, engine.self);
    var _ := engine.ledger.SetLiquidationEngine(env, admin, engine.self);
  }

  /** The oracle and the first partner and verifier are registered. */
  method Register(env: Env, admin: Address, ledger: LoanLedger, oracle: Address, partner: Address, verifier: Address)
    requires admin in env.auth && ledger.admin == admin && ledger.partners == map[] && ledger.verifiers == map[]
    modifies ledger`oracle, ledger`partners, ledger`verifiers
    ensures ledger.oracle == Some(oracle)
    ensures ledger.partners == map[partner := true]
    ensures ledger.verifiers == if verifier == partner then map[] else map[verifier := true]
  {
    var _ := ledger.SetOracle(env, admin, oracle);
    var _ := ledger.SetPartner(env, admin, partner, true);
    var _ := ledger.SetVerifier(env, admin, verifier, true);
  }

  method Deploy(env: Env, admin: Address, vaultAt: Address, ledgerAt: Address, engineAt: Address,
                usdc: Token, settlement: Address, config: Config, timelockSecs: nat, oracle: Address,
                partner: Address, verifier: Address)
    returns (engine: LiquidationEngine)
    requires vaultAt != ledgerAt && vaultAt != engineAt && ledgerAt != engineAt
    requires admin in env.auth
    ensures fresh(engine) && fresh(engine.ledger) && fresh(engine.vault) && engine.Wired()
    ensures Genesis(World(env.now, engine.State(), engine.ledger.State()))
    ensures engine.ledger.config == config && engine.vault.token == usdc && engine.vault.settlement == settlement
    ensures RolesDisjoint(engine.ledger.State().ledger)
    ensures engine.ledger.partners == map[partner := true]
    ensures engine.ledger.verifiers == if verifier == partner then map[] else map[verifier := true]
  {
    var vault := new GuarantorVault(vaultAt, admin, usdc, settlement, timelockSecs);
    var ledger := new LoanLedger(ledgerAt, admin, vault, config);
    engine := new LiquidationEngine(engineAt, admin, vault, ledger);
    Wire(env, admin, engine);
    Register(env, admin, ledger, oracle, partner, verifier);
    FreshIsGenesis(World(env.now, engine.State(), ledger.State()));
  }
}
