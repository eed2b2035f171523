/** The administration of the system as a machine of its own: roles, scores, the pause, the
    timelock and the settlement address. Nothing that happens to loans, collateral or tokens
    enters into it, and each call does to it exactly what is written here. */
module Administration {
  import opened Types
  import opened Protocol
  import opened Rules
  import opened Steps
  import V = VaultModel
  import L = LedgerModel
  import E = EngineModel

  datatype Controls = Controls(
    contracts: set<Address>,
    vaultAdmin: Address,
    ledgerAdmin: Address,
    engineAdmin: Address,
    timelockSecs: nat,
    scheduled: Option<V.ScheduledAction>,
    settlement: Address,
    partners: map<Address, bool>,
    verifiers: map<Address, bool>,
    oracle: Option<Address>,
    reputation: map<Handle, u32>,
    paused: bool)

  ghost function ControlsOf(w: World): Controls {
    var v, s, e := w.books.custody.vault, w.books.ledger, w.engine;
    Controls({v.self, s.self, e.self}, v.admin, s.admin, e.admin, v.timelockSecs, v.scheduled, v.settlement,
             s.partners, s.verifiers, s.oracle, s.reputation, e.paused)
  }

  /** The commands the machine is about. */
  ghost predicate Administers(command: Command) {
    || command.ScheduleAction? || command.ExecuteAction? || command.CancelAction?
    || command.SetPartner? || command.SetVerifier? || command.SetOracle? || command.SetReputation?
    || command.SetPaused?
  }

  /** `a` signed, and is the one on record. Contracts hold no keys. */
  ghost predicate Authorizes(c: Controls, signers: set<Address>, a: Address, onRecord: Address) {
    a in signers && a !in c.contracts && a == onRecord
  }

  /** When a command of administration goes through. */
  ghost predicate Permitted(c: Controls, now: nat, signers: set<Address>, command: Command) {
    match command
    case ScheduleAction(admin, _) =>
      && Authorizes(c, signers, admin, c.vaultAdmin) && c.scheduled == None
      && now + c.timelockSecs <= 18_446_744_073_709_551_615
    case ExecuteAction(admin) =>
      && Authorizes(c, signers, admin, c.vaultAdmin) && c.scheduled != None
      && c.scheduled.value.action.SetSettlement? && now >= c.scheduled.value.eta
    case CancelAction(admin) => Authorizes(c, signers, admin, c.vaultAdmin) && c.scheduled != None
    case SetPartner(admin, a, authorized) =>
      Authorizes(c, signers, admin, c.ledgerAdmin) && (authorized ==> !Standing(c.verifiers, a))
    case SetVerifier(admin, a, authorized) =>
      Authorizes(c, signers, admin, c.ledgerAdmin) && (authorized ==> !Standing(c.partners, a))
    case SetOracle(admin, _) => Authorizes(c, signers, admin, c.ledgerAdmin)
    case SetReputation(oracle, _, score) =>
      c.oracle != None && Authorizes(c, signers, oracle, c.oracle.value) && score <= 10_000
    case SetPaused(admin, _) => Authorizes(c, signers, admin, c.engineAdmin)
    case _ => false
  }

  /** What it then changes. */
  ghost function Administered(c: Controls, now: nat, command: Command): Controls
    requires command.ExecuteAction? ==> c.scheduled.Some? && c.scheduled.value.action.SetSettlement?
  {
    match command
    case ScheduleAction(_, action) => c.(scheduled := Some(V.ScheduledAction(action, now + c.timelockSecs)))
    case ExecuteAction(_) => c.(scheduled := None, settlement := c.scheduled.value.action.settlement)
    case CancelAction(_) => c.(scheduled := None)
    case SetPartner(_, a, authorized) => c.(partners := c.partners[a := authorized])
    case SetVerifier(_, a, authorized) => c.(verifiers := c.verifiers[a := authorized])
    case SetOracle(_, oracle) => c.(oracle := Some(oracle))
    case SetReputation(_, beneficiary, score) => c.(reputation := c.reputation[beneficiary := score])
    case SetPaused(_, paused) => c.(paused := paused)
    case _ => c
  }

  ghost function NextControls(c: Controls, now: nat, signers: set<Address>, command: Command): Controls {
    if Permitted(c, now, signers, command) then Administered(c, now, command) else c
  }

  // ----- The commands of administration -----

  /** Everything the machine is not about. */
  ghost predicate SameBusiness(w: World, next: World) {
    var v, s, v', s' := w.books.custody.vault, w.books.ledger, next.books.custody.vault, next.books.ledger;
    && next.now == w.now && next.books.custody.balances == w.books.custody.balances
    && v'.vaults == v.vaults && v'.loanLedger == v.loanLedger && v'.liquidationEngine == v.liquidationEngine
    && s'.liquidationEngine == s.liquidationEngine && s'.config == s.config
    && s'.loanCount == s.loanCount && s'.loans == s.loans && s'.openLoans == s.openLoans
  }

  /** The command goes through exactly when permitted, changes the controls as written, and
      changes nothing else. */
  ghost predicate Governed(w: World, signers: set<Address>, command: Command) {
    var result := Execute(w, signers, command);
    && (result.Ok? <==> Permitted(ControlsOf(w), w.now, signers, command))
    && (result.Ok? ==>
          && ControlsOf(result.value) == Administered(ControlsOf(w), w.now, command)
          && SameBusiness(w, result.value))
  }

  lemma TimelockIsGoverned(w: World, signers: set<Address>, command: Command)
    requires command.ScheduleAction? || command.ExecuteAction? || command.CancelAction?
    ensures Governed(w, signers, command)
  {
  }

  lemma RolesAreGoverned(w: World, signers: set<Address>, command: Command)
    requires command.SetPartner? || command.SetVerifier?
    ensures Governed(w, signers, command)
  {
  }

  lemma ScoresAreGoverned(w: World, signers: set<Address>, command: Command)
    requires command.SetOracle? || command.SetReputation? || command.SetPaused?
    ensures Governed(w, signers, command)
  {
  }

  lemma AdministrationIsGoverned(w: World, signers: set<Address>, command: Command)
    requires Administers(command)
    ensures Governed(w, signers, command)
  {
    if command.ScheduleAction? || command.ExecuteAction? || command.CancelAction? {
      TimelockIsGoverned(w, signers, command);
    } else if command.SetPartner? || command.SetVerifier? {
      RolesAreGoverned(w, signers, command);
    } else {
      ScoresAreGoverned(w, signers, command);
    }
  }

  /** Why the vault's admin is refused, and why a registration or a score is. */
  lemma RefusalsNamed(w: World, signers: set<Address>, command: Command)
    requires Administers(command)
    ensures var c, result := ControlsOf(w), Execute(w, signers, command);
            match command
            case ScheduleAction(admin, _) =>
              Authorizes(c, signers, admin, c.vaultAdmin) && c.scheduled != None ==> result == Err(ActionPending)
            case ExecuteAction(admin) =>
              Authorizes(c, signers, admin, c.vaultAdmin) ==>
                && (c.scheduled == None ==> result == Err(NoPendingAction))
                && (c.scheduled != None && w.now < c.scheduled.value.eta ==> result == Err(TimelockNotExpired))
            case CancelAction(admin) =>
              Authorizes(c, signers, admin, c.vaultAdmin) && c.scheduled == None ==> result == Err(NoPendingAction)
            case SetPartner(admin, a, authorized) =>
              Authorizes(c, signers, admin, c.ledgerAdmin) && authorized && Standing(c.verifiers, a) ==>
                result == Err(RoleConflict)
            case SetVerifier(admin, a, authorized) =>
              Authorizes(c, signers, admin, c.ledgerAdmin) && authorized && Standing(c.partners, a) ==>
                result == Err(RoleConflict)
            case SetReputation(oracle, _, score) =>
              c.oracle != None && Authorizes(c, signers, oracle, c.oracle.value) && score > 10_000 ==>
                result == Err(InvalidScore)
            case _ => true
  {
  }

  // ----- Every other command -----

  lemma FlagKeepsControls(w: World, signers: set<Address>, command: Command)
    requires command.FlagOverdue? && Execute(w, signers, command).Ok?
    ensures ControlsOf(Execute(w, signers, command).value) == ControlsOf(w)
  {
  }

  /** The part of the controls that the books hold. */
  ghost predicate SameSettings(b: L.Books, next: L.Books) {
    && next.custody.vault == b.custody.vault.(vaults := next.custody.vault.vaults)
    && next.ledger == b.ledger.(loans := next.ledger.loans, openLoans := next.ledger.openLoans)
  }

  lemma LiquidationKeepsSettings(e: E.EngineState, b: L.Books, env: Env, id: nat)
    requires E.Liquidate(e, b, env, id).Ok?
    ensures SameSettings(b, E.Liquidate(e, b, env, id).value.0)
  {
  }

  lemma LiquidateKeepsControls(w: World, signers: set<Address>, command: Command)
    requires command.Liquidate? && Execute(w, signers, command).Ok?
    ensures ControlsOf(Execute(w, signers, command).value) == ControlsOf(w)
  {
    LiquidationKeepsSettings(w.engine, w.books, External(w, signers), command.loanId);
  }

  lemma PokeKeepsSettings(e: E.EngineState, b: L.Books, env: Env, id: nat)
    requires E.Poke(e, b, env, id).Ok?
    ensures SameSettings(b, E.Poke(e, b, env, id).value.0)
  {
    if E.Liquidate(e, b, env, id).Ok? {
      LiquidationKeepsSettings(e, b, env, id);
    }
  }

  lemma PokeKeepsControls(w: World, signers: set<Address>, command: Command)
    requires command.Poke? && Execute(w, signers, command).Ok?
    ensures ControlsOf(Execute(w, signers, command).value) == ControlsOf(w)
  {
    PokeKeepsSettings(w.engine, w.books, External(w, signers), command.loanId);
  }

  lemma AttestKeepsControls(w: World, signers: set<Address>, command: Command)
    requires command.AttestRepayment? && Execute(w, signers, command).Ok?
    ensures ControlsOf(Execute(w, signers, command).value) == ControlsOf(w)
  {
  }

  lemma OriginateKeepsControls(w: World, signers: set<Address>, command: Command)
    requires command.Originate? && Execute(w, signers, command).Ok?
    ensures ControlsOf(Execute(w, signers, command).value) == ControlsOf(w)
  {
  }

  lemma OthersKeepControls(w: World, signers: set<Address>, command: Command)
    requires Execute(w, signers, command).Ok? && (TouchesNoLoan(command) || command.ReassignPartner?)
    requires !Administers(command)
    ensures ControlsOf(Execute(w, signers, command).value) == ControlsOf(w)
  {
  }

  lemma SuccessAdministers(w: World, signers: set<Address>, command: Command)
    requires Execute(w, signers, command).Ok? && !Administers(command)
    ensures ControlsOf(Execute(w, signers, command).value) == ControlsOf(w)
  {
    if command.FlagOverdue? {
      FlagKeepsControls(w, signers, command);
    } else if command.Liquidate? {
      LiquidateKeepsControls(w, signers, command);
    } else if command.Poke? {
      PokeKeepsControls(w, signers, command);
    } else if command.AttestRepayment? {
      AttestKeepsControls(w, signers, command);
    } else if command.Originate? {
      OriginateKeepsControls(w, signers, command);
    } else {
      OthersKeepControls(w, signers, command);
    }
  }

  // ----- Every transaction -----

  /** Every transaction moves the controls as the machine says, whatever else it does; and a
      command of administration goes through exactly when the machine permits it. */
  lemma StepAdministers(w: World, tx: Tx)
    ensures ControlsOf(Step(w, tx)) == NextControls(ControlsOf(w), w.now + tx.elapsed, tx.signers, tx.command)
    ensures Administers(tx.command) ==>
              (Succeeds(w, tx) <==> Permitted(ControlsOf(w), w.now + tx.elapsed, tx.signers, tx.command))
  {
    if Administers(tx.command) {
      AdministrationIsGoverned(Arrival(w, tx), tx.signers, tx.command);
    } else if Succeeds(w, tx) {
      SuccessAdministers(Arrival(w, tx), tx.signers, tx.command);
    }
  }

  /** Under the clock and the signatures of a run, the machine on its own. */
  ghost function RunControls(c: Controls, now: nat, txs: seq<Tx>): (Controls, nat) {
    if txs == [] then (c, now)
    else
      var (before, time), tx := RunControls(c, now, txs[..|txs| - 1]), txs[|txs| - 1];
      (NextControls(before, time + tx.elapsed, tx.signers, tx.command), time + tx.elapsed)
  }

  lemma StepMovesClock(w: World, tx: Tx)
    ensures Step(w, tx).now == w.now + tx.elapsed
  {
  }

  /** Over every run the administration of the system is that machine, and lending never interferes. */
  lemma {:induction false} RunAdministers(w: World, txs: seq<Tx>)
    ensures (ControlsOf(Run(w, txs)), Run(w, txs).now) == RunControls(ControlsOf(w), w.now, txs)
  {
    if txs != [] {
      var before, tx := Run(w, txs[..|txs| - 1]), txs[|txs| - 1];
      RunAdministers(w, txs[..|txs| - 1]);
      StepAdministers(before, tx);
      StepMovesClock(before, tx);
    }
  }
}
