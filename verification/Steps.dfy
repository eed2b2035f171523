/** Every transaction keeps the invariant, and does to each loan one of five things. */
module Steps {
  import opened Types
  import opened LoanModel
  import opened Solvency
  import opened Invariants
  import opened Cranks
  import opened Protocol
  import TokenLedger
  import V = VaultModel
  import L = LedgerModel
  import E = EngineModel

  // ----- What can happen to a loan -----

  datatype Event =
    | Untouched
    | Reassigned(partner: Address)
    | Paid(amount: int)
    | Flagged
    | Liquidated

  /** What a poke does to the loan. */
  ghost function PokeEvent(w: World, loan: Loan): Event {
    if w.engine.paused then Untouched
    else if Overdue(loan, w.now) then Flagged
    else if GraceExpired(loan, w.now) then Liquidated
    else Untouched
  }

  /** What the command does to the loan, read off its name, its success and the clock. */
  ghost function EventIn(w: World, signers: set<Address>, command: Command, id: nat): Event
    requires id in w.books.ledger.loans
  {
    if Execute(w, signers, command).Err? then Untouched
    else
      match command
      case AttestRepayment(_, _, i, amount) => if i == id then Paid(amount) else Untouched
      case FlagOverdue(i) => if i == id then Flagged else Untouched
      case Liquidate(i) => if i == id then Liquidated else Untouched
      case Poke(i) => if i == id then PokeEvent(w, w.books.ledger.loans[id]) else Untouched
      case ReassignPartner(_, i, p) => if i == id then Reassigned(p) else Untouched
      case _ => Untouched
  }

  ghost function EventOn(w: World, tx: Tx, id: nat): Event
    requires id in w.books.ledger.loans
  {
    EventIn(Arrival(w, tx), tx.signers, tx.command, id)
  }

  /** When the loan's own state allows the event. */
  ghost predicate Allowed(loan: Loan, now: nat, event: Event) {
    match event
    case Untouched => true
    case Reassigned(_) => Open(loan)
    case Paid(amount) => Open(loan) && 0 < amount <= Outstanding(loan)
    case Flagged => Overdue(loan, now)
    case Liquidated => GraceExpired(loan, now)
  }

  ghost function After(loan: Loan, cfg: Config, now: nat, event: Event): Loan
    requires Allowed(loan, now, event)
  {
    match event
    case Untouched => loan
    case Reassigned(p) => loan.(partner := p)
    case Paid(amount) => Repay(loan, cfg, now, amount).0
    case Flagged => EnterGrace(loan, cfg, now)
    case Liquidated => CloseDefaulted(loan)
  }

  lemma AfterKeepsClock(loan: Loan, cfg: Config, now: nat, event: Event)
    requires MoneySound(loan, cfg) && ClockSound(loan, cfg, now) && Allowed(loan, now, event)
    ensures MoneySound(After(loan, cfg, now, event), cfg)
    ensures ClockSound(After(loan, cfg, now, event), cfg, now)
  {
    if event.Paid? {
      RepayKeepsMoney(loan, cfg, now, event.amount);
    }
  }

  /** Every stored loan is its old self after `event`, or untouched if it is another one. */
  ghost predicate OnlyLoan(before: L.LedgerState, after: L.LedgerState, now: nat, id: nat, event: Event)
    requires id in before.loans
  {
    && Allowed(before.loans[id], now, event)
    && after.loans == before.loans[id := After(before.loans[id], before.config, now, event)]
    && after.config == before.config
    && after.loanCount == before.loanCount
  }

  lemma OnlyLoanKeepsPunctual(before: L.LedgerState, after: L.LedgerState, now: nat, id: nat, event: Event)
    requires LedgerSound(before) && Punctual(before, now) && id in before.loans
    requires OnlyLoan(before, after, now, id, event)
    ensures Punctual(after, now)
  {
    AfterKeepsClock(before.loans[id], before.config, now, event);
  }

  // ----- Commands that leave the loans alone -----

  ghost predicate SameLoans(before: L.LedgerState, after: L.LedgerState) {
    && after.loans == before.loans && after.loanCount == before.loanCount && after.config == before.config
  }

  ghost predicate TouchesNoLoan(command: Command) {
    match command
    case AttestRepayment(_, _, _, _) => false
    case FlagOverdue(_) => false
    case Liquidate(_) => false
    case Poke(_) => false
    case ReassignPartner(_, _, _) => false
    case Originate(_, _, _, _, _, _) => false
    case _ => true
  }

  /** A custody change that moves no lock and no wiring keeps both books. */
  lemma CustodyChangeKeeps(w: World, c: V.Custody)
    requires Inv(w) && CustodySound(c)
    requires c.vault.loanLedger == w.books.custody.vault.loanLedger
    requires c.vault.liquidationEngine == w.books.custody.vault.liquidationEngine
    requires c.vault.self == w.books.custody.vault.self
    requires forall g :: V.VaultOf(c.vault, g).lockedAmount == V.VaultOf(w.books.custody.vault, g).lockedAmount
    ensures Inv(w.(books := w.books.(custody := c)))
  {
    var b := w.books.(custody := c);
    forall g ensures V.VaultOf(c.vault, g).lockedAmount == Backing(b.ledger.loans, g, b.ledger.loanCount) {
      assert V.VaultOf(w.books.custody.vault, g).lockedAmount == Backing(b.ledger.loans, g, b.ledger.loanCount);
    }
  }

  lemma TransferKeeps(c: V.Custody, env: Env, sender: Address, receiver: Address, amount: int)
    requires CustodySound(c) && TransferTokens(c, env, sender, receiver, amount).Ok?
    ensures var next := TransferTokens(c, env, sender, receiver, amount).value;
            CustodySound(next) && next.vault == c.vault
            && TokenLedger.BalanceOf(next.balances, c.vault.self) >= TokenLedger.BalanceOf(c.balances, c.vault.self)
  {
  }

  /** The privileged entry points refuse every caller that is not one of the contracts. */
  lemma PrivilegedRefused(w: World, signers: set<Address>, command: Command)
    requires Wired(w)
    requires command.LockCollateral? || command.ReleaseCollateral? || command.ForfeitCollateral?
             || command.MarkGrace? || command.MarkDefaulted?
    ensures Execute(w, signers, command).Err?
  {
  }

  /** Wiring is set once. */
  lemma RewiringRefused(w: World, signers: set<Address>, command: Command)
    requires Wired(w)
    requires command.SetLoanLedger? || command.SetVaultEngine? || command.SetLedgerEngine?
    ensures Execute(w, signers, command).Err?
  {
  }

  lemma GuarantorCommandKeeps(w: World, signers: set<Address>, command: Command)
    requires Inv(w) && (command.Deposit? || command.Withdraw? || command.TokenTransfer?)
    requires Execute(w, signers, command).Ok?
    ensures Inv(Execute(w, signers, command).value)
  {
    var env := External(w, signers);
    var c := w.books.custody;
    match command {
      case Deposit(g, amount) => DepositIff(c, env, g, amount);
      case Withdraw(g, amount) => WithdrawIff(c, env, g, amount);
      case TokenTransfer(s, r, amount) => TransferKeeps(c, env, s, r, amount);
    }
    CustodyChangeKeeps(w, Execute(w, signers, command).value.books.custody);
  }

  lemma TimelockCommandKeeps(w: World, signers: set<Address>, command: Command)
    requires Inv(w) && (command.ScheduleAction? || command.ExecuteAction? || command.CancelAction?)
    requires Execute(w, signers, command).Ok?
    ensures Inv(Execute(w, signers, command).value)
  {
    CustodyChangeKeeps(w, Execute(w, signers, command).value.books.custody);
  }

  /** A ledger change outside the loans and their index keeps both books. */
  lemma RegistryChangeKeeps(w: World, s: L.LedgerState)
    requires Inv(w) && SameLoans(w.books.ledger, s) && s.openLoans == w.books.ledger.openLoans
    requires s.self == w.books.ledger.self && s.liquidationEngine == w.books.ledger.liquidationEngine
    requires forall h :: h in s.reputation ==> s.reputation[h] <= BPS
    ensures Inv(w.(books := w.books.(ledger := s)))
  {
    var was := w.books.ledger;
    forall key, id ensures Indexed(s, key, id) <==> key in s.openLoans && s.openLoans[key] == id {
      assert Indexed(was, key, id) <==> key in was.openLoans && was.openLoans[key] == id;
    }
    forall g ensures V.VaultOf(w.books.custody.vault, g).lockedAmount == Backing(s.loans, g, s.loanCount) {
      assert V.VaultOf(w.books.custody.vault, g).lockedAmount == Backing(was.loans, g, was.loanCount);
    }
  }

  lemma RoleCommandKeeps(w: World, signers: set<Address>, command: Command)
    requires Inv(w) && (command.SetOracle? || command.SetPartner? || command.SetVerifier?)
    requires Execute(w, signers, command).Ok?
    ensures Inv(Execute(w, signers, command).value)
    ensures SameLoans(w.books.ledger, Execute(w, signers, command).value.books.ledger)
  {
    RegistryChangeKeeps(w, Execute(w, signers, command).value.books.ledger);
  }

  lemma ReputationCommandKeeps(w: World, signers: set<Address>, command: Command)
    requires Inv(w) && command.SetReputation? && Execute(w, signers, command).Ok?
    ensures Inv(Execute(w, signers, command).value)
    ensures SameLoans(w.books.ledger, Execute(w, signers, command).value.books.ledger)
  {
    RegistryChangeKeeps(w, Execute(w, signers, command).value.books.ledger);
  }

  lemma QuietCommandKeeps(w: World, signers: set<Address>, command: Command)
    requires Inv(w) && TouchesNoLoan(command) && Execute(w, signers, command).Ok?
    ensures Inv(Execute(w, signers, command).value)
    ensures SameLoans(w.books.ledger, Execute(w, signers, command).value.books.ledger)
    ensures Execute(w, signers, command).value.now == w.now
  {
    if command.Deposit? || command.Withdraw? || command.TokenTransfer? {
      GuarantorCommandKeeps(w, signers, command);
    } else if command.ScheduleAction? || command.ExecuteAction? || command.CancelAction? {
      TimelockCommandKeeps(w, signers, command);
    } else if command.SetLoanLedger? || command.SetVaultEngine? || command.SetLedgerEngine? {
      RewiringRefused(w, signers, command);
    } else if command.SetOracle? || command.SetPartner? || command.SetVerifier? {
      RoleCommandKeeps(w, signers, command);
    } else if command.SetReputation? {
      ReputationCommandKeeps(w, signers, command);
    } else if command.SetPaused? {
    } else {
      PrivilegedRefused(w, signers, command);
    }
  }

  // ----- Commands about one loan -----

  lemma ReplaceIsOnlyLoan(s: L.LedgerState, now: nat, id: nat, event: Event)
    requires id in s.loans && s.loans[id].id == id && Allowed(s.loans[id], now, event)
    ensures OnlyLoan(s, Replace(s, After(s.loans[id], s.config, now, event)), now, id, event)
  {
  }

  lemma ReplaceIsEvent(w: World, next: World, id: nat, event: Event)
    requires Inv(w) && id in w.books.ledger.loans && Allowed(w.books.ledger.loans[id], w.now, event)
    requires var s := w.books.ledger; next.books.ledger == Replace(s, After(s.loans[id], s.config, w.now, event))
    requires BooksSound(next.books) && next.now == w.now && Wired(next)
    ensures OnlyLoan(w.books.ledger, next.books.ledger, w.now, id, event) && Inv(next)
  {
    ReplaceIsOnlyLoan(w.books.ledger, w.now, id, event);
    OnlyLoanKeepsPunctual(w.books.ledger, next.books.ledger, w.now, id, event);
  }

  lemma AttestStep(w: World, signers: set<Address>, command: Command)
    requires Inv(w) && command.AttestRepayment? && Execute(w, signers, command).Ok?
    ensures var next := Execute(w, signers, command).value;
            && Inv(next) && next.now == w.now && command.loanId in w.books.ledger.loans
            && OnlyLoan(w.books.ledger, next.books.ledger, w.now, command.loanId, Paid(command.amount))
  {
    var env := External(w, signers);
    AttestIff(w.books, env, command.partner, command.verifier, command.loanId, command.amount);
    AttestEffect(w.books, env, command.partner, command.verifier, command.loanId, command.amount);
    ReplaceIsEvent(w, Execute(w, signers, command).value, command.loanId, Paid(command.amount));
  }

  lemma FlagStep(w: World, env: Env, id: nat)
    requires Inv(w) && env.now == w.now && E.FlagOverdue(w.engine, w.books, env, id).Ok?
    ensures var next := w.(books := E.FlagOverdue(w.engine, w.books, env, id).value);
            && Inv(next) && id in w.books.ledger.loans
            && OnlyLoan(w.books.ledger, next.books.ledger, w.now, id, Flagged)
  {
    FlagOverdueIff(w.engine, w.books, env, id);
    ReplaceIsEvent(w, w.(books := E.FlagOverdue(w.engine, w.books, env, id).value), id, Flagged);
  }

  lemma LiquidateStep(w: World, env: Env, id: nat)
    requires Inv(w) && env.now == w.now && E.Liquidate(w.engine, w.books, env, id).Ok?
    ensures var next := w.(books := E.Liquidate(w.engine, w.books, env, id).value.0);
            && Inv(next) && id in w.books.ledger.loans
            && OnlyLoan(w.books.ledger, next.books.ledger, w.now, id, Liquidated)
  {
    LiquidateIff(w.engine, w.books, env, id);
    LiquidateEffect(w.engine, w.books, env, id);
    ReplaceIsEvent(w, w.(books := E.Liquidate(w.engine, w.books, env, id).value.0), id, Liquidated);
  }

  lemma ReassignStep(w: World, signers: set<Address>, command: Command)
    requires Inv(w) && command.ReassignPartner? && Execute(w, signers, command).Ok?
    ensures var next := Execute(w, signers, command).value;
            && Inv(next) && next.now == w.now && command.loanId in w.books.ledger.loans
            && OnlyLoan(w.books.ledger, next.books.ledger, w.now, command.loanId, Reassigned(command.partner))
  {
    var b := w.books;
    var loan := b.ledger.loans[command.loanId];
    var moved := loan.(partner := command.partner);
    var vault := V.VaultOf(b.custody.vault, loan.guarantor);
    PositionStored(b, command.loanId);
    LoanUpdateKeepsLedger(b.ledger, moved);
    LoanUpdateKeepsBooks(b, moved, b.custody, vault.collateralBalance);
    ReplaceIsEvent(w, Execute(w, signers, command).value, command.loanId, Reassigned(command.partner));
  }

  /** A loan as it is opened, on exactly the terms its guarantor signed for. */
  ghost predicate Fresh(loan: Loan, now: nat, signers: set<Address>, command: Command) {
    && command.Originate? && command.guarantor in signers
    && loan.guarantor == command.guarantor && loan.beneficiary == command.beneficiary && loan.partner == command.partner
    && loan.principalUsd == command.principalUsd && loan.installmentCount == command.installmentCount
    && loan.intervalSecs == command.intervalSecs
    && command.installmentCount > 0 && loan.installmentAmount == command.principalUsd / command.installmentCount
    && loan.status.Active? && loan.totalRepaidUsd == 0 && loan.collateralReleased == 0 && loan.originatedAt == now
  }

  lemma OriginateStep(w: World, signers: set<Address>, command: Command)
    requires Inv(w) && command.Originate? && Execute(w, signers, command).Ok?
    ensures var next := Execute(w, signers, command).value;
            && Inv(next) && next.now == w.now
            && next.books.ledger.config == w.books.ledger.config
            && next.books.ledger.loanCount == w.books.ledger.loanCount + 1
            && next.books.ledger.loans.Keys == w.books.ledger.loans.Keys + {next.books.ledger.loanCount}
            && (forall id :: id in w.books.ledger.loans ==> next.books.ledger.loans[id] == w.books.ledger.loans[id])
            && Fresh(next.books.ledger.loans[next.books.ledger.loanCount], w.now, signers, command)
  {
    var env := External(w, signers);
    var Originate(g, h, p, principal, n, interval) := command;
    OriginateIff(w.books, env, g, h, p, principal, n, interval);
  }

  // ----- Every transaction -----

  lemma TimePasses(w: World, tx: Tx)
    requires Inv(w)
    ensures Inv(Arrival(w, tx))
  {
  }

  lemma PokeStep(w: World, env: Env, id: nat)
    requires Inv(w) && env.now == w.now && E.Poke(w.engine, w.books, env, id).Ok?
    ensures var next := w.(books := E.Poke(w.engine, w.books, env, id).value.0);
            && Inv(next)
            && (id in w.books.ledger.loans ==>
                  OnlyLoan(w.books.ledger, next.books.ledger, w.now, id, PokeEvent(w, w.books.ledger.loans[id])))
            && (id !in w.books.ledger.loans ==> next == w)
  {
    PokeEffect(w.engine, w.books, env, id);
    if id in w.books.ledger.loans && !w.engine.paused {
      if Overdue(w.books.ledger.loans[id], w.now) {
        FlagStep(w, env, id);
      } else if GraceExpired(w.books.ledger.loans[id], w.now) {
        LiquidateStep(w, env, id);
      } else {
        assert w.books.ledger.loans[id := w.books.ledger.loans[id]] == w.books.ledger.loans;
      }
    }
    if id in w.books.ledger.loans {
      assert w.books.ledger.loans[id := w.books.ledger.loans[id]] == w.books.ledger.loans;
    }
  }

  lemma SuccessKeeps(w: World, signers: set<Address>, command: Command)
    requires Inv(w) && Execute(w, signers, command).Ok?
    ensures Inv(Execute(w, signers, command).value)
    ensures Execute(w, signers, command).value.now == w.now
    ensures Execute(w, signers, command).value.books.ledger.config == w.books.ledger.config
  {
    var env := External(w, signers);
    match command {
      case AttestRepayment(_, _, _, _) => AttestStep(w, signers, command);
      case Originate(_, _, _, _, _, _) => OriginateStep(w, signers, command);
      case ReassignPartner(_, _, _) => ReassignStep(w, signers, command);
      case FlagOverdue(id) => FlagStep(w, env, id);
      case Liquidate(id) => LiquidateStep(w, env, id);
      case Poke(id) => PokeStep(w, env, id);
      case _ => QuietCommandKeeps(w, signers, command);
    }
  }

  lemma StepKeepsInv(w: World, tx: Tx)
    requires Inv(w)
    ensures Inv(Step(w, tx))
    ensures Step(w, tx).now == w.now + tx.elapsed
    ensures Step(w, tx).books.ledger.config == w.books.ledger.config
  {
    TimePasses(w, tx);
    if Succeeds(w, tx) {
      SuccessKeeps(Arrival(w, tx), tx.signers, tx.command);
    }
  }

  lemma PokeKeepsEngine(w: World, tx: Tx)
    requires tx.command.Poke?
    ensures Step(w, tx).engine == w.engine
  {
  }

  /** `id` is rewritten as `event` says, and any other loan stays as it was. */
  lemma OnlyLoanElsewhere(before: L.LedgerState, after: L.LedgerState, now: nat, i: nat, event: Event, id: nat)
    requires i in before.loans && id in before.loans && OnlyLoan(before, after, now, i, event)
    ensures after.config == before.config && id in after.loans
    ensures after.loans[id] == if id == i then After(before.loans[id], before.config, now, event) else before.loans[id]
  {
  }

  /** The command did `event` to the loan. */
  ghost predicate Did(before: L.LedgerState, after: L.LedgerState, now: nat, id: nat, event: Event)
    requires id in before.loans
  {
    && after.config == before.config && id in after.loans
    && Allowed(before.loans[id], now, event)
    && after.loans[id] == After(before.loans[id], before.config, now, event)
  }

  lemma FlagOnLoan(w: World, signers: set<Address>, command: Command, id: nat)
    requires Inv(w) && id in w.books.ledger.loans && command.FlagOverdue? && Execute(w, signers, command).Ok?
    ensures Did(w.books.ledger, Execute(w, signers, command).value.books.ledger, w.now, id,
                EventIn(w, signers, command, id))
  {
    FlagStep(w, External(w, signers), command.loanId);
    OnlyLoanElsewhere(w.books.ledger, Execute(w, signers, command).value.books.ledger, w.now,
                      command.loanId, Flagged, id);
  }

  lemma LiquidateOnLoan(w: World, signers: set<Address>, command: Command, id: nat)
    requires Inv(w) && id in w.books.ledger.loans && command.Liquidate? && Execute(w, signers, command).Ok?
    ensures Did(w.books.ledger, Execute(w, signers, command).value.books.ledger, w.now, id,
                EventIn(w, signers, command, id))
  {
    LiquidateStep(w, External(w, signers), command.loanId);
    OnlyLoanElsewhere(w.books.ledger, Execute(w, signers, command).value.books.ledger, w.now,
                      command.loanId, Liquidated, id);
  }

  lemma PokeOnLoan(w: World, signers: set<Address>, command: Command, id: nat)
    requires Inv(w) && id in w.books.ledger.loans && command.Poke? && Execute(w, signers, command).Ok?
    ensures Did(w.books.ledger, Execute(w, signers, command).value.books.ledger, w.now, id,
                EventIn(w, signers, command, id))
  {
    PokeStep(w, External(w, signers), command.loanId);
    if command.loanId in w.books.ledger.loans {
      OnlyLoanElsewhere(w.books.ledger, Execute(w, signers, command).value.books.ledger, w.now,
                        command.loanId, PokeEvent(w, w.books.ledger.loans[command.loanId]), id);
    }
  }

  lemma AttestOnLoan(w: World, signers: set<Address>, command: Command, id: nat)
    requires Inv(w) && id in w.books.ledger.loans && command.AttestRepayment? && Execute(w, signers, command).Ok?
    ensures Did(w.books.ledger, Execute(w, signers, command).value.books.ledger, w.now, id,
                EventIn(w, signers, command, id))
  {
    AttestStep(w, signers, command);
    OnlyLoanElsewhere(w.books.ledger, Execute(w, signers, command).value.books.ledger, w.now,
                      command.loanId, Paid(command.amount), id);
  }

  lemma ReassignOnLoan(w: World, signers: set<Address>, command: Command, id: nat)
    requires Inv(w) && id in w.books.ledger.loans && command.ReassignPartner? && Execute(w, signers, command).Ok?
    ensures Did(w.books.ledger, Execute(w, signers, command).value.books.ledger, w.now, id,
                EventIn(w, signers, command, id))
  {
    ReassignStep(w, signers, command);
    OnlyLoanElsewhere(w.books.ledger, Execute(w, signers, command).value.books.ledger, w.now,
                      command.loanId, Reassigned(command.partner), id);
  }

  lemma OriginateOnLoan(w: World, signers: set<Address>, command: Command, id: nat)
    requires Inv(w) && id in w.books.ledger.loans && command.Originate? && Execute(w, signers, command).Ok?
    ensures Did(w.books.ledger, Execute(w, signers, command).value.books.ledger, w.now, id,
                EventIn(w, signers, command, id))
  {
    OriginateStep(w, signers, command);
    assert EventIn(w, signers, command, id).Untouched?;
  }

  lemma OtherOnLoan(w: World, signers: set<Address>, command: Command, id: nat)
    requires Inv(w) && id in w.books.ledger.loans && TouchesNoLoan(command) && Execute(w, signers, command).Ok?
    ensures Did(w.books.ledger, Execute(w, signers, command).value.books.ledger, w.now, id,
                EventIn(w, signers, command, id))
  {
    QuietCommandKeeps(w, signers, command);
    assert EventIn(w, signers, command, id).Untouched?;
  }

  /** What one command does to one loan. */
  lemma SuccessOnLoan(w: World, signers: set<Address>, command: Command, id: nat)
    requires Inv(w) && id in w.books.ledger.loans && Execute(w, signers, command).Ok?
    ensures Did(w.books.ledger, Execute(w, signers, command).value.books.ledger, w.now, id,
                EventIn(w, signers, command, id))
  {
    if command.AttestRepayment? {
      AttestOnLoan(w, signers, command, id);
    } else if command.ReassignPartner? {
      ReassignOnLoan(w, signers, command, id);
    } else if command.FlagOverdue? {
      FlagOnLoan(w, signers, command, id);
    } else if command.Liquidate? {
      LiquidateOnLoan(w, signers, command, id);
    } else if command.Poke? {
      PokeOnLoan(w, signers, command, id);
    } else if command.Originate? {
      OriginateOnLoan(w, signers, command, id);
    } else {
      OtherOnLoan(w, signers, command, id);
    }
  }

  /** One transaction, seen by one loan. */
  lemma StepOnLoan(w: World, tx: Tx, id: nat)
    requires Inv(w) && id in w.books.ledger.loans
    ensures var loan := w.books.ledger.loans[id];
            var next := Step(w, tx);
            && next.now == w.now + tx.elapsed
            && next.books.ledger.config == w.books.ledger.config
            && Allowed(loan, next.now, EventOn(w, tx, id))
            && id in next.books.ledger.loans
            && next.books.ledger.loans[id] == After(loan, w.books.ledger.config, next.now, EventOn(w, tx, id))
  {
    TimePasses(w, tx);
    if Succeeds(w, tx) {
      SuccessKeeps(Arrival(w, tx), tx.signers, tx.command);
      SuccessOnLoan(Arrival(w, tx), tx.signers, tx.command, id);
    }
  }

  /** The loan's forfeited share is paid out, and all it still locked is unlocked. */
  ghost predicate Settles(c: V.Custody, after: V.Custody, loan: Loan) {
    var vault := V.VaultOf(c.vault, loan.guarantor);
    && TokenLedger.Move(c.balances, c.vault.self, c.vault.settlement, E.Forfeited(loan)) == Ok(after.balances)
    && OnlyPosition(c, after, loan.guarantor, vault.collateralBalance - E.Forfeited(loan),
                    vault.lockedAmount - Remaining(loan))
  }

  lemma SuccessIsLiquidation(w: World, signers: set<Address>, command: Command)
    requires Inv(w) && Execute(w, signers, command).Ok? && (command.Liquidate? || command.Poke?) && !w.engine.paused
    requires HasLoan(w, command.loanId) && GraceExpired(LoanIn(w, command.loanId), w.now)
    ensures var settled := E.Liquidate(w.engine, w.books, External(w, signers), command.loanId);
            settled.Ok? && Execute(w, signers, command).value.books == settled.value.0
  {
    PokeEffect(w.engine, w.books, External(w, signers), command.loanId);
  }

  lemma LiquidationSettles(e: E.EngineState, b: L.Books, env: Env, id: nat)
    requires BooksSound(b) && Drives(e, b)
    requires !e.paused && id in b.ledger.loans && GraceExpired(b.ledger.loans[id], env.now)
    ensures E.Liquidate(e, b, env, id).Ok?
    ensures Settles(b.custody, E.Liquidate(e, b, env, id).value.0.custody, b.ledger.loans[id])
  {
    LiquidateEffect(e, b, env, id);
  }

  lemma SuccessLiquidates(w: World, signers: set<Address>, command: Command)
    requires Inv(w) && Execute(w, signers, command).Ok? && (command.Liquidate? || command.Poke?) && !w.engine.paused
    requires HasLoan(w, command.loanId) && GraceExpired(LoanIn(w, command.loanId), w.now)
    ensures Settles(w.books.custody, Execute(w, signers, command).value.books.custody, LoanIn(w, command.loanId))
  {
    SuccessIsLiquidation(w, signers, command);
    LiquidationSettles(w.engine, w.books, External(w, signers), command.loanId);
  }

  /** What a liquidation, called for or made by `poke`, does to the vault and the token. */
  lemma StepLiquidates(w: World, tx: Tx, id: nat)
    requires Inv(w) && HasLoan(w, id) && EventOn(w, tx, id).Liquidated?
    ensures 0 < E.Forfeited(LoanIn(w, id))
    ensures Settles(w.books.custody, Step(w, tx).books.custody, LoanIn(w, id))
  {
    var a := Arrival(w, tx);
    TimePasses(w, tx);
    StepOnLoan(w, tx, id);
    LiquidateIff(a.engine, a.books, External(a, tx.signers), id);
    SuccessLiquidates(a, tx.signers, tx.command);
    ForfeitedBounds(LoanIn(w, id), w.books.ledger.config);
  }

  lemma SuccessNewLoan(w: World, signers: set<Address>, command: Command, id: nat)
    requires Inv(w) && Execute(w, signers, command).Ok?
    requires id !in w.books.ledger.loans && id in Execute(w, signers, command).value.books.ledger.loans
    ensures var next := Execute(w, signers, command).value;
            Fresh(next.books.ledger.loans[id], next.now, signers, command)
    ensures id == w.books.ledger.loanCount + 1
  {
    var env := External(w, signers);
    if command.AttestRepayment? {
      AttestStep(w, signers, command);
    } else if command.Originate? {
      OriginateStep(w, signers, command);
    } else if command.ReassignPartner? {
      ReassignStep(w, signers, command);
    } else if command.FlagOverdue? {
      FlagStep(w, env, command.loanId);
    } else if command.Liquidate? {
      LiquidateStep(w, env, command.loanId);
    } else if command.Poke? {
      PokeStep(w, env, command.loanId);
    } else {
      QuietCommandKeeps(w, signers, command);
    }
  }

  /** A loan that a transaction brings into being is fresh. */
  lemma StepNewLoan(w: World, tx: Tx, id: nat)
    requires Inv(w) && id !in w.books.ledger.loans && id in Step(w, tx).books.ledger.loans
    ensures Fresh(Step(w, tx).books.ledger.loans[id], Step(w, tx).now, tx.signers, tx.command)
    ensures Succeeds(w, tx) && id == w.books.ledger.loanCount + 1
  {
    TimePasses(w, tx);
    if Succeeds(w, tx) {
      SuccessNewLoan(Arrival(w, tx), tx.signers, tx.command, id);
    }
  }

  // ----- Every run -----

  lemma GenesisSound(w: World)
    requires Genesis(w)
    ensures Inv(w)
  {
    var s := w.books.ledger;
    forall key, id ensures Indexed(s, key, id) <==> key in s.openLoans && s.openLoans[key] == id {
    }
  }

  lemma {:induction false} RunKeepsInv(w: World, txs: seq<Tx>)
    requires Inv(w)
    ensures Inv(Run(w, txs))
    ensures Run(w, txs).books.ledger.config == w.books.ledger.config
  {
    if txs != [] {
      RunKeepsInv(w, txs[..|txs| - 1]);
      StepKeepsInv(Run(w, txs[..|txs| - 1]), txs[|txs| - 1]);
    }
  }

  /** The main invariant: it holds after every run from deployment. */
  lemma Reachable(w: World, txs: seq<Tx>)
    requires Genesis(w)
    ensures Inv(Run(w, txs))
    ensures Run(w, txs).books.ledger.config == w.books.ledger.config
  {
    GenesisSound(w);
    RunKeepsInv(w, txs);
  }

  /** What origination fixed stays fixed. */
  ghost predicate SameTerms(a: Loan, b: Loan) {
    && a.id == b.id && a.guarantor == b.guarantor && a.beneficiary == b.beneficiary
    && a.principalUsd == b.principalUsd && a.ltvBps == b.ltvBps && a.collateralLocked == b.collateralLocked
    && a.installmentCount == b.installmentCount && a.installmentAmount == b.installmentAmount
    && a.intervalSecs == b.intervalSecs && a.originatedAt == b.originatedAt
  }

  lemma AfterKeepsTerms(loan: Loan, cfg: Config, now: nat, event: Event)
    requires Allowed(loan, now, event)
    ensures SameTerms(loan, After(loan, cfg, now, event))
    ensures loan.totalRepaidUsd <= After(loan, cfg, now, event).totalRepaidUsd
  {
  }

  /** The same loan at a later moment of a run: terms, configuration and clock. */
  ghost predicate Later(w: World, next: World, id: nat)
    requires id in w.books.ledger.loans
  {
    && next.now >= w.now
    && next.books.ledger.config == w.books.ledger.config
    && id in next.books.ledger.loans
    && SameTerms(w.books.ledger.loans[id], next.books.ledger.loans[id])
    && w.books.ledger.loans[id].totalRepaidUsd <= next.books.ledger.loans[id].totalRepaidUsd
  }

  lemma StepLater(w: World, tx: Tx, id: nat)
    requires Inv(w) && id in w.books.ledger.loans
    ensures Later(w, Step(w, tx), id)
  {
    StepOnLoan(w, tx, id);
    AfterKeepsTerms(w.books.ledger.loans[id], w.books.ledger.config, Step(w, tx).now, EventOn(w, tx, id));
  }

  lemma {:induction false} RunOnLoan(w: World, txs: seq<Tx>, id: nat)
    requires Inv(w) && id in w.books.ledger.loans
    ensures Later(w, Run(w, txs), id)
  {
    if txs != [] {
      var before := Run(w, txs[..|txs| - 1]);
      RunKeepsInv(w, txs[..|txs| - 1]);
      RunOnLoan(w, txs[..|txs| - 1], id);
      StepLater(before, txs[|txs| - 1], id);
    }
  }
}
