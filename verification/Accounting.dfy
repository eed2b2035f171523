/** Where every unit of collateral went, over a whole run. */
module Accounting {
  import opened Types
  import opened LoanModel
  import opened Solvency
  import opened Invariants
  import opened Protocol
  import opened Steps
  import Cranks
  import V = VaultModel
  import L = LedgerModel
  import E = EngineModel

  // ----- What one transaction moves -----

  ghost function Deposited(w: World, tx: Tx, g: Address): int {
    if tx.command.Deposit? && tx.command.guarantor == g && Succeeds(w, tx) then tx.command.amount else 0
  }

  ghost function Withdrawn(w: World, tx: Tx, g: Address): int {
    if tx.command.Withdraw? && tx.command.guarantor == g && Succeeds(w, tx) then tx.command.amount else 0
  }

  /** What `liquidate` reports as forfeited, when the transaction liquidates the loan. */
  ghost function Seized(w: World, tx: Tx, id: nat): int {
    if HasLoan(w, id) && EventOn(w, tx, id).Liquidated? then
      var a := Arrival(w, tx);
      match E.Liquidate(a.engine, a.books, External(a, tx.signers), id)
      case Ok((_, forfeited)) => forfeited
      case Err(_) => 0
    else 0
  }

  /** What the guarantor gets back to withdraw from a liquidation. */
  ghost function Returned(w: World, tx: Tx, id: nat): int {
    if HasLoan(w, id) && EventOn(w, tx, id).Liquidated? then
      var g := LoanIn(w, id).guarantor;
      V.Available(Step(w, tx).books.custody.vault, g) - V.Available(w.books.custody.vault, g)
    else 0
  }

  /** What `attest_repayment` reports as released, when the transaction is one for the loan. */
  ghost function Released(w: World, tx: Tx, id: nat): int {
    if HasLoan(w, id) && EventOn(w, tx, id).Paid? then
      var a := Arrival(w, tx);
      var AttestRepayment(p, v, _, amount) := tx.command;
      match L.AttestRepayment(a.books, External(a, tx.signers), p, v, id, amount)
      case Ok((_, released)) => released
      case Err(_) => 0
    else 0
  }

  /** The loan a crank is aimed at. */
  ghost function CrankTarget(command: Command): Option<nat> {
    match command
    case Liquidate(id) => Some(id)
    case Poke(id) => Some(id)
    case _ => None
  }

  /** What the transaction forfeits from the guarantor's position. */
  ghost function SeizedFrom(w: World, tx: Tx, g: Address): int {
    match CrankTarget(tx.command)
    case Some(id) => if HasLoan(w, id) && LoanIn(w, id).guarantor == g then Seized(w, tx, id) else 0
    case None => 0
  }

  ghost function Balance(w: World, g: Address): int {
    V.VaultOf(w.books.custody.vault, g).collateralBalance
  }

  // ----- One transaction -----

  lemma LiquidationMoves(w: World, env: Env, id: nat, g: Address)
    requires Inv(w) && HasLoan(w, id) && env.now == w.now && !w.engine.paused && GraceExpired(LoanIn(w, id), w.now)
    ensures E.Liquidate(w.engine, w.books, env, id).Ok?
    ensures var loan := LoanIn(w, id);
            var (next, forfeited) := E.Liquidate(w.engine, w.books, env, id).value;
            && V.VaultOf(next.custody.vault, g).collateralBalance
               == Balance(w, g) - (if g == loan.guarantor then forfeited else 0)
            && V.Available(next.custody.vault, loan.guarantor)
               == V.Available(w.books.custody.vault, loan.guarantor) + Remaining(loan) - forfeited
  {
    Cranks.LiquidateEffect(w.engine, w.books, env, id);
  }

  lemma GuarantorMovesBalance(w: World, signers: set<Address>, command: Command, g: Address)
    requires Inv(w) && Execute(w, signers, command).Ok? && (command.Deposit? || command.Withdraw?)
    ensures Balance(Execute(w, signers, command).value, g) == Balance(w, g)
              + (if command.Deposit? && command.guarantor == g then command.amount else 0)
              - (if command.Withdraw? && command.guarantor == g then command.amount else 0)
  {
    if command.Deposit? {
      DepositIff(w.books.custody, External(w, signers), command.guarantor, command.amount);
    } else {
      WithdrawIff(w.books.custody, External(w, signers), command.guarantor, command.amount);
    }
  }

  lemma LedgerKeepsBalance(w: World, signers: set<Address>, command: Command, g: Address)
    requires Inv(w) && Execute(w, signers, command).Ok?
    requires command.AttestRepayment? || command.Originate? || command.FlagOverdue?
    ensures Balance(Execute(w, signers, command).value, g) == Balance(w, g)
  {
    var env := External(w, signers);
    if command.AttestRepayment? {
      AttestIff(w.books, env, command.partner, command.verifier, command.loanId, command.amount);
      AttestEffect(w.books, env, command.partner, command.verifier, command.loanId, command.amount);
    } else if command.Originate? {
      OriginateIff(w.books, env, command.guarantor, command.beneficiary, command.partner,
                   command.principalUsd, command.installmentCount, command.intervalSecs);
    } else {
      Cranks.FlagOverdueIff(w.engine, w.books, env, command.loanId);
    }
  }

  lemma OthersKeepBalance(w: World, signers: set<Address>, command: Command, g: Address)
    requires Inv(w) && Execute(w, signers, command).Ok?
    requires !command.Deposit? && !command.Withdraw? && (TouchesNoLoan(command) || command.ReassignPartner?)
    ensures Balance(Execute(w, signers, command).value, g) == Balance(w, g)
  {
    if command.LockCollateral? || command.ReleaseCollateral? || command.ForfeitCollateral?
       || command.MarkGrace? || command.MarkDefaulted? {
      PrivilegedRefused(w, signers, command);
    }
  }

  /** A command other than a crank moves a balance only by depositing or withdrawing. */
  lemma SuccessMovesBalance(w: World, signers: set<Address>, command: Command, g: Address)
    requires Inv(w) && Execute(w, signers, command).Ok? && CrankTarget(command).None?
    ensures Balance(Execute(w, signers, command).value, g) == Balance(w, g)
              + (if command.Deposit? && command.guarantor == g then command.amount else 0)
              - (if command.Withdraw? && command.guarantor == g then command.amount else 0)
  {
    if command.Deposit? || command.Withdraw? {
      GuarantorMovesBalance(w, signers, command, g);
    } else if command.AttestRepayment? || command.Originate? || command.FlagOverdue? {
      LedgerKeepsBalance(w, signers, command, g);
    } else {
      OthersKeepBalance(w, signers, command, g);
    }
  }

  lemma CrankMovesBalance(w: World, tx: Tx, g: Address)
    requires Inv(w) && CrankTarget(tx.command).Some?
    ensures Balance(Step(w, tx), g) == Balance(w, g) - SeizedFrom(w, tx, g)
  {
    var a := Arrival(w, tx);
    var id := CrankTarget(tx.command).value;
    var env := External(a, tx.signers);
    TimePasses(w, tx);
    Cranks.LiquidateIff(a.engine, a.books, env, id);
    Cranks.PokeEffect(a.engine, a.books, env, id);
    if HasLoan(a, id) && !a.engine.paused {
      if GraceExpired(LoanIn(a, id), a.now) {
        LiquidationMoves(a, env, id, g);
      } else if Overdue(LoanIn(a, id), a.now) {
        Cranks.FlagOverdueIff(a.engine, a.books, env, id);
      }
    }
  }

  lemma StepMovesBalance(w: World, tx: Tx, g: Address)
    requires Inv(w)
    ensures Balance(Step(w, tx), g) == Balance(w, g) + Deposited(w, tx, g) - Withdrawn(w, tx, g) - SeizedFrom(w, tx, g)
  {
    TimePasses(w, tx);
    if CrankTarget(tx.command).Some? {
      CrankMovesBalance(w, tx, g);
    } else if Succeeds(w, tx) {
      SuccessMovesBalance(Arrival(w, tx), tx.signers, tx.command, g);
    }
  }

  lemma AttestReleased(w: World, env: Env, command: Command)
    requires Inv(w) && command.AttestRepayment? && env.now == w.now
    requires L.AttestRepayment(w.books, env, command.partner, command.verifier, command.loanId, command.amount).Ok?
    ensures HasLoan(w, command.loanId) && command.amount > 0
    ensures var loan := LoanIn(w, command.loanId);
            var (next, released) := Repay(loan, w.books.ledger.config, w.now, command.amount);
            var attested := L.AttestRepayment(w.books, env, command.partner, command.verifier, command.loanId,
                                              command.amount);
            && attested.value.1 == released
            && released == next.collateralReleased - loan.collateralReleased
  {
    AttestIff(w.books, env, command.partner, command.verifier, command.loanId, command.amount);
    AttestEffect(w.books, env, command.partner, command.verifier, command.loanId, command.amount);
    RepayKeepsMoney(LoanIn(w, command.loanId), w.books.ledger.config, w.now, command.amount);
  }

  /** Every unit a transaction releases on a loan was released by an attestation, or
      forfeited or returned by its liquidation. */
  lemma StepReleases(w: World, tx: Tx, id: nat)
    requires Inv(w) && HasLoan(w, id)
    ensures HasLoan(Step(w, tx), id)
    ensures LoanIn(Step(w, tx), id).collateralReleased
         == LoanIn(w, id).collateralReleased + Released(w, tx, id) + Seized(w, tx, id) + Returned(w, tx, id)
  {
    var a := Arrival(w, tx);
    var env := External(a, tx.signers);
    var event := EventOn(w, tx, id);
    TimePasses(w, tx);
    StepOnLoan(w, tx, id);
    if event.Paid? {
      AttestReleased(a, env, tx.command);
    } else if event.Liquidated? {
      Cranks.LiquidateIff(a.engine, a.books, env, id);
      LiquidationMoves(a, env, id, LoanIn(w, id).guarantor);
      Cranks.PokeEffect(a.engine, a.books, env, id);
    }
  }

  // ----- Over a run -----

  /** A quantity per transaction, added up over a run. */
  ghost function OverRun(w: World, txs: seq<Tx>, quantity: (World, Tx) -> int): int {
    if txs == [] then 0
    else OverRun(w, txs[..|txs| - 1], quantity) + quantity(Run(w, txs[..|txs| - 1]), txs[|txs| - 1])
  }

  /** A guarantor's collateral is what they started with and deposited, minus what they
      withdrew, minus what was forfeited on their defaulted loans. */
  lemma {:induction false} LifetimeBalance(w0: World, txs: seq<Tx>, g: Address)
    requires Genesis(w0)
    ensures Balance(Run(w0, txs), g)
         == Balance(w0, g)
            + OverRun(w0, txs, (w, tx) => Deposited(w, tx, g))
            - OverRun(w0, txs, (w, tx) => Withdrawn(w, tx, g))
            - OverRun(w0, txs, (w, tx) => SeizedFrom(w, tx, g))
  {
    if txs != [] {
      LifetimeBalance(w0, txs[..|txs| - 1], g);
      Reachable(w0, txs[..|txs| - 1]);
      StepMovesBalance(Run(w0, txs[..|txs| - 1]), txs[|txs| - 1], g);
    }
  }

  ghost function Settled(w0: World, txs: seq<Tx>, id: nat): int {
    OverRun(w0, txs, (w, tx) => Released(w, tx, id))
    + OverRun(w0, txs, (w, tx) => Seized(w, tx, id))
    + OverRun(w0, txs, (w, tx) => Returned(w, tx, id))
  }

  lemma {:induction false} ReleasedIsSettled(w0: World, txs: seq<Tx>, id: nat)
    requires Genesis(w0)
    ensures Settled(w0, txs, id) == if HasLoan(Run(w0, txs), id) then LoanIn(Run(w0, txs), id).collateralReleased else 0
  {
    if txs != [] {
      var before := Run(w0, txs[..|txs| - 1]);
      ReleasedIsSettled(w0, txs[..|txs| - 1], id);
      Reachable(w0, txs[..|txs| - 1]);
      if HasLoan(before, id) {
        StepReleases(before, txs[|txs| - 1], id);
      } else if HasLoan(Run(w0, txs), id) {
        StepNewLoan(before, txs[|txs| - 1], id);
      }
    }
  }

  /** A closed loan's collateral is fully accounted for: what its attestations released,
      plus what its liquidation forfeited and returned. */
  lemma ClosedLoanAccountedFor(w0: World, txs: seq<Tx>, id: nat)
    requires Genesis(w0) && HasLoan(Run(w0, txs), id) && !Open(LoanIn(Run(w0, txs), id))
    ensures OverRun(w0, txs, (w, tx) => Released(w, tx, id))
            + OverRun(w0, txs, (w, tx) => Seized(w, tx, id))
            + OverRun(w0, txs, (w, tx) => Returned(w, tx, id))
         == LoanIn(Run(w0, txs), id).collateralLocked
  {
    ReleasedIsSettled(w0, txs, id);
    Reachable(w0, txs);
  }

  // ----- Money and attestations -----

  /** What the transaction attests as repaid on the loan. */
  ghost function Attested(w: World, tx: Tx, id: nat): int {
    if HasLoan(w, id) && EventOn(w, tx, id).Paid? then EventOn(w, tx, id).amount else 0
  }

  lemma StepAttests(w: World, tx: Tx, id: nat)
    requires Inv(w) && HasLoan(w, id)
    ensures HasLoan(Step(w, tx), id)
    ensures LoanIn(Step(w, tx), id).totalRepaidUsd == LoanIn(w, id).totalRepaidUsd + Attested(w, tx, id)
  {
    StepOnLoan(w, tx, id);
  }

  /** From any moment on, the principal repaid grows by exactly what is attested. */
  lemma {:induction false} RepaidFrom(w: World, txs: seq<Tx>, id: nat)
    requires Inv(w) && HasLoan(w, id)
    ensures HasLoan(Run(w, txs), id)
    ensures LoanIn(Run(w, txs), id).totalRepaidUsd
         == LoanIn(w, id).totalRepaidUsd + OverRun(w, txs, (v, tx) => Attested(v, tx, id))
  {
    if txs != [] {
      RepaidFrom(w, txs[..|txs| - 1], id);
      RunKeepsInv(w, txs[..|txs| - 1]);
      StepAttests(Run(w, txs[..|txs| - 1]), txs[|txs| - 1], id);
    }
  }

  /** The principal repaid on a loan is the sum of its successful attestations, over its whole
      life and whatever else went on. */
  lemma {:induction false} RepaidIsAttested(w0: World, txs: seq<Tx>, id: nat)
    requires Genesis(w0)
    ensures OverRun(w0, txs, (w, tx) => Attested(w, tx, id))
         == if HasLoan(Run(w0, txs), id) then LoanIn(Run(w0, txs), id).totalRepaidUsd else 0
  {
    if txs != [] {
      var before := Run(w0, txs[..|txs| - 1]);
      RepaidIsAttested(w0, txs[..|txs| - 1], id);
      Reachable(w0, txs[..|txs| - 1]);
      if HasLoan(before, id) {
        StepAttests(before, txs[|txs| - 1], id);
      } else if HasLoan(Run(w0, txs), id) {
        StepNewLoan(before, txs[|txs| - 1], id);
      }
    }
  }

  /** The same money in, out and owed, the same installments covered, and the same due date
      while the loan is open. */
  ghost predicate SameStanding(x: Loan, y: Loan) {
    && SameTerms(x, y)
    && x.totalRepaidUsd == y.totalRepaidUsd && x.installmentsPaid == y.installmentsPaid
    && (Open(x) && Open(y) ==> x.collateralReleased == y.collateralReleased && x.nextDue == y.nextDue)
    && (x.status.Repaid? <==> y.status.Repaid?)
  }

  lemma MoneyFixesStanding(x: Loan, y: Loan, cfg: Config)
    requires MoneySound(x, cfg) && MoneySound(y, cfg) && SameTerms(x, y) && x.totalRepaidUsd == y.totalRepaidUsd
    ensures SameStanding(x, y)
  {
  }

  /** Two ways a run can go on in which the same sum is attested on a loan leave it with the
      same standing: how the sum was split, when, and what else happened do not matter. */
  lemma OnlyTheSumMatters(w0: World, before: seq<Tx>, one: seq<Tx>, other: seq<Tx>, id: nat)
    requires Genesis(w0) && HasLoan(Run(w0, before), id)
    requires OverRun(Run(w0, before), one, (w, tx) => Attested(w, tx, id))
          == OverRun(Run(w0, before), other, (w, tx) => Attested(w, tx, id))
    ensures var x, y := Run(Run(w0, before), one), Run(Run(w0, before), other);
            HasLoan(x, id) && HasLoan(y, id) && SameStanding(LoanIn(x, id), LoanIn(y, id))
  {
    var w := Run(w0, before);
    Reachable(w0, before);
    RepaidFrom(w, one, id);
    RepaidFrom(w, other, id);
    RunOnLoan(w, one, id);
    RunOnLoan(w, other, id);
    RunKeepsInv(w, one);
    RunKeepsInv(w, other);
    MoneyFixesStanding(LoanIn(Run(w, one), id), LoanIn(Run(w, other), id), w.books.ledger.config);
  }
}
