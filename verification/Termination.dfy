/** Every loan terminates: whatever is thrown at it, only so many things can happen to it. */
module Termination {
  import opened Types
  import opened LoanModel
  import opened Invariants
  import opened Protocol
  import opened Steps
  import Schedule
  import IntDivision

  /** Payments, grace openings and liquidations change a loan's state; a new partner does not. */
  ghost predicate Changes(event: Event) {
    event.Paid? || event.Flagged? || event.Liquidated?
  }

  /** How many more times grace can still be opened on the loan. */
  ghost function GraceBudget(loan: Loan): int {
    if loan.status.Active? then loan.installmentCount - loan.installmentsPaid
    else if loan.status.Grace? then loan.installmentCount - loan.installmentsPaid - 1
    else 0
  }

  /** A bound on how many more changes the loan can see. */
  ghost function Potential(loan: Loan): int {
    if Open(loan) then loan.principalUsd - loan.totalRepaidUsd + GraceBudget(loan) + 1 else 0
  }

  ghost function Rank(status: LoanStatus): nat {
    match status
    case Active => 2
    case Grace => 1
    case _ => 0
  }

  /** Every change lowers (principal owed, status) lexicographically. */
  lemma EveryChangeDescends(loan: Loan, cfg: Config, now: nat, event: Event)
    requires MoneySound(loan, cfg) && Allowed(loan, now, event) && Changes(event)
    ensures var next := After(loan, cfg, now, event);
            var owed, owedNext := Outstanding(loan), Outstanding(next);
            owedNext < owed || (owedNext == owed && Rank(next.status) < Rank(loan.status))
  {
    if event.Paid? {
      RepayKeepsMoney(loan, cfg, now, event.amount);
    }
  }

  lemma BudgetsNonNegative(loan: Loan, cfg: Config)
    requires MoneySound(loan, cfg)
    ensures GraceBudget(loan) >= 0 && Potential(loan) >= 0
    ensures Open(loan) ==> Potential(loan) >= 2
  {
    Schedule.CoveredBounds(loan.totalRepaidUsd, loan.installmentCount, loan.principalUsd);
  }

  /** A payment that ends grace covers at least one more installment. */
  lemma LeavingGraceCoversMore(loan: Loan, cfg: Config, now: nat, amount: pos)
    requires MoneySound(loan, cfg) && ClockSound(loan, cfg, now) && loan.status.Grace?
    requires loan.totalRepaidUsd + amount <= loan.principalUsd
    ensures var next := Repay(loan, cfg, now, amount).0;
            next.status.Active? ==> next.installmentsPaid > loan.installmentsPaid
  {
    RepayKeepsMoney(loan, cfg, now, amount);
    var next := Repay(loan, cfg, now, amount).0;
    if next.status.Active? && next.installmentsPaid <= loan.installmentsPaid {
      IntDivision.MulMono(next.installmentsPaid + 1, loan.installmentsPaid + 1, loan.intervalSecs);
      assert false;
    }
  }

  /** Each change uses up potential, and opening grace uses up grace budget. */
  lemma EventSpends(loan: Loan, cfg: Config, now: nat, event: Event)
    requires MoneySound(loan, cfg) && ClockSound(loan, cfg, now) && Allowed(loan, now, event)
    ensures var next := After(loan, cfg, now, event);
            && GraceBudget(next) + (if event.Flagged? then 1 else 0) <= GraceBudget(loan)
            && Potential(next) + (if Changes(event) then 1 else 0) <= Potential(loan)
  {
    BudgetsNonNegative(loan, cfg);
    if event.Paid? {
      RepayKeepsMoney(loan, cfg, now, event.amount);
      if loan.status.Grace? {
        LeavingGraceCoversMore(loan, cfg, now, event.amount);
      }
    }
  }

  // ----- Counting over a run -----

  /** 1 if the transaction opens grace on the loan. */
  ghost function Flags(w: World, tx: Tx, id: nat): nat {
    if HasLoan(w, id) && EventOn(w, tx, id).Flagged? then 1 else 0
  }

  /** 1 if the transaction changes the loan's state. */
  ghost function Hits(w: World, tx: Tx, id: nat): nat {
    if HasLoan(w, id) && Changes(EventOn(w, tx, id)) then 1 else 0
  }

  ghost function FlagCount(w: World, txs: seq<Tx>, id: nat): nat {
    if txs == [] then 0
    else FlagCount(w, txs[..|txs| - 1], id) + Flags(Run(w, txs[..|txs| - 1]), txs[|txs| - 1], id)
  }

  ghost function HitCount(w: World, txs: seq<Tx>, id: nat): nat {
    if txs == [] then 0
    else HitCount(w, txs[..|txs| - 1], id) + Hits(Run(w, txs[..|txs| - 1]), txs[|txs| - 1], id)
  }

  lemma StepSpends(w: World, tx: Tx, id: nat)
    requires Inv(w) && HasLoan(w, id)
    ensures HasLoan(Step(w, tx), id)
    ensures GraceBudget(LoanIn(Step(w, tx), id)) + Flags(w, tx, id) <= GraceBudget(LoanIn(w, id))
    ensures Potential(LoanIn(Step(w, tx), id)) + Hits(w, tx, id) <= Potential(LoanIn(w, id))
  {
    TimePasses(w, tx);
    StepOnLoan(w, tx, id);
    EventSpends(LoanIn(w, id), w.books.ledger.config, w.now + tx.elapsed, EventOn(w, tx, id));
  }

  /** From any moment on, the changes still to come are within the loan's potential. */
  lemma {:induction false} RunSpends(w: World, txs: seq<Tx>, id: nat)
    requires Inv(w) && HasLoan(w, id)
    ensures HasLoan(Run(w, txs), id)
    ensures FlagCount(w, txs, id) + GraceBudget(LoanIn(Run(w, txs), id)) <= GraceBudget(LoanIn(w, id))
    ensures HitCount(w, txs, id) + Potential(LoanIn(Run(w, txs), id)) <= Potential(LoanIn(w, id))
  {
    if txs != [] {
      RunSpends(w, txs[..|txs| - 1], id);
      RunKeepsInv(w, txs[..|txs| - 1]);
      StepSpends(Run(w, txs[..|txs| - 1]), txs[|txs| - 1], id);
    }
  }

  /** Between two grace openings on one loan, repayments cover at least one more installment. */
  lemma GraceCostsAnInstallment(w: World, first: Tx, between: seq<Tx>, second: Tx, id: nat)
    requires Inv(w) && HasLoan(w, id)
    requires Flags(w, first, id) == 1
    requires Flags(Run(Step(w, first), between), second, id) == 1
    ensures HasLoan(Run(Step(w, first), between), id)
    ensures LoanIn(w, id).installmentsPaid < LoanIn(Run(Step(w, first), between), id).installmentsPaid
  {
    var flagged := Step(w, first);
    var later := Run(flagged, between);
    StepSpends(w, first, id);
    StepKeepsInv(w, first);
    StepLater(w, first, id);
    RunSpends(flagged, between, id);
    RunOnLoan(flagged, between, id);
    RunKeepsInv(flagged, between);
    StepOnLoan(w, first, id);
    StepOnLoan(later, second, id);
  }

  ghost predicate Counted(w0: World, txs: seq<Tx>, id: nat) {
    var w := Run(w0, txs);
    if HasLoan(w, id) then
      var loan := LoanIn(w, id);
      && FlagCount(w0, txs, id) + GraceBudget(loan) <= loan.installmentCount
      && HitCount(w0, txs, id) + Potential(loan) <= loan.principalUsd + loan.installmentCount + 1
    else
      FlagCount(w0, txs, id) == 0 && HitCount(w0, txs, id) == 0
  }

  lemma CountedStep(w0: World, txs: seq<Tx>, w: World, tx: Tx, id: nat)
    requires w == Run(w0, txs) && Inv(w) && Inv(Step(w, tx)) && Counted(w0, txs, id)
    ensures var next := Step(w, tx);
            var flags, hits := FlagCount(w0, txs, id) + Flags(w, tx, id), HitCount(w0, txs, id) + Hits(w, tx, id);
            if HasLoan(next, id) then
              var loan := LoanIn(next, id);
              && flags + GraceBudget(loan) <= loan.installmentCount
              && hits + Potential(loan) <= loan.principalUsd + loan.installmentCount + 1
            else flags == 0 && hits == 0
  {
    if HasLoan(w, id) {
      StepSpends(w, tx, id);
      StepLater(w, tx, id);
    } else if HasLoan(Step(w, tx), id) {
      StepNewLoan(w, tx, id);
    }
  }

  lemma {:induction false} CountedAlways(w0: World, txs: seq<Tx>, id: nat)
    requires Genesis(w0)
    ensures Counted(w0, txs, id)
  {
    if txs != [] {
      var before := Run(w0, txs[..|txs| - 1]);
      CountedAlways(w0, txs[..|txs| - 1], id);
      Reachable(w0, txs[..|txs| - 1]);
      Reachable(w0, txs);
      CountedStep(w0, txs[..|txs| - 1], before, txs[|txs| - 1], id);
    }
  }

  /** Over its whole life a loan enters grace at most once per installment, and sees at most
      principal + installments + 1 payments, grace openings and liquidations together. */
  lemma EveryLoanTerminates(w0: World, txs: seq<Tx>, id: nat)
    requires Genesis(w0) && HasLoan(Run(w0, txs), id)
    ensures var loan := LoanIn(Run(w0, txs), id);
            && FlagCount(w0, txs, id) <= loan.installmentCount
            && HitCount(w0, txs, id) <= loan.principalUsd + loan.installmentCount + 1
  {
    CountedAlways(w0, txs, id);
    Reachable(w0, txs);
    BudgetsNonNegative(LoanIn(Run(w0, txs), id), w0.books.ledger.config);
  }
}
