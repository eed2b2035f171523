/** Machine integers. Overflow aborts a call, so storage never holds a number that does not
    fit; but arithmetic that does not fit can make a payment or a crank impossible. This is
    exactly when. */
module Overflow {
  import opened Types
  import opened LoanModel
  import opened Invariants
  import opened IntDivision
  import opened Protocol
  import opened Steps
  import opened Accounting
  import Cranks
  import Schedule
  import Solvency
  import Timelock
  import V = VaultModel
  import L = LedgerModel
  import E = EngineModel

  // ----- Attestations -----

  /** The payment that closes the loan fits, and so does one that stops a unit short. */
  ghost predicate FitsFrom(loan: Loan, cfg: Config) {
    && FitsAt(loan, cfg, loan.principalUsd)
    && (loan.totalRepaidUsd + 2 <= loan.principalUsd ==> FitsAt(loan, cfg, loan.principalUsd - 1))
  }

  lemma EarnedGrows(locked: nat, fewer: nat, more: nat, share: nat)
    requires fewer <= more
    ensures locked * fewer <= locked * more
    ensures locked * fewer * share <= locked * more * share
  {
    MulMono(fewer, more, locked);
    MulMono(locked * fewer, locked * more, share);
  }

  /** Short of closing, a smaller total forms smaller intermediates. */
  lemma FitsMono(loan: Loan, cfg: Config, fewer: nat, more: nat)
    requires fewer <= more < loan.principalUsd && loan.installmentCount > 0 && FitsAt(loan, cfg, more)
    ensures FitsAt(loan, cfg, fewer)
  {
    var n, p := loan.installmentCount, loan.principalUsd;
    EarnedGrows(loan.collateralLocked, fewer, more, BPS - cfg.safetyBufferBps);
    MulMono(fewer, more, n);
    Schedule.CoveredMono(fewer, more, n, p);
    Schedule.CoveredBounds(fewer, n, p);
    Schedule.CoveredBounds(more, n, p);
    Schedule.DueMonotone(loan.originatedAt, Covered(fewer, n, p), Covered(more, n, p), loan.intervalSecs);
  }

  /** Every payment still possible on a loan fits if and only if the two extreme ones do. */
  lemma AllFitIff(loan: Loan, cfg: Config)
    requires loan.totalRepaidUsd < loan.principalUsd && loan.installmentCount > 0
    ensures (forall total: nat :: loan.totalRepaidUsd < total <= loan.principalUsd ==> FitsAt(loan, cfg, total))
            <==> FitsFrom(loan, cfg)
  {
    if FitsFrom(loan, cfg) {
      forall total: nat | loan.totalRepaidUsd < total <= loan.principalUsd
        ensures FitsAt(loan, cfg, total)
      {
        if total < loan.principalUsd {
          FitsMono(loan, cfg, total, loan.principalUsd - 1);
        }
      }
    } else if FitsAt(loan, cfg, loan.principalUsd) {
      assert !FitsAt(loan, cfg, loan.principalUsd - 1);
    }
  }

  lemma ShareAtLeastOne(locked: nat, repaid: nat, share: pos)
    ensures locked * repaid <= locked * repaid * share
  {
    MulMono(0, repaid, locked);
    MulMono(1, share, locked * repaid);
  }

  /** The condition in numbers fixed when the loan is opened. */
  lemma FitsFromInNumbers(loan: Loan, cfg: Config)
    requires loan.installmentCount > 0
    ensures var n, p := loan.installmentCount, loan.principalUsd;
            FitsFrom(loan, cfg) <==>
              && I128(p * n)
              && (loan.totalRepaidUsd + 2 <= p ==>
                    && I128(p * BPS)
                    && I128(loan.collateralLocked * (p - 1) * (BPS - cfg.safetyBufferBps))
                    && U64(loan.originatedAt + (Covered(p - 1, n, p) + 1) * loan.intervalSecs))
  {
    var n: u32, p: int := loan.installmentCount, loan.principalUsd;
    MulMono(1, n, p);
    MulMono(p - 1, p, n);
    Schedule.CoveredBounds(p - 1, n, p);
    ShareAtLeastOne(loan.collateralLocked, p - 1, BPS - cfg.safetyBufferBps);
  }

  lemma FitsLater(loan: Loan, later: Loan, cfg: Config)
    requires SameTerms(loan, later) && loan.totalRepaidUsd <= later.totalRepaidUsd && FitsFrom(loan, cfg)
    ensures FitsFrom(later, cfg)
  {
  }

  /** In this world, the payment that brings the loan to `total` is not stopped by overflow. */
  ghost predicate FitsIn(w: World, id: nat, total: nat) {
    HasLoan(w, id) && Open(LoanIn(w, id)) && LoanIn(w, id).totalRepaidUsd < total <= LoanIn(w, id).principalUsd ==>
      FitsAt(LoanIn(w, id), w.books.ledger.config, total)
  }

  lemma StillFits(w: World, later: seq<Tx>, id: nat, total: nat)
    requires Inv(w) && HasLoan(w, id) && FitsFrom(LoanIn(w, id), w.books.ledger.config)
    ensures FitsIn(Run(w, later), id, total)
  {
    RunOnLoan(w, later, id);
    RunKeepsInv(w, later);
    var loan, cfg := LoanIn(Run(w, later), id), w.books.ledger.config;
    FitsLater(LoanIn(w, id), loan, cfg);
    if Open(loan) {
      AllFitIff(loan, cfg);
    }
  }

  /** No payment a loan can still receive, in any continuation of the run, ever overflows,
      if and only if the two extreme payments fit now. For a loan just opened this is a
      condition on its terms alone. */
  lemma NeverOverflowsIff(w0: World, txs: seq<Tx>, id: nat)
    requires Genesis(w0) && HasLoan(Run(w0, txs), id) && Open(LoanIn(Run(w0, txs), id))
    ensures (forall later: seq<Tx>, total: nat :: FitsIn(Run(Run(w0, txs), later), id, total))
            <==> FitsFrom(LoanIn(Run(w0, txs), id), w0.books.ledger.config)
  {
    var w := Run(w0, txs);
    Reachable(w0, txs);
    if FitsFrom(LoanIn(w, id), w0.books.ledger.config) {
      forall later: seq<Tx>, total: nat ensures FitsIn(Run(w, later), id, total) {
        StillFits(w, later, id, total);
      }
    } else {
      AllFitIff(LoanIn(w, id), w0.books.ledger.config);
      var total: nat :| LoanIn(w, id).totalRepaidUsd < total <= LoanIn(w, id).principalUsd
                        && !FitsAt(LoanIn(w, id), w0.books.ledger.config, total);
      assert Run(w, []) == w;
      assert !FitsIn(Run(w, []), id, total);
    }
  }

  /** A loan that overflows: 10^21 against a lock of 15 * 10^20. Half of it cannot be attested,
      while all of it at once can. */
  lemma LargeLoanOverflows(loan: Loan, cfg: Config)
    requires loan.principalUsd == 1_000_000_000_000_000_000_000
    requires loan.collateralLocked == 1_500_000_000_000_000_000_000
    requires loan.installmentCount == 1 && loan.totalRepaidUsd == 0
    ensures !FitsAt(loan, cfg, 500_000_000_000_000_000_000)
    ensures FitsAt(loan, cfg, 1_000_000_000_000_000_000_000)
    ensures !FitsFrom(loan, cfg)
  {
    if FitsFrom(loan, cfg) {
      AllFitIff(loan, cfg);
    }
  }

  /** An attestation that only overflow stands in the way of aborts with it. */
  lemma AttestOverflows(b: L.Books, env: Env, p: Address, v: Address, id: nat, amount: int)
    requires id in b.ledger.loans && p in env.auth && v in env.auth && p == b.ledger.loans[id].partner && v != p
    requires L.AuthorizedPartner(b.ledger, p) && L.AuthorizedVerifier(b.ledger, v)
    requires Open(b.ledger.loans[id]) && 0 < amount <= Outstanding(b.ledger.loans[id])
    requires !FitsAt(b.ledger.loans[id], b.ledger.config, b.ledger.loans[id].totalRepaidUsd + amount)
    ensures L.AttestRepayment(b, env, p, v, id, amount) == Err(Overflow)
  {
  }

  // ----- Cranks -----

  /** A transaction that pays into a loan, or puts it into grace, forms only numbers that fit. */
  lemma EventFits(w: World, tx: Tx, id: nat)
    requires Inv(w) && HasLoan(w, id)
    ensures var event, cfg := EventOn(w, tx, id), w.books.ledger.config;
            && (event.Paid? ==>
                  event.amount > 0 && FitsAt(LoanIn(w, id), cfg, LoanIn(w, id).totalRepaidUsd + event.amount))
            && (event.Flagged? ==> Cranks.DeadlineFits(cfg, w.now + tx.elapsed))
  {
    var a, command := Arrival(w, tx), tx.command;
    TimePasses(w, tx);
    if command.AttestRepayment? {
      AttestIff(a.books, External(a, tx.signers), command.partner, command.verifier, command.loanId, command.amount);
    } else if command.FlagOverdue? {
      Cranks.FlagOverdueIff(a.engine, a.books, External(a, tx.signers), id);
    } else if command.Poke? {
      Cranks.PokeEffect(a.engine, a.books, External(a, tx.signers), id);
    }
  }

  lemma DueAfterAnInterval(loan: Loan, cfg: Config)
    requires MoneySound(loan, cfg) && Open(loan)
    ensures loan.nextDue >= MIN_INTERVAL_SECS
  {
    MulMono(1, loan.installmentsPaid + 1, loan.intervalSecs);
  }

  lemma StaysOutOfGrace(w: World, tx: Tx, id: nat)
    requires Inv(w) && MIN_INTERVAL_SECS + w.books.ledger.config.gracePeriodSecs >= U64_MAX
    requires HasLoan(w, id) && (LoanIn(w, id).status.Active? || LoanIn(w, id).status.Repaid?)
    ensures HasLoan(Step(w, tx), id)
    ensures LoanIn(Step(w, tx), id).status.Active? || LoanIn(Step(w, tx), id).status.Repaid?
  {
    StepOnLoan(w, tx, id);
    EventFits(w, tx, id);
    if Open(LoanIn(w, id)) {
      DueAfterAnInterval(LoanIn(w, id), w.books.ledger.config);
    }
  }

  /** When no grace deadline can fit ledger time, a loan is never flagged: from any
      configuration with such a grace period, no run puts a loan into Grace or Default. */
  lemma {:induction false} NoGraceWithoutRoom(w0: World, txs: seq<Tx>, id: nat)
    requires Genesis(w0) && MIN_INTERVAL_SECS + w0.books.ledger.config.gracePeriodSecs >= U64_MAX
    requires HasLoan(Run(w0, txs), id)
    ensures LoanIn(Run(w0, txs), id).status.Active? || LoanIn(Run(w0, txs), id).status.Repaid?
  {
    if txs != [] {
      var before, tx := Run(w0, txs[..|txs| - 1]), txs[|txs| - 1];
      Reachable(w0, txs[..|txs| - 1]);
      if HasLoan(before, id) {
        NoGraceWithoutRoom(w0, txs[..|txs| - 1], id);
        StaysOutOfGrace(before, tx, id);
      } else {
        StepNewLoan(before, tx, id);
      }
    }
  }

  /** Every amount a liquidation computes lies between 0 and a stored amount. */
  lemma SettlementFits(w0: World, txs: seq<Tx>, id: nat)
    requires Genesis(w0) && HasLoan(Run(w0, txs), id) && Open(LoanIn(Run(w0, txs), id))
    ensures var loan := LoanIn(Run(w0, txs), id);
            var vault := V.VaultOf(Run(w0, txs).books.custody.vault, loan.guarantor);
            var forfeited := E.Forfeited(loan);
            && 0 < Outstanding(loan) <= loan.principalUsd
            && 0 < Remaining(loan) <= loan.collateralLocked
            && 0 < forfeited <= Remaining(loan)
            && 0 <= vault.lockedAmount - Remaining(loan) <= vault.lockedAmount - forfeited <= vault.lockedAmount
            && 0 <= vault.collateralBalance - forfeited <= vault.collateralBalance
  {
    var w := Run(w0, txs);
    Reachable(w0, txs);
    var loan := LoanIn(w, id);
    RemainingBounds(loan, w.books.ledger.config);
    Cranks.ForfeitedBounds(loan, w.books.ledger.config);
    LockedCovers(w.books, id);
    Solvency.PositionBacked(w.books.custody, loan.guarantor);
  }

  // ----- Storage -----

  /** A stored 128-bit amount: in range, and none of them is ever negative. */
  predicate AmountFits(x: int) {
    0 <= x && I128(x)
  }

  /** Every number in a loan's record fits its field. */
  ghost predicate RecordFits(loan: Loan) {
    && AmountFits(loan.principalUsd) && AmountFits(loan.totalRepaidUsd) && AmountFits(loan.installmentAmount)
    && AmountFits(loan.collateralLocked) && AmountFits(loan.collateralReleased)
    && U64(loan.id) && U64(loan.intervalSecs)
    && U64(loan.originatedAt) && U64(loan.nextDue) && U64(loan.graceExpiresAt)
  }

  ghost predicate LedgerFits(s: L.LedgerState) {
    && U64(s.loanCount)
    && U64(s.config.gracePeriodSecs)
    && (forall id :: id in s.loans ==> RecordFits(s.loans[id]))
    && (forall key :: key in s.openLoans ==> U64(s.openLoans[key]))
  }

  ghost predicate PositionFits(w: World, g: Address) {
    AmountFits(V.VaultOf(w.books.custody.vault, g).lockedAmount) && AmountFits(Balance(w, g))
  }

  /** The timelock, and the moment a pending action falls due. */
  ghost predicate TimelockFits(v: V.VaultState) {
    U64(v.timelockSecs) && (v.scheduled.Some? ==> U64(v.scheduled.value.eta))
  }

  /** Every number the three contracts store fits its machine integer. */
  ghost predicate StorageFits(w: World) {
    && LedgerFits(w.books.ledger)
    && (forall g :: PositionFits(w, g))
    && TimelockFits(w.books.custody.vault)
  }

  lemma EventKeepsRecord(loan: Loan, cfg: Config, now: nat, event: Event)
    requires MoneySound(loan, cfg) && Allowed(loan, now, event) && RecordFits(loan)
    requires event.Paid? ==> FitsAt(loan, cfg, loan.totalRepaidUsd + event.amount)
    requires event.Flagged? ==> Cranks.DeadlineFits(cfg, now)
    ensures RecordFits(After(loan, cfg, now, event))
  {
    if event.Paid? {
      RepayKeepsMoney(loan, cfg, now, event.amount);
      RemainingBounds(After(loan, cfg, now, event), cfg);
    }
  }

  lemma StepKeepsRecord(w: World, tx: Tx, id: nat)
    requires Inv(w) && HasLoan(w, id) && RecordFits(LoanIn(w, id))
    ensures HasLoan(Step(w, tx), id) && RecordFits(LoanIn(Step(w, tx), id))
  {
    StepOnLoan(w, tx, id);
    EventFits(w, tx, id);
    EventKeepsRecord(LoanIn(w, id), w.books.ledger.config, Step(w, tx).now, EventOn(w, tx, id));
  }

  /** A rate above zero leaves both the principal and the collateral below their product. */
  lemma ProductBounds(principal: pos, rate: nat)
    requires principal * rate / BPS > 0
    ensures principal <= principal * rate && principal * rate / BPS <= principal * rate
  {
    FloorBounds(principal * rate, BPS);
    if rate > 0 {
      MulMono(1, rate, principal);
    }
  }

  lemma InstallmentBounds(principal: pos, installments: pos)
    ensures 0 <= principal / installments <= principal
  {
    FloorNonNeg(principal, installments);
    FloorBounds(principal, installments);
    MulMono(1, installments, principal / installments);
  }

  /** What origination checks on the way in bounds the whole record. */
  lemma NewLoanFits(loan: Loan)
    requires loan.installmentCount > 0 && loan.installmentAmount == loan.principalUsd / loan.installmentCount
    requires loan.collateralLocked == loan.principalUsd * loan.ltvBps / BPS && loan.collateralLocked > 0
    requires I128(loan.principalUsd * loan.ltvBps) && U64(loan.id)
    requires loan.nextDue == loan.originatedAt + loan.intervalSecs && U64(loan.nextDue)
    requires loan.totalRepaidUsd == 0 && loan.collateralReleased == 0 && loan.graceExpiresAt == 0
    ensures RecordFits(loan)
  {
    ProductBounds(loan.principalUsd, loan.ltvBps);
    InstallmentBounds(loan.principalUsd, loan.installmentCount);
  }

  lemma OriginatedFits(w: World, signers: set<Address>, command: Command)
    requires Inv(w) && command.Originate? && Execute(w, signers, command).Ok?
    ensures var next := Execute(w, signers, command).value;
            HasLoan(next, w.books.ledger.loanCount + 1) && RecordFits(LoanIn(next, w.books.ledger.loanCount + 1))
  {
    OriginateIff(w.books, External(w, signers), command.guarantor, command.beneficiary, command.partner,
                 command.principalUsd, command.installmentCount, command.intervalSecs);
    NewLoanFits(L.NewLoan(w.books.ledger, w.now, command.guarantor, command.beneficiary, command.partner,
                          command.principalUsd, command.installmentCount, command.intervalSecs));
  }

  lemma NewRecordFits(w: World, tx: Tx, id: nat)
    requires Inv(w) && !HasLoan(w, id) && HasLoan(Step(w, tx), id)
    ensures RecordFits(LoanIn(Step(w, tx), id))
  {
    StepNewLoan(w, tx, id);
    TimePasses(w, tx);
    OriginatedFits(Arrival(w, tx), tx.signers, tx.command);
  }

  /** The count is the last id, and the index names only ids in use. */
  lemma RecordsBoundLedger(s: L.LedgerState)
    requires LedgerSound(s) && U64(s.config.gracePeriodSecs)
    requires forall id :: id in s.loans ==> RecordFits(s.loans[id])
    ensures LedgerFits(s)
  {
    if s.loanCount > 0 {
      assert s.loanCount in s.loans;
    }
    forall key | key in s.openLoans ensures U64(s.openLoans[key]) {
      assert Indexed(s, key, s.openLoans[key]);
    }
  }

  lemma StepKeepsLedger(w: World, tx: Tx)
    requires Inv(w) && LedgerFits(w.books.ledger)
    ensures LedgerFits(Step(w, tx).books.ledger)
  {
    StepKeepsInv(w, tx);
    forall id | id in Step(w, tx).books.ledger.loans ensures RecordFits(Step(w, tx).books.ledger.loans[id]) {
      if HasLoan(w, id) {
        StepKeepsRecord(w, tx, id);
      } else {
        NewRecordFits(w, tx, id);
      }
    }
    RecordsBoundLedger(Step(w, tx).books.ledger);
  }

  lemma SeizesNothingNegative(w: World, tx: Tx, g: Address)
    requires Inv(w)
    ensures SeizedFrom(w, tx, g) >= 0
  {
    if CrankTarget(tx.command).Some? && HasLoan(w, CrankTarget(tx.command).value) {
      var id, a := CrankTarget(tx.command).value, Arrival(w, tx);
      TimePasses(w, tx);
      StepOnLoan(w, tx, id);
      if EventOn(w, tx, id).Liquidated? {
        Cranks.LiquidateIff(a.engine, a.books, External(a, tx.signers), id);
        if !a.engine.paused {
          Cranks.LiquidateEffect(a.engine, a.books, External(a, tx.signers), id);
          Cranks.ForfeitedBounds(LoanIn(a, id), a.books.ledger.config);
        }
      }
    }
  }

  lemma StepKeepsPosition(w: World, tx: Tx, g: Address)
    requires Inv(w) && PositionFits(w, g)
    ensures PositionFits(Step(w, tx), g)
  {
    StepMovesBalance(w, tx, g);
    SeizesNothingNegative(w, tx, g);
    TimePasses(w, tx);
    if tx.command.Deposit? {
      Solvency.DepositIff(Arrival(w, tx).books.custody, External(Arrival(w, tx), tx.signers), tx.command.guarantor,
                          tx.command.amount);
    }
    StepKeepsInv(w, tx);
    Solvency.PositionBacked(Step(w, tx).books.custody, g);
  }

  lemma SuccessKeepsTimelock(w: World, signers: set<Address>, command: Command)
    requires Wired(w) && Execute(w, signers, command).Ok? && TimelockFits(w.books.custody.vault)
    ensures TimelockFits(Execute(w, signers, command).value.books.custody.vault)
  {
    if !command.ScheduleAction? && !command.ExecuteAction? && !command.CancelAction? {
      Timelock.SuccessKeepsControls(w, signers, command);
    }
  }

  lemma StepKeepsStorage(w: World, tx: Tx)
    requires Inv(w) && StorageFits(w)
    ensures StorageFits(Step(w, tx))
  {
    StepKeepsLedger(w, tx);
    forall g ensures PositionFits(Step(w, tx), g) {
      StepKeepsPosition(w, tx, g);
    }
    if Succeeds(w, tx) {
      SuccessKeepsTimelock(Arrival(w, tx), tx.signers, tx.command);
    }
  }

  /** Whatever is called, nothing an entry point stores ever exceeds its machine integer: the
      checks on the way in are enough. */
  lemma {:induction false} StorageAlwaysFits(w0: World, txs: seq<Tx>)
    requires Genesis(w0) && StorageFits(w0)
    ensures StorageFits(Run(w0, txs))
  {
    if txs != [] {
      StorageAlwaysFits(w0, txs[..|txs| - 1]);
      Reachable(w0, txs[..|txs| - 1]);
      StepKeepsStorage(Run(w0, txs[..|txs| - 1]), txs[|txs| - 1]);
    }
  }
}
