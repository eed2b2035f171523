/** A single loan: its record, its release curve, its schedule, and the way a
    repayment, a missed due date and a liquidation change it. */
module LoanModel {
  import opened Types

  const BPS: int := 10_000
  const MIN_INSTALLMENTS: int := 1
  const MAX_INSTALLMENTS: int := 52
  const MIN_INTERVAL_SECS: int := 86_400
  const MAX_INTERVAL_SECS: int := 90 * 86_400
  const MAX_TENOR_SECS: int := 365 * 86_400

  datatype LoanStatus = Active | Grace | Repaid | Defaulted

  datatype Loan = Loan(
    id: nat,
    guarantor: Address,
    beneficiary: Handle,
    partner: Address,
    principalUsd: pos,
    ltvBps: u32,
    collateralLocked: nat,
    collateralReleased: nat,
    installmentCount: u32,
    installmentAmount: int,
    intervalSecs: nat,
    originatedAt: nat,
    installmentsPaid: u32,
    totalRepaidUsd: nat,
    nextDue: nat,
    graceExpiresAt: nat,
    status: LoanStatus)

  datatype ConfigRecord = ConfigRecord(
    baseLtvBps: u32,
    minLtvBps: u32,
    safetyBufferBps: u32,
    gracePeriodSecs: nat)

  /** The check the ledger's constructor makes. */
  predicate ValidConfig(c: ConfigRecord) {
    c.minLtvBps <= c.baseLtvBps && c.safetyBufferBps < BPS && c.gracePeriodSecs != 0
  }

  /** A configuration that passed that check. Nothing changes it afterwards. */
  type Config = c: ConfigRecord | ValidConfig(c) witness ConfigRecord(15_000, 11_000, 500, 1_209_600)

  predicate Open(loan: Loan) {
    loan.status.Active? || loan.status.Grace?
  }

  function Outstanding(loan: Loan): nat {
    if loan.principalUsd > loan.totalRepaidUsd then loan.principalUsd - loan.totalRepaidUsd else 0
  }

  function Remaining(loan: Loan): int {
    loan.collateralLocked - loan.collateralReleased
  }

  /** Collateral earned back once `repaid` of `principal` has been repaid. */
  function ReleaseCurve(locked: nat, repaid: nat, principal: pos, bufferBps: u32): int {
    locked * repaid * (BPS - bufferBps) / (principal * BPS)
  }

  lemma CoveredNonNeg(repaid: nat, installments: u32, principal: pos)
    ensures repaid * installments / principal >= 0
  {
    assert repaid * installments >= 0;
  }

  /** Installments covered by principal repaid, before the cast to u32. */
  function Covered(repaid: nat, installments: u32, principal: pos): nat {
    CoveredNonNeg(repaid, installments, principal);
    repaid * installments / principal
  }

  function InstallmentsCovered(loan: Loan): u32 {
    AsU32(Covered(loan.totalRepaidUsd, loan.installmentCount, loan.principalUsd))
  }

  predicate Overdue(loan: Loan, now: nat) {
    loan.status.Active? && now > loan.nextDue
  }

  predicate GraceExpired(loan: Loan, now: nat) {
    loan.status.Grace? && now > loan.graceExpiresAt
  }

  /** The intermediates of `ReleaseCurve` fit. */
  predicate CurveFits(locked: nat, repaid: nat, principal: pos, bufferBps: u32) {
    && I128(locked * repaid)
    && I128(locked * repaid * (BPS - bufferBps))
    && I128(principal * BPS)
  }

  /** The date the installment after `paid` falls due. */
  function DueAfter(start: nat, paid: u32, interval: nat): nat {
    start + (paid + 1) * interval
  }

  /** Every intermediate of a repayment that brings the total to `repaid` fits: the covered
      installments always, the earned share and the next due date unless it closes the loan. */
  predicate FitsAt(loan: Loan, cfg: Config, repaid: nat) {
    && I128(repaid)
    && I128(repaid * loan.installmentCount)
    && (repaid < loan.principalUsd ==>
          && CurveFits(loan.collateralLocked, repaid, loan.principalUsd, cfg.safetyBufferBps)
          && U64(DueAfter(loan.originatedAt, AsU32(Covered(repaid, loan.installmentCount, loan.principalUsd)),
                          loan.intervalSecs)))
  }

  /** The record after a repayment, and the collateral that repayment releases. */
  function Repay(loan: Loan, cfg: Config, now: nat, amount: pos): (Loan, int) {
    var paid := loan.(totalRepaidUsd := loan.totalRepaidUsd + amount);
    var counted := paid.(installmentsPaid := InstallmentsCovered(paid));
    var fullyRepaid := counted.totalRepaidUsd >= counted.principalUsd;
    var releasable :=
      if fullyRepaid then counted.collateralLocked
      else ReleaseCurve(counted.collateralLocked, counted.totalRepaidUsd, counted.principalUsd, cfg.safetyBufferBps);
    var releaseNow := releasable - counted.collateralReleased;
    var released :=
      if releaseNow > 0 then counted.(collateralReleased := counted.collateralReleased + releaseNow) else counted;
    var next :=
      if fullyRepaid then
        released.(status := Repaid, graceExpiresAt := 0)
      else
        var due :=
          released.(nextDue := DueAfter(released.originatedAt, released.installmentsPaid, released.intervalSecs));
        if now <= due.nextDue then due.(status := Active, graceExpiresAt := 0) else due;
    (next, releaseNow)
  }

  function EnterGrace(loan: Loan, cfg: Config, now: nat): Loan {
    loan.(status := Grace, graceExpiresAt := now + cfg.gracePeriodSecs)
  }

  function CloseDefaulted(loan: Loan): Loan {
    loan.(status := Defaulted, collateralReleased := loan.collateralLocked)
  }
}
