/** The ledger's lending entry points in plain numbers: in every reachable state, exactly
    when each call goes through, and the whole state it leaves in both contracts. */
module LedgerRules {
  import opened Types
  import opened LoanModel
  import opened Invariants
  import opened Protocol
  import opened Rules
  import Curve
  import Schedule
  import V = VaultModel
  import L = LedgerModel

  // ----- Origination -----

  /** The rate a beneficiary is asked for, in basis points: the base rate less the score's
      share of the span down to the floor. */
  ghost function RateOf(s: L.LedgerState, h: Handle): int {
    var score: int := if h in s.reputation then s.reputation[h] else 0;
    s.config.baseLtvBps - (s.config.baseLtvBps - s.config.minLtvBps) * score / 10_000
  }

  ghost predicate NoLiveLoan(s: L.LedgerState, g: Address, h: Handle) {
    forall id :: id in s.loans && s.loans[id].guarantor == g && s.loans[id].beneficiary == h ==> !Live(s.loans[id])
  }

  /** Between one and 52 installments, a day to 90 days apart, over at most 365 days. */
  ghost predicate Terms(n: u32, interval: nat) {
    1 <= n <= 52 && 86_400 <= interval <= 7_776_000 && n * interval <= 31_536_000
  }

  /** What a guarantor can open, and on which terms. */
  ghost predicate CanOpen(w: World, signers: set<Address>, g: Address, h: Handle, p: Address,
                          principal: int, n: u32, interval: nat)
  {
    var s, position := w.books.ledger, V.VaultOf(w.books.custody.vault, g);
    && Signed(w, signers, g) && principal > 0 && Terms(n, interval)
    && Standing(s.partners, p) && NoLiveLoan(s, g, h)
    && 0 < principal * RateOf(s, h) / 10_000 <= position.collateralBalance - position.lockedAmount
    && principal * RateOf(s, h) <= 170_141_183_460_469_231_731_687_303_715_884_105_727
    && s.loanCount + 1 <= 18_446_744_073_709_551_615 && w.now + interval <= 18_446_744_073_709_551_615
  }

  /** The rate as the loan stores it. */
  lemma RateStored(s: L.LedgerState, h: Handle)
    requires LedgerSound(s)
    ensures L.RequiredLtvBps(s, h) == RateOf(s, h)
  {
    RequiredLtvInRange(s, h);
  }

  lemma IndexedIffLive(s: L.LedgerState, g: Address, h: Handle)
    requires LedgerSound(s)
    ensures NoLiveLoan(s, g, h) <==> (g, h) !in s.openLoans
  {
    if (g, h) in s.openLoans {
      assert Indexed(s, (g, h), s.openLoans[(g, h)]);
    } else {
      forall id | id in s.loans && s.loans[id].guarantor == g && s.loans[id].beneficiary == h
        ensures !Live(s.loans[id])
      {
        assert !Indexed(s, (g, h), id);
      }
    }
  }

  lemma OriginableInNumbers(w: World, signers: set<Address>, g: Address, h: Handle, p: Address,
                            principal: int, n: u32, interval: nat)
    requires Inv(w)
    ensures Originable(w.books, External(w, signers), g, h, p, principal, n, interval)
            <==> CanOpen(w, signers, g, h, p, principal, n, interval)
  {
    RateStored(w.books.ledger, h);
    IndexedIffLive(w.books.ledger, g, h);
  }

  /** An origination goes through exactly on these terms. A schedule outside them is refused
      as such, before anything else about the loan is looked at. */
  lemma OriginationRule(w: World, signers: set<Address>, g: Address, h: Handle, p: Address,
                        principal: int, n: u32, interval: nat)
    requires Reached(w)
    ensures var result := Execute(w, signers, Originate(g, h, p, principal, n, interval));
            && (result.Ok? <==> CanOpen(w, signers, g, h, p, principal, n, interval))
            && (Signed(w, signers, g) && principal > 0 && !Terms(n, interval) ==> result == Err(InvalidSchedule))
            && (Signed(w, signers, g) && principal > 0 && Terms(n, interval) && Standing(w.books.ledger.partners, p) ==>
                  (!NoLiveLoan(w.books.ledger, g, h) ==> result == Err(LoanAlreadyOpen)))
  {
    ReachedIsSound(w);
    OriginateIff(w.books, External(w, signers), g, h, p, principal, n, interval);
    OriginableInNumbers(w, signers, g, h, p, principal, n, interval);
    IndexedIffLive(w.books.ledger, g, h);
  }

  /** A loan as it is opened: unpaid, its collateral locked, its first installment due an
      interval from now. */
  ghost predicate OpenedAs(loan: Loan, id: nat, now: nat, g: Address, h: Handle, p: Address,
                           principal: int, rate: int, n: u32, interval: nat)
    requires n > 0
  {
    && loan.id == id && loan.guarantor == g && loan.beneficiary == h && loan.partner == p
    && loan.principalUsd == principal && loan.ltvBps == rate
    && loan.collateralLocked == principal * rate / 10_000 && loan.collateralReleased == 0
    && loan.installmentCount == n && loan.installmentAmount == principal / n && loan.intervalSecs == interval
    && loan.originatedAt == now && loan.nextDue == now + interval
    && loan.installmentsPaid == 0 && loan.totalRepaidUsd == 0
    && loan.graceExpiresAt == 0 && loan.status == Active
  }

  /** What it leaves: the next loan open on those terms, and its collateral locked. */
  ghost predicate Opens(w: World, next: World, g: Address, h: Handle, p: Address, principal: int, n: u32, interval: nat)
    requires n > 0
  {
    var s, position := w.books.ledger, V.VaultOf(w.books.custody.vault, g);
    var id, rate := s.loanCount + 1, RateOf(s, h);
    && HasLoan(next, id) && OpenedAs(LoanIn(next, id), id, w.now, g, h, p, principal, rate, n, interval)
    && OnlyLending(w, next, id, s.loans[id := LoanIn(next, id)], s.openLoans[(g, h) := id],
                   g, position.collateralBalance, position.lockedAmount + principal * rate / 10_000)
    && next.books.custody.balances == w.books.custody.balances
  }

  lemma OriginateOpens(w: World, env: Env, g: Address, h: Handle, p: Address, principal: int, n: u32, interval: nat)
    requires Inv(w) && env.now == w.now && L.Originate(w.books, env, g, h, p, principal, n, interval).Ok?
    ensures n > 0
    ensures Opens(w, w.(books := L.Originate(w.books, env, g, h, p, principal, n, interval).value.0),
                  g, h, p, principal, n, interval)
  {
    OriginateIff(w.books, env, g, h, p, principal, n, interval);
    RateStored(w.books.ledger, h);
  }

  /** An origination opens the next loan on its terms, locks its collateral, writes nothing
      else, and reports the id. */
  lemma OriginationEffect(w: World, signers: set<Address>, g: Address, h: Handle, p: Address,
                          principal: int, n: u32, interval: nat)
    requires Reached(w) && Execute(w, signers, Originate(g, h, p, principal, n, interval)).Ok?
    ensures n > 0
    ensures Opens(w, Execute(w, signers, Originate(g, h, p, principal, n, interval)).value,
                  g, h, p, principal, n, interval)
    ensures L.Originate(w.books, External(w, signers), g, h, p, principal, n, interval).value.1
         == w.books.ledger.loanCount + 1
  {
    ReachedIsSound(w);
    OriginateOpens(w, External(w, signers), g, h, p, principal, n, interval);
  }

  // ----- Repayment -----

  /** Every number the repayment forms on the way fits: 128 bits for amounts, 64 for times. */
  ghost predicate RepaymentFits(loan: Loan, buffer: u32, repaid: nat) {
    && repaid <= 170_141_183_460_469_231_731_687_303_715_884_105_727
    && repaid * loan.installmentCount <= 170_141_183_460_469_231_731_687_303_715_884_105_727
    && (repaid < loan.principalUsd ==>
          && loan.collateralLocked * repaid <= 170_141_183_460_469_231_731_687_303_715_884_105_727
          && loan.collateralLocked * repaid * (10_000 - buffer)
             <= 170_141_183_460_469_231_731_687_303_715_884_105_727
          && loan.principalUsd * 10_000 <= 170_141_183_460_469_231_731_687_303_715_884_105_727
          && loan.originatedAt
             + (repaid * loan.installmentCount / loan.principalUsd + 1) * loan.intervalSecs
             <= 18_446_744_073_709_551_615)
  }

  /** Which repayments can be attested. */
  ghost predicate CanAttest(w: World, signers: set<Address>, p: Address, v: Address, id: nat, amount: int) {
    var s := w.books.ledger;
    && Signed(w, signers, p) && Signed(w, signers, v) && p != v
    && Standing(s.partners, p) && Standing(s.verifiers, v)
    && id in s.loans && s.loans[id].partner == p && Live(s.loans[id])
    && 0 < amount <= s.loans[id].principalUsd - s.loans[id].totalRepaidUsd
    && RepaymentFits(s.loans[id], s.config.safetyBufferBps, s.loans[id].totalRepaidUsd + amount)
  }

  lemma FitsInNumbers(loan: Loan, cfg: Config, repaid: nat)
    requires loan.installmentCount > 0 && repaid <= loan.principalUsd
    ensures FitsAt(loan, cfg, repaid) <==> RepaymentFits(loan, cfg.safetyBufferBps, repaid)
  {
    Schedule.CoveredBounds(repaid, loan.installmentCount, loan.principalUsd);
  }

  lemma AttestableInNumbers(w: World, signers: set<Address>, p: Address, v: Address, id: nat, amount: int)
    requires Inv(w)
    ensures Attestable(w.books, External(w, signers), p, v, id, amount) <==> CanAttest(w, signers, p, v, id, amount)
  {
    if HasLoan(w, id) && 0 < amount <= LoanIn(w, id).principalUsd - LoanIn(w, id).totalRepaidUsd {
      FitsInNumbers(LoanIn(w, id), w.books.ledger.config, LoanIn(w, id).totalRepaidUsd + amount);
    }
  }

  /** An attestation goes through exactly for these. */
  lemma AttestationRule(w: World, signers: set<Address>, p: Address, v: Address, id: nat, amount: int)
    requires Reached(w)
    ensures Execute(w, signers, AttestRepayment(p, v, id, amount)).Ok? <==> CanAttest(w, signers, p, v, id, amount)
  {
    ReachedIsSound(w);
    AttestIff(w.books, External(w, signers), p, v, id, amount);
    AttestableInNumbers(w, signers, p, v, id, amount);
  }

  /** The record after a repayment. Short of the principal, the released collateral is the
      exact share rounded down once, the next due date is that of the first installment not
      covered, and grace ends if that date is not past; in full, everything is released. */
  ghost predicate RepaidBy(loan: Loan, next: Loan, buffer: u32, now: nat, amount: int) {
    var repaid := loan.totalRepaidUsd + amount;
    && next == loan.(totalRepaidUsd := next.totalRepaidUsd, installmentsPaid := next.installmentsPaid,
                     collateralReleased := next.collateralReleased, nextDue := next.nextDue,
                     graceExpiresAt := next.graceExpiresAt, status := next.status)
    && next.totalRepaidUsd == repaid
    && next.installmentsPaid == repaid * loan.installmentCount / loan.principalUsd
    && if repaid == loan.principalUsd then
         && next.status == Repaid && next.graceExpiresAt == 0
         && next.collateralReleased == loan.collateralLocked && next.nextDue == loan.nextDue
       else
         && next.collateralReleased * (loan.principalUsd * 10_000)
            <= loan.collateralLocked * repaid * (10_000 - buffer)
            < (next.collateralReleased + 1) * (loan.principalUsd * 10_000)
         && next.nextDue == loan.originatedAt + (next.installmentsPaid + 1) * loan.intervalSecs
         && next.status == (if now <= next.nextDue then Active else loan.status)
         && next.graceExpiresAt == (if now <= next.nextDue then 0 else loan.graceExpiresAt)
  }

  lemma RepayIsRepaidBy(loan: Loan, cfg: Config, now: nat, amount: pos)
    requires MoneySound(loan, cfg) && Open(loan) && loan.totalRepaidUsd + amount <= loan.principalUsd
    ensures RepaidBy(loan, Repay(loan, cfg, now, amount).0, cfg.safetyBufferBps, now, amount)
  {
    var repaid := loan.totalRepaidUsd + amount;
    RepayKeepsMoney(loan, cfg, now, amount);
    Schedule.CoveredBounds(repaid, loan.installmentCount, loan.principalUsd);
    Curve.RoundedDownOnce(loan.collateralLocked, repaid, loan.principalUsd, cfg.safetyBufferBps);
  }

  /** What an attestation leaves: the one record so rewritten, what it releases unlocked, and a
      loan repaid in full out of the index. */
  ghost predicate Credits(w: World, next: World, id: nat, amount: int) {
    && HasLoan(w, id) && HasLoan(next, id)
    && var s, loan, repaid := w.books.ledger, LoanIn(w, id), LoanIn(next, id);
       var released := repaid.collateralReleased - loan.collateralReleased;
       var position := V.VaultOf(w.books.custody.vault, loan.guarantor);
       && RepaidBy(loan, repaid, s.config.safetyBufferBps, w.now, amount) && released >= 0
       && OnlyLending(w, next, s.loanCount, s.loans[id := repaid],
                      if repaid.status == Repaid then s.openLoans - {(loan.guarantor, loan.beneficiary)}
                      else s.openLoans,
                      loan.guarantor, position.collateralBalance, position.lockedAmount - released)
       && next.books.custody.balances == w.books.custody.balances
  }

  lemma AttestCredits(w: World, env: Env, p: Address, v: Address, id: nat, amount: int)
    requires Inv(w) && env.now == w.now && L.AttestRepayment(w.books, env, p, v, id, amount).Ok?
    ensures var (books, released) := L.AttestRepayment(w.books, env, p, v, id, amount).value;
            && Credits(w, w.(books := books), id, amount)
            && released == books.ledger.loans[id].collateralReleased - LoanIn(w, id).collateralReleased
  {
    AttestIff(w.books, env, p, v, id, amount);
    AttestEffect(w.books, env, p, v, id, amount);
    RepayIsRepaidBy(LoanIn(w, id), w.books.ledger.config, w.now, amount);
    RepayKeepsMoney(LoanIn(w, id), w.books.ledger.config, w.now, amount);
  }

  /** An attestation credits the loan so, writes nothing else, and reports what it released. */
  lemma AttestationEffect(w: World, signers: set<Address>, p: Address, v: Address, id: nat, amount: int)
    requires Reached(w) && Execute(w, signers, AttestRepayment(p, v, id, amount)).Ok?
    ensures Credits(w, Execute(w, signers, AttestRepayment(p, v, id, amount)).value, id, amount)
    ensures L.AttestRepayment(w.books, External(w, signers), p, v, id, amount).value.1
         == LoanIn(Execute(w, signers, AttestRepayment(p, v, id, amount)).value, id).collateralReleased
            - LoanIn(w, id).collateralReleased
  {
    ReachedIsSound(w);
    AttestCredits(w, External(w, signers), p, v, id, amount);
  }

  // ----- Reassignment -----

  /** The ledger's admin can move a live loan to a partner of standing. Only the loan's partner
      changes. */
  lemma ReassignmentRule(w: World, signers: set<Address>, admin: Address, id: nat, p: Address)
    requires Reached(w)
    ensures var s, result := w.books.ledger, Execute(w, signers, ReassignPartner(admin, id, p));
            && (result.Ok? <==>
                  && Signed(w, signers, admin) && admin == s.admin && Standing(s.partners, p)
                  && HasLoan(w, id) && Live(LoanIn(w, id)))
            && (result.Ok? ==>
                  result.value
                  == w.(books := w.books.(ledger := s.(loans := s.loans[id := s.loans[id].(partner := p)]))))
  {
    ReachedIsSound(w);
  }
}
