/** What holds between any two transactions, and the proof that every step keeps it. */
module Invariants {
  import opened Types
  import opened LoanModel
  import opened Solvency
  import opened Protocol
  import Schedule
  import Curve
  import IntDivision
  import V = VaultModel
  import L = LedgerModel

  // ----- One loan -----

  /** Terms fixed at origination. */
  ghost predicate TermsSound(loan: Loan, cfg: Config) {
    && L.ValidSchedule(loan.installmentCount, loan.intervalSecs)
    && cfg.minLtvBps <= loan.ltvBps <= cfg.baseLtvBps
    && loan.collateralLocked == loan.principalUsd * loan.ltvBps / BPS
    && loan.collateralLocked > 0
  }

  ghost function EarnedBack(loan: Loan, cfg: Config): int {
    ReleaseCurve(loan.collateralLocked, loan.totalRepaidUsd, loan.principalUsd, cfg.safetyBufferBps)
  }

  /** The date of the first installment that money repaid does not cover. */
  ghost function DueDate(loan: Loan): nat {
    loan.originatedAt + (Covered(loan.totalRepaidUsd, loan.installmentCount, loan.principalUsd) + 1) * loan.intervalSecs
  }

  /** What is repaid determines what is released, what is covered and what is due. */
  ghost predicate MoneySound(loan: Loan, cfg: Config) {
    && TermsSound(loan, cfg)
    && loan.totalRepaidUsd <= loan.principalUsd
    && loan.installmentsPaid == Covered(loan.totalRepaidUsd, loan.installmentCount, loan.principalUsd)
    && (loan.status.Repaid? <==> loan.totalRepaidUsd == loan.principalUsd)
    && loan.collateralReleased == (if Open(loan) then EarnedBack(loan, cfg) else loan.collateralLocked)
    && (Open(loan) ==> loan.nextDue == DueDate(loan))
  }

  /** The loan against the clock: Grace means behind, its deadline was set by some past
      crank, and a loan out of Grace and not defaulted has no deadline. */
  ghost predicate ClockSound(loan: Loan, cfg: Config, now: nat) {
    && loan.originatedAt <= now
    && (loan.status.Grace? ==> now > loan.nextDue && loan.graceExpiresAt <= now + cfg.gracePeriodSecs)
    && (loan.status.Active? || loan.status.Repaid? ==> loan.graceExpiresAt == 0)
  }

  lemma RemainingBounds(loan: Loan, cfg: Config)
    requires MoneySound(loan, cfg)
    ensures 0 <= loan.collateralReleased <= loan.collateralLocked
    ensures Open(loan) <==> Remaining(loan) > 0
  {
    if Open(loan) {
      Curve.NonNegative(loan.collateralLocked, loan.totalRepaidUsd, loan.principalUsd, cfg.safetyBufferBps);
      Curve.BufferWithheld(loan.collateralLocked, loan.totalRepaidUsd, loan.principalUsd, cfg.safetyBufferBps);
    }
  }

  /** A repayment in range releases exactly the difference the curve says, or on closing everything left. */
  lemma RepayKeepsMoney(loan: Loan, cfg: Config, now: nat, amount: pos)
    requires MoneySound(loan, cfg) && Open(loan) && loan.totalRepaidUsd + amount <= loan.principalUsd
    ensures var (next, releaseNow) := Repay(loan, cfg, now, amount);
            && MoneySound(next, cfg)
            && 0 <= releaseNow == next.collateralReleased - loan.collateralReleased
            && (next.status.Repaid? <==> loan.totalRepaidUsd + amount == loan.principalUsd)
            && loan.installmentsPaid <= next.installmentsPaid
  {
    var repaid := loan.totalRepaidUsd + amount;
    Schedule.CoveredBounds(repaid, loan.installmentCount, loan.principalUsd);
    Schedule.CoveredMono(loan.totalRepaidUsd, repaid, loan.installmentCount, loan.principalUsd);
    Curve.Monotone(loan.collateralLocked, loan.totalRepaidUsd, repaid, loan.principalUsd, cfg.safetyBufferBps);
    RemainingBounds(loan, cfg);
  }

  // ----- Both books -----

  /** What the ledger says is locked for `g` on the loans with ids 1 to n. */
  ghost function Backing(loans: map<nat, Loan>, g: Address, n: nat): int {
    if n == 0 then 0
    else Backing(loans, g, n - 1) + (if n in loans && loans[n].guarantor == g then Remaining(loans[n]) else 0)
  }

  lemma {:induction false} BackingUpdate(loans: map<nat, Loan>, id: nat, loan: Loan, g: Address, n: nat)
    requires id in loans && loan.guarantor == loans[id].guarantor
    ensures Backing(loans[id := loan], g, n) == Backing(loans, g, n)
              + (if 1 <= id <= n && loan.guarantor == g then Remaining(loan) - Remaining(loans[id]) else 0)
  {
    if n > 0 {
      BackingUpdate(loans, id, loan, g, n - 1);
    }
  }

  lemma {:induction false} BackingAppend(loans: map<nat, Loan>, id: nat, loan: Loan, g: Address, n: nat)
    requires n < id
    ensures Backing(loans[id := loan], g, n) == Backing(loans, g, n)
  {
    if n > 0 {
      BackingAppend(loans, id, loan, g, n - 1);
    }
  }

  /** No single loan's share exceeds its guarantor's total. */
  lemma {:induction false} BackingCovers(loans: map<nat, Loan>, id: nat, g: Address, n: nat)
    requires forall i :: i in loans ==> Remaining(loans[i]) >= 0
    ensures Backing(loans, g, n) >= 0
    ensures 1 <= id <= n && id in loans && loans[id].guarantor == g ==> Backing(loans, g, n) >= Remaining(loans[id])
  {
    if n > 0 {
      BackingCovers(loans, id, g, n - 1);
    }
  }

  ghost predicate BooksAgree(b: L.Books) {
    forall g :: V.VaultOf(b.custody.vault, g).lockedAmount == Backing(b.ledger.loans, g, b.ledger.loanCount)
  }

  /** Stored loans are exactly ids 1 to `loanCount`, each under its own id. */
  ghost predicate IdsDense(s: L.LedgerState) {
    && (forall id: nat :: id in s.loans <==> 1 <= id <= s.loanCount)
    && (forall id :: id in s.loans ==> s.loans[id].id == id)
  }

  ghost predicate Indexed(s: L.LedgerState, key: (Address, Handle), id: nat) {
    && id in s.loans && Open(s.loans[id])
    && key == (s.loans[id].guarantor, s.loans[id].beneficiary)
  }

  /** The index names a loan for a pair exactly when that loan is that pair's open one. */
  ghost predicate IndexAgrees(s: L.LedgerState) {
    forall key, id :: Indexed(s, key, id) <==> key in s.openLoans && s.openLoans[key] == id
  }

  ghost predicate LedgerSound(s: L.LedgerState) {
    && IdsDense(s)
    && IndexAgrees(s)
    && (forall id :: id in s.loans ==> MoneySound(s.loans[id], s.config))
    && (forall h :: h in s.reputation ==> s.reputation[h] <= BPS)
  }

  ghost predicate BooksSound(b: L.Books) {
    && LedgerSound(b.ledger)
    && CustodySound(b.custody)
    && BooksAgree(b)
    && b.custody.vault.loanLedger == Some(b.ledger.self)
  }

  ghost predicate Punctual(s: L.LedgerState, now: nat) {
    forall id :: id in s.loans ==> ClockSound(s.loans[id], s.config, now)
  }

  ghost predicate Inv(w: World) {
    && Wired(w)
    && BooksSound(w.books)
    && Punctual(w.books.ledger, w.now)
  }

  // ----- Two shapes of change -----

  /** The ledger with a loan's record rewritten, and unindexed if that closed it. */
  ghost function Replace(s: L.LedgerState, loan: Loan): L.LedgerState {
    if Open(loan) then L.SaveLoan(s, loan) else L.Unindex(L.SaveLoan(s, loan), loan)
  }

  /** Rewriting one loan, and moving its guarantor's lock by the same amount. */
  lemma LoanUpdateKeepsBooks(b: L.Books, loan: Loan, c: V.Custody, balance: int)
    requires BooksSound(b) && loan.id in b.ledger.loans
    requires loan.guarantor == b.ledger.loans[loan.id].guarantor
    requires CustodySound(c)
    requires var old' := b.ledger.loans[loan.id];
             OnlyPosition(b.custody, c, loan.guarantor, balance,
                          V.VaultOf(b.custody.vault, loan.guarantor).lockedAmount + Remaining(loan) - Remaining(old'))
    ensures BooksAgree(L.Books(Replace(b.ledger, loan), c))
  {
    forall g
      ensures V.VaultOf(c.vault, g).lockedAmount
           == Backing(b.ledger.loans[loan.id := loan], g, b.ledger.loanCount)
    {
      BackingUpdate(b.ledger.loans, loan.id, loan, g, b.ledger.loanCount);
      assert V.VaultOf(b.custody.vault, g).lockedAmount == Backing(b.ledger.loans, g, b.ledger.loanCount);
    }
  }

  /** Rewriting an open loan's record keeps the index right: its entry goes if the loan closed. */
  lemma LoanUpdateKeepsIndex(s: L.LedgerState, loan: Loan)
    requires IdsDense(s) && IndexAgrees(s) && loan.id in s.loans && Open(s.loans[loan.id])
    requires loan.guarantor == s.loans[loan.id].guarantor && loan.beneficiary == s.loans[loan.id].beneficiary
    ensures IndexAgrees(Replace(s, loan))
  {
    var next := Replace(s, loan);
    var pair := (loan.guarantor, loan.beneficiary);
    assert Indexed(s, pair, loan.id);
    forall key, id
      ensures Indexed(next, key, id) <==> key in next.openLoans && next.openLoans[key] == id
    {
      assert Indexed(s, key, id) <==> key in s.openLoans && s.openLoans[key] == id;
    }
  }

  /** Rewriting one loan in a way that keeps it open, or that closes it and drops its index entry. */
  lemma LoanUpdateKeepsLedger(s: L.LedgerState, loan: Loan)
    requires LedgerSound(s) && loan.id in s.loans && Open(s.loans[loan.id])
    requires loan.guarantor == s.loans[loan.id].guarantor && loan.beneficiary == s.loans[loan.id].beneficiary
    requires MoneySound(loan, s.config)
    ensures LedgerSound(Replace(s, loan))
  {
    LoanUpdateKeepsIndex(s, loan);
  }

  // ----- Each operation -----

  /** The rate asked of a beneficiary: within the configured range, and never truncated. */
  lemma RequiredLtvInRange(s: L.LedgerState, beneficiary: Handle)
    requires L.ReputationOf(s, beneficiary) <= BPS
    ensures s.config.minLtvBps <= L.RequiredLtvBps(s, beneficiary) <= s.config.baseLtvBps
    ensures L.RequiredLtvBps(s, beneficiary)
         == s.config.baseLtvBps - (s.config.baseLtvBps - s.config.minLtvBps) * L.ReputationOf(s, beneficiary) / BPS
  {
    var score: int := L.ReputationOf(s, beneficiary);
    var span := s.config.baseLtvBps - s.config.minLtvBps;
    Curve.ScaledBound(span, span, score);
    IntDivision.FloorNonNeg(span * score, BPS);
    IntDivision.FloorBounds(span * score, BPS);
  }

  lemma AddLoanKeepsLedger(s: L.LedgerState, loan: Loan)
    requires LedgerSound(s) && loan.id == s.loanCount + 1 && (loan.guarantor, loan.beneficiary) !in s.openLoans
    requires MoneySound(loan, s.config) && Open(loan)
    ensures LedgerSound(L.AddLoan(s, loan))
  {
    var next := L.AddLoan(s, loan);
    forall key, id
      ensures Indexed(next, key, id) <==> key in next.openLoans && next.openLoans[key] == id
    {
      assert Indexed(s, key, id) <==> key in s.openLoans && s.openLoans[key] == id;
    }
  }

  lemma AddLoanKeepsBooks(b: L.Books, loan: Loan, c: V.Custody, balance: int)
    requires BooksSound(b) && loan.id == b.ledger.loanCount + 1
    requires OnlyPosition(b.custody, c, loan.guarantor, balance,
                          V.VaultOf(b.custody.vault, loan.guarantor).lockedAmount + Remaining(loan))
    ensures BooksAgree(L.Books(L.AddLoan(b.ledger, loan), c))
  {
    var s := b.ledger;
    forall g
      ensures V.VaultOf(c.vault, g).lockedAmount == Backing(s.loans[loan.id := loan], g, loan.id)
    {
      BackingAppend(s.loans, loan.id, loan, g, s.loanCount);
      assert V.VaultOf(b.custody.vault, g).lockedAmount == Backing(s.loans, g, s.loanCount);
    }
  }

  /** Exactly when a loan can be opened: an unspoken-for pair, sound terms, the required
      collateral available, and the collateral product, the id and the first due date
      within their machine integers. */
  ghost predicate Originable(b: L.Books, env: Env, g: Address, h: Handle, p: Address,
                             principal: int, n: u32, interval: nat)
  {
    && g in env.auth && principal > 0 && L.ValidSchedule(n, interval)
    && L.AuthorizedPartner(b.ledger, p) && (g, h) !in b.ledger.openLoans
    && 0 < principal * L.RequiredLtvBps(b.ledger, h) / BPS <= V.Available(b.custody.vault, g)
    && I128(principal * L.RequiredLtvBps(b.ledger, h))
    && U64(b.ledger.loanCount + 1) && U64(env.now + interval)
  }

  lemma NewLoanSound(loan: Loan, cfg: Config)
    requires TermsSound(loan, cfg)
    requires loan.totalRepaidUsd == 0 && loan.installmentsPaid == 0 && loan.collateralReleased == 0
    requires loan.status.Active? && loan.nextDue == loan.originatedAt + loan.intervalSecs
    ensures MoneySound(loan, cfg)
  {
    Schedule.CoveredBounds(0, loan.installmentCount, loan.principalUsd);
    assert Covered(0, loan.installmentCount, loan.principalUsd) == 0 by {
      assert 0 * loan.installmentCount == 0;
    }
    assert EarnedBack(loan, cfg) == 0 by {
      assert loan.collateralLocked * 0 * (BPS - cfg.safetyBufferBps) == 0;
    }
  }

  lemma OriginateIff(b: L.Books, env: Env, g: Address, h: Handle, p: Address, principal: int, n: u32, interval: nat)
    requires BooksSound(b)
    ensures L.Originate(b, env, g, h, p, principal, n, interval).Ok?
        <==> Originable(b, env, g, h, p, principal, n, interval)
    ensures Originable(b, env, g, h, p, principal, n, interval) ==>
              var loan := L.NewLoan(b.ledger, env.now, g, h, p, principal, n, interval);
              var (next, id) := L.Originate(b, env, g, h, p, principal, n, interval).value;
              && BooksSound(next) && MoneySound(loan, b.ledger.config)
              && id == loan.id && next.ledger == L.AddLoan(b.ledger, loan)
              && next.custody.balances == b.custody.balances
              && OnlyPosition(b.custody, next.custody, g, V.VaultOf(b.custody.vault, g).collateralBalance,
                              V.VaultOf(b.custody.vault, g).lockedAmount + loan.collateralLocked)
  {
    if g in env.auth && principal > 0 && L.ValidSchedule(n, interval) {
      var s := b.ledger;
      var loan := L.NewLoan(s, env.now, g, h, p, principal, n, interval);
      LockIff(b.custody, env.CalledBy(s.self), s.self, g, loan.collateralLocked);
      if Originable(b, env, g, h, p, principal, n, interval) {
        RequiredLtvInRange(s, h);
        NewLoanSound(loan, s.config);
        AddLoanKeepsLedger(s, loan);
        var next := L.Originate(b, env, g, h, p, principal, n, interval).value.0;
        AddLoanKeepsBooks(b, loan, next.custody, V.VaultOf(b.custody.vault, g).collateralBalance);
      }
    }
  }

  /** The loan's own side of it: open, owed at least that much, and every intermediate fits. */
  ghost predicate Repayable(loan: Loan, cfg: Config, amount: int) {
    Open(loan) && 0 < amount <= Outstanding(loan) && FitsAt(loan, cfg, loan.totalRepaidUsd + amount)
  }

  /** Exactly when an attestation goes through: nothing in the vault can refuse it. */
  ghost predicate Attestable(b: L.Books, env: Env, p: Address, v: Address, id: nat, amount: int) {
    && p in env.auth && v in env.auth && p != v
    && L.AuthorizedPartner(b.ledger, p) && L.AuthorizedVerifier(b.ledger, v)
    && id in b.ledger.loans && p == b.ledger.loans[id].partner
    && Repayable(b.ledger.loans[id], b.ledger.config, amount)
  }

  lemma LockedCovers(b: L.Books, id: nat)
    requires BooksSound(b) && id in b.ledger.loans
    ensures Remaining(b.ledger.loans[id]) <= V.VaultOf(b.custody.vault, b.ledger.loans[id].guarantor).lockedAmount
  {
    forall i | i in b.ledger.loans ensures Remaining(b.ledger.loans[i]) >= 0 {
      RemainingBounds(b.ledger.loans[i], b.ledger.config);
    }
    BackingCovers(b.ledger.loans, id, b.ledger.loans[id].guarantor, b.ledger.loanCount);
  }

  /** The vault never refuses the release a repayment asks for. */
  lemma AttestReleases(b: L.Books, env: Env, p: Address, v: Address, id: nat, amount: int)
    requires BooksSound(b) && Attestable(b, env, p, v, id, amount)
    ensures var loan := b.ledger.loans[id];
            var (repaid, released) := Repay(loan, b.ledger.config, env.now, amount);
            && MoneySound(repaid, b.ledger.config)
            && 0 <= released == repaid.collateralReleased - loan.collateralReleased
            && (released > 0 ==>
                  var self := b.ledger.self;
                  V.ReleaseCollateral(b.custody, env.CalledBy(self), self, loan.guarantor, released).Ok?)
  {
    var s := b.ledger;
    var loan := s.loans[id];
    var (repaid, released) := Repay(loan, s.config, env.now, amount);
    RepayKeepsMoney(loan, s.config, env.now, amount);
    RemainingBounds(repaid, s.config);
    LockedCovers(b, id);
    ReleaseIff(b.custody, env.CalledBy(s.self), s.self, loan.guarantor, released);
  }

  /** An attestation succeeds exactly when it is attestable. */
  lemma AttestIff(b: L.Books, env: Env, p: Address, v: Address, id: nat, amount: int)
    requires BooksSound(b)
    ensures L.AttestRepayment(b, env, p, v, id, amount).Ok? <==> Attestable(b, env, p, v, id, amount)
  {
    if Attestable(b, env, p, v, id, amount) {
      AttestReleases(b, env, p, v, id, amount);
    }
  }

  /** The custody once `amount` of `g`'s lock is undone: no tokens and no other position move. */
  ghost predicate Unlocks(before: V.Custody, after: V.Custody, g: Address, amount: int) {
    var vault := V.VaultOf(before.vault, g);
    after.balances == before.balances
    && OnlyPosition(before, after, g, vault.collateralBalance, vault.lockedAmount - amount)
  }

  /** A guarantor with something locked has a stored position, so writing it back unchanged is no change. */
  lemma PositionStored(b: L.Books, id: nat)
    requires BooksSound(b) && id in b.ledger.loans && Open(b.ledger.loans[id])
    ensures b.ledger.loans[id].guarantor in b.custody.vault.vaults
    ensures var g := b.ledger.loans[id].guarantor;
            var vault := V.VaultOf(b.custody.vault, g);
            OnlyPosition(b.custody, b.custody, g, vault.collateralBalance, vault.lockedAmount)
  {
    LockedCovers(b, id);
    RemainingBounds(b.ledger.loans[id], b.ledger.config);
    var g := b.ledger.loans[id].guarantor;
    var vaults := b.custody.vault.vaults;
    assert vaults[g := vaults[g]] == vaults;
  }

  lemma AttestUnlocks(b: L.Books, env: Env, p: Address, v: Address, id: nat, amount: int)
    requires BooksSound(b) && Attestable(b, env, p, v, id, amount)
    requires L.AttestRepayment(b, env, p, v, id, amount).Ok?
    ensures var loan := b.ledger.loans[id];
            var (repaid, released) := Repay(loan, b.ledger.config, env.now, amount);
            var (next, returned) := L.AttestRepayment(b, env, p, v, id, amount).value;
            && returned == released && next.ledger == Replace(b.ledger, repaid)
            && CustodySound(next.custody) && Unlocks(b.custody, next.custody, loan.guarantor, released)
  {
    var s := b.ledger;
    var loan := s.loans[id];
    var released := Repay(loan, s.config, env.now, amount).1;
    AttestReleases(b, env, p, v, id, amount);
    ReleaseIff(b.custody, env.CalledBy(s.self), s.self, loan.guarantor, released);
    PositionStored(b, id);
  }

  /** Rewriting an open loan's record and unlocking what the new record releases. */
  lemma UpdateKeepsSound(b: L.Books, loan: Loan, released: int, next: L.Books)
    requires BooksSound(b) && loan.id in b.ledger.loans && Open(b.ledger.loans[loan.id])
    requires var old' := b.ledger.loans[loan.id];
             && loan.guarantor == old'.guarantor && loan.beneficiary == old'.beneficiary
             && Remaining(loan) == Remaining(old') - released
    requires MoneySound(loan, b.ledger.config)
    requires next.ledger == Replace(b.ledger, loan)
    requires CustodySound(next.custody) && Unlocks(b.custody, next.custody, loan.guarantor, released)
    ensures BooksSound(next)
  {
    LoanUpdateKeepsBooks(b, loan, next.custody, V.VaultOf(b.custody.vault, loan.guarantor).collateralBalance);
    LoanUpdateKeepsLedger(b.ledger, loan);
  }

  /** The books with the repaid record and what it releases unlocked still agree. */
  lemma RepaidKeepsBooks(b: L.Books, id: nat, now: nat, amount: int, next: L.Books)
    requires BooksSound(b) && id in b.ledger.loans && Repayable(b.ledger.loans[id], b.ledger.config, amount)
    requires var loan := b.ledger.loans[id];
             var (repaid, released) := Repay(loan, b.ledger.config, now, amount);
             && next.ledger == Replace(b.ledger, repaid)
             && CustodySound(next.custody) && Unlocks(b.custody, next.custody, loan.guarantor, released)
    ensures BooksSound(next)
  {
    var loan := b.ledger.loans[id];
    var (repaid, released) := Repay(loan, b.ledger.config, now, amount);
    RepayKeepsMoney(loan, b.ledger.config, now, amount);
    UpdateKeepsSound(b, repaid, released, next);
  }

  /** An attestation applies `Repay` to the loan, and unlocks in the vault what `Repay` says is
      released. */
  lemma AttestEffect(b: L.Books, env: Env, p: Address, v: Address, id: nat, amount: int)
    requires BooksSound(b) && Attestable(b, env, p, v, id, amount)
    ensures L.AttestRepayment(b, env, p, v, id, amount).Ok?
    ensures var loan := b.ledger.loans[id];
            var (repaid, released) := Repay(loan, b.ledger.config, env.now, amount);
            var (next, returned) := L.AttestRepayment(b, env, p, v, id, amount).value;
            && BooksSound(next) && returned == released
            && next.ledger == Replace(b.ledger, repaid)
            && Unlocks(b.custody, next.custody, loan.guarantor, released)
  {
    AttestReleases(b, env, p, v, id, amount);
    AttestUnlocks(b, env, p, v, id, amount);
    RepaidKeepsBooks(b, id, env.now, amount, L.AttestRepayment(b, env, p, v, id, amount).value.0);
  }
}
