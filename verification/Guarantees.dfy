/** What every run from deployment guarantees: the two contracts' books agree, the vault
    is solvent, the index is right, every open loan is on its curve and schedule, and the
    cranks work whenever they are due. */
module Guarantees {
  import opened Types
  import opened LoanModel
  import opened TokenLedger
  import opened Solvency
  import opened Invariants
  import opened Protocol
  import opened Steps
  import opened Rules
  import opened LedgerRules
  import opened EngineRules
  import Curve
  import Schedule
  import IntDivision
  import V = VaultModel
  import L = LedgerModel
  import E = EngineModel

  // ----- The two books -----

  /** The vault's lock on a guarantor is, at all times, exactly the collateral the ledger
      still holds over all of that guarantor's loans, however many run at once. */
  lemma TwoBooksAgree(w0: World, txs: seq<Tx>, g: Address)
    requires Genesis(w0)
    ensures var b := Run(w0, txs).books;
            V.VaultOf(b.custody.vault, g).lockedAmount == Backing(b.ledger.loans, g, b.ledger.loanCount)
  {
    Reachable(w0, txs);
  }

  /** The vault holds the tokens behind every position, whoever else sends or receives
      tokens and wherever forfeitures go, and positions stay within their bounds. */
  lemma AlwaysSolvent(w0: World, txs: seq<Tx>, g: Address)
    requires Genesis(w0)
    ensures var c := Run(w0, txs).books.custody;
            && BalanceOf(c.balances, c.vault.self) >= Total(c.vault.vaults)
            && 0 <= V.VaultOf(c.vault, g).lockedAmount <= V.VaultOf(c.vault, g).collateralBalance
            && V.VaultOf(c.vault, g).collateralBalance <= BalanceOf(c.balances, c.vault.self)
  {
    Reachable(w0, txs);
    PositionBacked(Run(w0, txs).books.custody, g);
  }

  /** A guarantor who signs can withdraw exactly the amounts up to what is unlocked. */
  lemma CanWithdrawExactlyAvailable(w0: World, txs: seq<Tx>, signers: set<Address>, g: Address, amount: int)
    requires Genesis(w0)
    requires var w := Run(w0, txs); g in External(w, signers).auth
    ensures var w := Run(w0, txs);
            var position := V.VaultOf(w.books.custody.vault, g);
            Execute(w, signers, Withdraw(g, amount)).Ok?
            <==> 0 < amount <= position.collateralBalance - position.lockedAmount
  {
    var w := Run(w0, txs);
    Reachable(w0, txs);
    WithdrawIff(w.books.custody, External(w, signers), g, amount);
  }

  /** A deposit that went through can be taken back at once: every position, every token
      balance and the ledger are as before it. */
  lemma DepositsAreReversible(w0: World, txs: seq<Tx>, signers: set<Address>, g: Address, amount: int)
    requires Genesis(w0) && Execute(Run(w0, txs), signers, Deposit(g, amount)).Ok?
    ensures var w := Run(w0, txs);
            var undone := Execute(Execute(w, signers, Deposit(g, amount)).value, signers, Withdraw(g, amount));
            && undone.Ok? && undone.value.books.ledger == w.books.ledger
            && (forall x :: V.VaultOf(undone.value.books.custody.vault, x) == V.VaultOf(w.books.custody.vault, x))
            && (forall x ::
                  BalanceOf(undone.value.books.custody.balances, x) == BalanceOf(w.books.custody.balances, x))
  {
    var w := Run(w0, txs);
    Reachable(w0, txs);
    DepositIff(w.books.custody, External(w, signers), g, amount);
    WithdrawUndoesDeposit(w.books.custody, External(w, signers), g, amount);
  }

  /** The index names id for a pair exactly when loan id is that pair's and is open, so a
      pair never has two open loans; and the stored loans are exactly ids 1 to the count. */
  lemma IndexIsExact(w0: World, txs: seq<Tx>, g: Address, h: Handle, id: nat, other: nat)
    requires Genesis(w0)
    ensures var s := Run(w0, txs).books.ledger;
            && (id in s.loans <==> 1 <= id <= s.loanCount)
            && (id in s.loans ==> s.loans[id].id == id)
            && ((g, h) in s.openLoans && s.openLoans[(g, h)] == id <==>
                id in s.loans && Open(s.loans[id]) && s.loans[id].guarantor == g && s.loans[id].beneficiary == h)
            && (Indexed(s, (g, h), id) && Indexed(s, (g, h), other) ==> id == other)
  {
    Reachable(w0, txs);
    var s := Run(w0, txs).books.ledger;
    assert Indexed(s, (g, h), id) <==> (g, h) in s.openLoans && s.openLoans[(g, h)] == id;
    assert Indexed(s, (g, h), other) <==> (g, h) in s.openLoans && s.openLoans[(g, h)] == other;
  }

  // ----- Curve and schedule of every stored loan -----

  /** While a loan lives, what is released is the exact share of its collateral rounded down
      once, below the proportional share, with one unit and the safety buffer still locked; a
      closed loan has nothing left locked. */
  ghost predicate OnCurve(loan: Loan, buffer: u32) {
    var left := loan.collateralLocked - loan.collateralReleased;
    if Live(loan) then
      && loan.collateralReleased * (loan.principalUsd * 10_000)
         <= loan.collateralLocked * loan.totalRepaidUsd * (10_000 - buffer)
         < (loan.collateralReleased + 1) * (loan.principalUsd * 10_000)
      && 0 <= loan.collateralReleased <= loan.collateralLocked * loan.totalRepaidUsd / loan.principalUsd
      && left >= 1 && left * 10_000 >= loan.collateralLocked * buffer
    else left == 0
  }

  lemma SoundIsOnCurve(loan: Loan, cfg: Config)
    requires MoneySound(loan, cfg)
    ensures OnCurve(loan, cfg.safetyBufferBps)
  {
    if Live(loan) {
      Curve.NonNegative(loan.collateralLocked, loan.totalRepaidUsd, loan.principalUsd, cfg.safetyBufferBps);
      Curve.RoundedDownOnce(loan.collateralLocked, loan.totalRepaidUsd, loan.principalUsd, cfg.safetyBufferBps);
      Curve.AtMostProportional(loan.collateralLocked, loan.totalRepaidUsd, loan.principalUsd, cfg.safetyBufferBps);
      Curve.BufferWithheld(loan.collateralLocked, loan.totalRepaidUsd, loan.principalUsd, cfg.safetyBufferBps);
    }
  }

  /** Every stored loan is on its release curve after every run. */
  lemma OnTheCurve(w0: World, txs: seq<Tx>, id: nat)
    requires Genesis(w0) && HasLoan(Run(w0, txs), id)
    ensures OnCurve(LoanIn(Run(w0, txs), id), w0.books.ledger.config.safetyBufferBps)
  {
    Reachable(w0, txs);
    SoundIsOnCurve(LoanIn(Run(w0, txs), id), w0.books.ledger.config);
  }

  ghost function Maturity(loan: Loan): nat {
    loan.originatedAt + loan.installmentCount * loan.intervalSecs
  }

  lemma DueByMaturity(loan: Loan, cfg: Config)
    requires MoneySound(loan, cfg)
    ensures Open(loan) ==> loan.installmentsPaid < loan.installmentCount && loan.nextDue <= Maturity(loan)
  {
    Schedule.CoveredBounds(loan.totalRepaidUsd, loan.installmentCount, loan.principalUsd);
    if Open(loan) {
      IntDivision.MulMono(loan.installmentsPaid + 1, loan.installmentCount, loan.intervalSecs);
    }
  }

  /** Installment k counts as covered exactly when k/n of the principal is repaid, and the due
      date of a live loan is that of the first one not covered: never past the last, which
      falls within a year of origination. */
  ghost predicate Scheduled(loan: Loan, k: int) {
    && (loan.installmentsPaid >= k <==> loan.totalRepaidUsd * loan.installmentCount >= k * loan.principalUsd)
    && (Live(loan) ==>
          && loan.installmentsPaid < loan.installmentCount
          && loan.nextDue == loan.originatedAt + (loan.installmentsPaid + 1) * loan.intervalSecs
          && loan.nextDue <= loan.originatedAt + loan.installmentCount * loan.intervalSecs
                          <= loan.originatedAt + 31_536_000)
  }

  lemma SoundIsScheduled(loan: Loan, cfg: Config, k: int)
    requires MoneySound(loan, cfg)
    ensures Scheduled(loan, k)
  {
    Schedule.CoveredIff(loan.totalRepaidUsd, loan.installmentCount, loan.principalUsd, k);
    DueByMaturity(loan, cfg);
  }

  /** Every stored loan keeps to its schedule after every run. */
  lemma OnSchedule(w0: World, txs: seq<Tx>, id: nat, k: int)
    requires Genesis(w0) && HasLoan(Run(w0, txs), id)
    ensures Scheduled(LoanIn(Run(w0, txs), id), k)
  {
    Reachable(w0, txs);
    SoundIsScheduled(LoanIn(Run(w0, txs), id), w0.books.ledger.config, k);
  }

  lemma ForwardOnly(before: Loan, after: Loan, cfg: Config)
    requires MoneySound(before, cfg) && MoneySound(after, cfg) && SameTerms(before, after)
    requires before.totalRepaidUsd <= after.totalRepaidUsd
    ensures before.installmentsPaid <= after.installmentsPaid
    ensures Open(before) && Open(after) ==> before.nextDue <= after.nextDue
  {
    Schedule.CoveredMono(before.totalRepaidUsd, after.totalRepaidUsd, before.installmentCount, before.principalUsd);
    Schedule.DueMonotone(before.originatedAt, before.installmentsPaid, after.installmentsPaid, before.intervalSecs);
  }

  /** Along a run, covered installments and the due date of an open loan only move forward. */
  lemma DueNeverMovesBack(w0: World, first: seq<Tx>, second: seq<Tx>, id: nat)
    requires Genesis(w0) && id in Run(w0, first).books.ledger.loans
    ensures id in Run(w0, first + second).books.ledger.loans
    ensures var before := Run(w0, first).books.ledger.loans[id];
            var after := Run(w0, first + second).books.ledger.loans[id];
            && before.installmentsPaid <= after.installmentsPaid
            && (Open(before) && Open(after) ==> before.nextDue <= after.nextDue)
  {
    var w := Run(w0, first);
    Reachable(w0, first);
    Reachable(w0, first + second);
    RunConcat(w0, first, second);
    RunOnLoan(w, second, id);
    ForwardOnly(w.books.ledger.loans[id], Run(w, second).books.ledger.loans[id], w.books.ledger.config);
  }

  /** The share of the span a score takes off: none at 0, all of it at 100%, and never less
      for a higher score. */
  lemma ReductionGrows(span: nat, low: nat, high: nat)
    requires low <= high <= BPS
    ensures 0 <= span * low / BPS <= span * high / BPS <= span
    ensures low == 0 ==> span * low / BPS == 0
    ensures high == BPS ==> span * high / BPS == span
  {
    IntDivision.MulMono(0, low, span);
    IntDivision.FloorNonNeg(span * low, BPS);
    IntDivision.MulMono(low, high, span);
    IntDivision.FloorMono(span * low, span * high, BPS);
    Curve.ScaledBound(span, span, high);
    IntDivision.FloorMono(span * high, span * BPS, BPS);
  }

  ghost predicate RatesFollowScores(s: L.LedgerState, low: Handle, high: Handle) {
    && s.config.minLtvBps <= L.RequiredLtvBps(s, high) <= L.RequiredLtvBps(s, low) <= s.config.baseLtvBps
    && (L.ReputationOf(s, low) == 0 ==> L.RequiredLtvBps(s, low) == s.config.baseLtvBps)
    && (L.ReputationOf(s, high) == BPS ==> L.RequiredLtvBps(s, high) == s.config.minLtvBps)
  }

  lemma ScoresOrderRates(s: L.LedgerState, low: Handle, high: Handle)
    requires L.ReputationOf(s, low) <= L.ReputationOf(s, high) <= BPS
    ensures RatesFollowScores(s, low, high)
  {
    RequiredLtvInRange(s, low);
    RequiredLtvInRange(s, high);
    ReductionGrows(s.config.baseLtvBps - s.config.minLtvBps, L.ReputationOf(s, low), L.ReputationOf(s, high));
  }

  /** At any moment of a run a better reputation needs no more collateral: no reputation pays
      the base rate, a perfect one the floor, and a higher score in between never a higher rate. */
  lemma ReputationNeverCostsMore(w0: World, txs: seq<Tx>, low: Handle, high: Handle)
    requires Genesis(w0)
    requires L.ReputationOf(Run(w0, txs).books.ledger, low) <= L.ReputationOf(Run(w0, txs).books.ledger, high)
    ensures Run(w0, txs).books.ledger.config == w0.books.ledger.config
    ensures RatesFollowScores(Run(w0, txs).books.ledger, low, high)
  {
    Reachable(w0, txs);
    ScoresOrderRates(Run(w0, txs).books.ledger, low, high);
  }

  // ----- Full cover -----

  lemma LockedAtLeastPrincipalIff(loan: Loan, cfg: Config)
    requires TermsSound(loan, cfg)
    ensures loan.collateralLocked >= loan.principalUsd <==> loan.ltvBps >= BPS
  {
    IntDivision.FloorAtLeast(loan.principalUsd * loan.ltvBps, BPS, loan.principalUsd);
    if loan.ltvBps >= BPS {
      IntDivision.MulMono(BPS, loan.ltvBps, loan.principalUsd);
    } else {
      IntDivision.MulMono(loan.ltvBps + 1, BPS, loan.principalUsd);
    }
  }

  lemma CoveredLoan(loan: Loan, cfg: Config)
    requires MoneySound(loan, cfg) && Open(loan) && loan.ltvBps >= BPS
    ensures Remaining(loan) >= Outstanding(loan) > 0
    ensures E.Forfeited(loan) == Outstanding(loan)
  {
    LockedAtLeastPrincipalIff(loan, cfg);
    Curve.RemainingCoversOutstanding(loan.collateralLocked, loan.totalRepaidUsd, loan.principalUsd,
                                     cfg.safetyBufferBps);
  }

  /** A loan taken at 100% or more is covered for as long as it is open: what is locked is
      at least what is owed, whatever was rounded down on the way. */
  lemma FullyCovered(w0: World, txs: seq<Tx>, id: nat)
    requires Genesis(w0)
    requires HasLoan(Run(w0, txs), id) && Open(LoanIn(Run(w0, txs), id)) && LoanIn(Run(w0, txs), id).ltvBps >= BPS
    ensures Remaining(LoanIn(Run(w0, txs), id)) >= Outstanding(LoanIn(Run(w0, txs), id)) > 0
  {
    Reachable(w0, txs);
    CoveredLoan(LoanIn(Run(w0, txs), id), w0.books.ledger.config);
  }

  /** A configured floor of at least 100% makes every loan such a loan. */
  lemma FloorCoversEveryLoan(w0: World, txs: seq<Tx>, id: nat)
    requires Genesis(w0) && w0.books.ledger.config.minLtvBps >= BPS && HasLoan(Run(w0, txs), id)
    ensures LoanIn(Run(w0, txs), id).ltvBps >= BPS
  {
    Reachable(w0, txs);
  }

  ghost predicate CoveredIn(w: World, id: nat) {
    HasLoan(w, id) && Open(LoanIn(w, id)) ==> Remaining(LoanIn(w, id)) >= Outstanding(LoanIn(w, id))
  }

  lemma StaysCovered(w: World, later: seq<Tx>, id: nat)
    requires Inv(w) && HasLoan(w, id) && LoanIn(w, id).ltvBps >= BPS
    ensures CoveredIn(Run(w, later), id)
  {
    RunKeepsInv(w, later);
    RunOnLoan(w, later, id);
    if Open(LoanIn(Run(w, later), id)) {
      CoveredLoan(LoanIn(Run(w, later), id), w.books.ledger.config);
    }
  }

  /** Full cover takes exactly 100%: a loan just opened is covered through every run from
      there if and only if its rate is at least 100%. Below that it is not covered as it stands. */
  lemma CoverNeedsFullLtv(w0: World, before: seq<Tx>, tx: Tx, id: nat)
    requires Genesis(w0) && !HasLoan(Run(w0, before), id) && HasLoan(Step(Run(w0, before), tx), id)
    ensures var w := Step(Run(w0, before), tx);
            && (CoveredIn(w, id) <==> LoanIn(w, id).ltvBps >= BPS)
            && ((forall later: seq<Tx> :: CoveredIn(Run(w, later), id)) <==> LoanIn(w, id).ltvBps >= BPS)
  {
    var prior := Run(w0, before);
    var w := Step(prior, tx);
    Reachable(w0, before);
    StepKeepsInv(prior, tx);
    StepNewLoan(prior, tx, id);
    LockedAtLeastPrincipalIff(LoanIn(w, id), w.books.ledger.config);
    if LoanIn(w, id).ltvBps >= BPS {
      forall later: seq<Tx> ensures CoveredIn(Run(w, later), id) {
        StaysCovered(w, later, id);
      }
    } else {
      assert Run(w, []) == w;
      assert !CoveredIn(Run(w, []), id);
    }
  }

  /** Any transaction that liquidates a loan taken at 100% or more seizes exactly the outstanding
      principal: the cap never binds, and the guarantor gets the rest back. */
  lemma LiquidationSeizesExactlyOutstanding(w0: World, txs: seq<Tx>, tx: Tx, id: nat)
    requires Genesis(w0)
    requires var w := Run(w0, txs);
             HasLoan(w, id) && EventOn(w, tx, id).Liquidated? && LoanIn(w, id).ltvBps >= BPS
    ensures var loan := LoanIn(Run(w0, txs), id);
            var c, after := Run(w0, txs).books.custody, Step(Run(w0, txs), tx).books.custody;
            && V.VaultOf(after.vault, loan.guarantor).collateralBalance
               == V.VaultOf(c.vault, loan.guarantor).collateralBalance - Outstanding(loan)
            && V.Available(after.vault, loan.guarantor)
               == V.Available(c.vault, loan.guarantor) + Remaining(loan) - Outstanding(loan)
            && Move(c.balances, c.vault.self, c.vault.settlement, Outstanding(loan)) == Ok(after.balances)
  {
    var w := Run(w0, txs);
    Reachable(w0, txs);
    StepOnLoan(w, tx, id);
    StepLiquidates(w, tx, id);
    CoveredLoan(LoanIn(w, id), w.books.ledger.config);
  }

  // ----- The cranks -----

  /** After every run an unpaused poke on an Active loan leaves it in grace, until a full grace
      period from now, if and only if it is past its due date; and on a loan in grace it leaves
      it defaulted if and only if the deadline has passed. It aborts exactly where a loan is
      late and the new deadline does not fit 64 bits, and reports whether it changed the status. */
  lemma PokeNeverStuck(w0: World, txs: seq<Tx>, signers: set<Address>, id: nat)
    requires Genesis(w0) && !Run(w0, txs).engine.paused && HasLoan(Run(w0, txs), id)
    ensures var w, grace := Run(w0, txs), w0.books.ledger.config.gracePeriodSecs;
            var loan, poked := LoanIn(w, id), E.Poke(w.engine, w.books, External(w, signers), id);
            && (poked.Err? <==> Late(loan, w.now) && w.now + grace > 18_446_744_073_709_551_615)
            && (poked.Err? ==> poked == Err(Overflow))
            && (poked.Ok? ==>
                  var (next, moved) := poked.value;
                  && id in next.ledger.loans
                  && (moved <==> next.ledger.loans[id].status != loan.status)
                  && (!moved ==> next == w.books)
                  && (loan.status == Active ==>
                        (next.ledger.loans[id].status == Grace
                         && next.ledger.loans[id].graceExpiresAt == w.now + grace
                         <==> Late(loan, w.now)))
                  && (loan.status == Grace ==>
                        (next.ledger.loans[id].status == Defaulted <==> w.now > loan.graceExpiresAt)))
  {
    var w := Run(w0, txs);
    Reachable(w0, txs);
    PokeDoes(w, External(w, signers), id);
  }

  /** The other two cranks go through exactly when they are due: no shortfall of locks or
      tokens, no vault assertion and no refusal by the ledger can stop them. Flagging asks
      besides that the grace deadline fits ledger time. */
  lemma CranksSucceedWhenDue(w0: World, txs: seq<Tx>, signers: set<Address>, id: nat)
    requires Genesis(w0)
    ensures var w := Run(w0, txs);
            && (Execute(w, signers, FlagOverdue(id)).Ok? <==>
                  && !w.engine.paused && HasLoan(w, id) && Late(LoanIn(w, id), w.now)
                  && w.now + w0.books.ledger.config.gracePeriodSecs <= 18_446_744_073_709_551_615)
            && (Execute(w, signers, Liquidate(id)).Ok? <==>
                  && !w.engine.paused && HasLoan(w, id)
                  && LoanIn(w, id).status == Grace && w.now > LoanIn(w, id).graceExpiresAt)
  {
    var w := Run(w0, txs);
    Reachable(w0, txs);
    RunReaches(w0, txs);
    FlagRule(w, signers, id);
    LiquidateRule(w, signers, id);
  }

  /** An attestation or an origination is refused only by the ledger's own rules or a
      genuine lack of collateral. */
  lemma LedgerCallsSucceedWhenAllowed(w0: World, txs: seq<Tx>, signers: set<Address>, command: Command)
    requires Genesis(w0)
    ensures var w := Run(w0, txs);
            match command
            case AttestRepayment(p, v, id, amount) =>
              Execute(w, signers, command).Ok? <==> CanAttest(w, signers, p, v, id, amount)
            case Originate(g, h, p, principal, n, interval) =>
              Execute(w, signers, command).Ok? <==> CanOpen(w, signers, g, h, p, principal, n, interval)
            case _ => true
  {
    RunReaches(w0, txs);
    match command {
      case AttestRepayment(p, v, id, amount) => AttestationRule(Run(w0, txs), signers, p, v, id, amount);
      case Originate(g, h, p, principal, n, interval) =>
        OriginationRule(Run(w0, txs), signers, g, h, p, principal, n, interval);
      case _ =>
    }
  }
}
