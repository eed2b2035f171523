/** Runs from deployment, step by step. The first shows that the guarantees are about states
    that do come about; the others show inputs on which the code falls short of full cover, of
    a usable grace period, and of accepting every payment. */
module Scenario {
  import opened Types
  import opened LoanModel
  import opened Invariants
  import opened Protocol
  import opened Steps
  import opened Default
  import opened Overflow
  import opened Rules
  import opened LedgerRules
  import opened EngineRules
  import Cranks
  import Solvency
  import V = VaultModel
  import L = LedgerModel
  import E = EngineModel

  const GUARANTOR: Address := Address(6)
  const PARTNER: Address := Address(7)
  const VERIFIER: Address := Address(8)
  const SETTLEMENT: Address := Address(5)

  const STANDARD: Config := ConfigRecord(15_000, 11_000, 500, 1_209_600)
  const BELOW_COVER: Config := ConfigRecord(9_000, 9_000, 500, 1_209_600)
  const ENDLESS_GRACE: Config := ConfigRecord(15_000, 11_000, 500, U64_MAX)

  ghost function Start(config: Config, funds: pos): World {
    World(
      0,
      E.EngineState(Address(3), Address(4), false),
      L.Books(
        L.LedgerState(Address(2), Address(4), None, Some(Address(3)), config, 0, map[], map[],
                      map[PARTNER := true], map[VERIFIER := true], map[]),
        V.Custody(
          V.VaultState(Address(1), Address(4), SETTLEMENT, 172_800, Some(Address(2)), Some(Address(3)), None, map[]),
          map[GUARANTOR := funds])))
  }

  ghost function FundTx(funds: pos): Tx {
    Tx(0, {GUARANTOR}, Deposit(GUARANTOR, funds))
  }

  ghost function OpenTx(principal: pos, n: u32, interval: nat): Tx {
    Tx(0, {GUARANTOR}, Originate(GUARANTOR, Handle(0), PARTNER, principal, n, interval))
  }

  ghost function PayTx(amount: pos): Tx {
    Tx(0, {PARTNER, VERIFIER}, AttestRepayment(PARTNER, VERIFIER, 1, amount))
  }

  const LATE := Tx(86_401, {}, Poke(1))
  const OVER := Tx(1_209_601, {}, Poke(1))

  lemma StartIsGenesis(config: Config, funds: pos)
    ensures Genesis(Start(config, funds))
  {
    FreshIsGenesis(Start(config, funds));
  }

  // ----- The steps the runs share -----

  /** The terms the loan is opened on: at the base rate, for exactly the collateral there is. */
  ghost predicate Locks(config: Config, principal: pos, locked: pos) {
    && locked == principal * config.baseLtvBps / BPS
    && I128(principal * config.baseLtvBps) && I128(locked)
  }

  lemma Funded(config: Config, funds: pos)
    requires I128(funds)
    ensures var start, w := Start(config, funds), Step(Start(config, funds), FundTx(funds));
            && Inv(w) && w.now == 0 && w.engine == start.engine && w.books.ledger == start.books.ledger
            && w.books.custody.vault.self == Address(1) && V.Available(w.books.custody.vault, GUARANTOR) == funds
  {
    var start := Start(config, funds);
    StartIsGenesis(config, funds);
    GenesisSound(start);
    StepKeepsInv(start, FundTx(funds));
    Solvency.DepositIff(start.books.custody, External(start, {GUARANTOR}), GUARANTOR, funds);
  }

  /** Loan 1 as opened, nothing repaid, in a world where nothing else has happened. */
  ghost predicate JustOpened(w: World, config: Config, principal: pos, locked: pos, n: u32, interval: nat) {
    && Inv(w) && w.now == 0 && !w.engine.paused && w.books.ledger.config == config
    && HasLoan(w, 1)
    && w.books.ledger.partners == map[PARTNER := true] && w.books.ledger.verifiers == map[VERIFIER := true]
    && w.books.custody.vault.self == Address(1) && w.books.ledger.self == Address(2) && w.engine.self == Address(3)
    && var loan := LoanIn(w, 1);
       && loan.status.Active? && loan.guarantor == GUARANTOR && loan.partner == PARTNER
       && loan.installmentCount == n && loan.intervalSecs == interval
       && loan.originatedAt == 0 && loan.nextDue == interval
       && loan.principalUsd == principal && loan.totalRepaidUsd == 0
       && loan.collateralLocked == locked && loan.collateralReleased == 0
  }

  lemma BaseRate(s: L.LedgerState, beneficiary: Handle)
    requires L.ReputationOf(s, beneficiary) == 0
    ensures L.RequiredLtvBps(s, beneficiary) == s.config.baseLtvBps
  {
    RequiredLtvInRange(s, beneficiary);
    assert (s.config.baseLtvBps - s.config.minLtvBps) * 0 == 0;
  }

  lemma Opened(w: World, config: Config, principal: pos, locked: pos, n: u32, interval: nat)
    requires Locks(config, principal, locked) && Terms(n, interval)
    requires Inv(w) && w.now == 0
    requires w.books.custody.vault.self == Address(1) && V.Available(w.books.custody.vault, GUARANTOR) == locked
    requires w.engine == Start(config, locked).engine && w.books.ledger == Start(config, locked).books.ledger
    ensures JustOpened(Step(w, OpenTx(principal, n, interval)), config, principal, locked, n, interval)
  {
    StepKeepsInv(w, OpenTx(principal, n, interval));
    BaseRate(w.books.ledger, Handle(0));
    OriginateIff(w.books, External(w, {GUARANTOR}), GUARANTOR, Handle(0), PARTNER, principal, n, interval);
  }

  ghost function Opening(principal: pos, locked: pos, n: u32, interval: nat): seq<Tx> {
    [FundTx(locked)] + [OpenTx(principal, n, interval)]
  }

  lemma OpeningOpens(config: Config, principal: pos, locked: pos, n: u32, interval: nat)
    requires Locks(config, principal, locked) && Terms(n, interval)
    ensures Genesis(Start(config, locked))
    ensures JustOpened(Run(Start(config, locked), Opening(principal, locked, n, interval)),
                       config, principal, locked, n, interval)
  {
    var start := Start(config, locked);
    StartIsGenesis(config, locked);
    Funded(config, locked);
    RunSnoc(start, [], FundTx(locked));
    assert [] + [FundTx(locked)] == [FundTx(locked)];
    RunSnoc(start, [FundTx(locked)], OpenTx(principal, n, interval));
    Opened(Step(start, FundTx(locked)), config, principal, locked, n, interval);
  }

  lemma LoanFallsLate(w: World, config: Config, principal: pos, locked: pos)
    requires JustOpened(w, config, principal, locked, 1, 86_400) && config.gracePeriodSecs == 1_209_600
    ensures var next := Step(w, LATE);
            && Inv(next) && next.now == 86_401 && !next.engine.paused && HasLoan(next, 1)
            && next.books.ledger.config == config
            && LoanIn(next, 1) == LoanIn(w, 1).(status := Grace, graceExpiresAt := 1_296_001)
  {
    StepKeepsInv(w, LATE);
    StepOnLoan(w, LATE, 1);
    PokeHappens(w, LATE, 1);
    PokeKeepsEngine(w, LATE);
  }

  lemma LoanDefaults(w: World)
    requires Inv(w) && w.now == 86_401 && !w.engine.paused
    requires HasLoan(w, 1) && LoanIn(w, 1).status.Grace? && LoanIn(w, 1).graceExpiresAt == 1_296_001
    ensures EventOn(w, OVER, 1).Liquidated?
    ensures HasLoan(Step(w, OVER), 1) && LoanIn(Step(w, OVER), 1).status.Defaulted?
  {
    StepOnLoan(w, OVER, 1);
    PokeHappens(w, OVER, 1);
  }

  // ----- A default -----

  /** A loan is opened, falls late, sits out its grace and defaults. */
  lemma ALoanCanDefault()
    ensures var start, opening := Start(STANDARD, 1500), Opening(1000, 1500, 1, 86_400);
            && Genesis(start)
            && var active, late, over := Run(start, opening), Run(start, opening + [LATE]),
                                         Run(start, opening + [LATE] + [OVER]);
               && HasLoan(active, 1) && LoanIn(active, 1).status.Active?
               && HasLoan(late, 1) && LoanIn(late, 1).status.Grace?
               && HasLoan(over, 1) && LoanIn(over, 1).status.Defaulted?
  {
    var start, opening := Start(STANDARD, 1500), Opening(1000, 1500, 1, 86_400);
    OpeningOpens(STANDARD, 1000, 1500, 1, 86_400);
    RunSnoc(start, opening, LATE);
    LoanFallsLate(Run(start, opening), STANDARD, 1000, 1500);
    RunSnoc(start, opening + [LATE], OVER);
    LoanDefaults(Run(start, opening + [LATE]));
  }

  // ----- A default that is not covered -----

  /** At a rate of 90% a loan of 1000 locks 900. When it defaults unpaid the cap binds: the
      liquidation seizes 900 for an outstanding 1000. */
  lemma CoverCanFallShort()
    ensures var start, opening := Start(BELOW_COVER, 900), Opening(1000, 900, 1, 86_400);
            && Genesis(start)
            && var late := Run(start, opening + [LATE]);
               && HasLoan(late, 1) && Open(LoanIn(late, 1))
               && Remaining(LoanIn(late, 1)) == 900 && Outstanding(LoanIn(late, 1)) == 1000
               && EventOn(late, OVER, 1).Liquidated? && E.Forfeited(LoanIn(late, 1)) == 900
  {
    var start, opening := Start(BELOW_COVER, 900), Opening(1000, 900, 1, 86_400);
    OpeningOpens(BELOW_COVER, 1000, 900, 1, 86_400);
    RunSnoc(start, opening, LATE);
    LoanFallsLate(Run(start, opening), BELOW_COVER, 1000, 900);
    LoanDefaults(Run(start, opening + [LATE]));
  }

  // ----- A grace period that never starts -----

  lemma CrankOverflows(w: World, tx: Tx)
    requires Inv(w) && !w.engine.paused && (tx.command.Poke? || tx.command.FlagOverdue?)
    requires HasLoan(w, tx.command.loanId) && Overdue(LoanIn(w, tx.command.loanId), w.now + tx.elapsed)
    requires !Cranks.DeadlineFits(w.books.ledger.config, w.now + tx.elapsed)
    ensures Outcome(w, tx) == Err(Overflow)
  {
    var a := Arrival(w, tx);
    TimePasses(w, tx);
    Cranks.PokeOverflows(a.engine, a.books, External(a, tx.signers), tx.command.loanId);
  }

  /** Under a grace period of 2^64 - 1 seconds, which the constructor accepts, an overdue loan
      can be neither poked nor flagged: its deadline does not fit ledger time. */
  lemma GraceCanOverflow(elapsed: nat, signers: set<Address>)
    requires elapsed > 86_400
    ensures var start, opening := Start(ENDLESS_GRACE, 1500), Opening(1000, 1500, 1, 86_400);
            && Genesis(start)
            && var w := Run(start, opening);
               && HasLoan(w, 1) && Overdue(LoanIn(w, 1), w.now + elapsed) && !w.engine.paused
               && Outcome(w, Tx(elapsed, signers, Poke(1))) == Err(Overflow)
               && Outcome(w, Tx(elapsed, signers, FlagOverdue(1))) == Err(Overflow)
  {
    OpeningOpens(ENDLESS_GRACE, 1000, 1500, 1, 86_400);
    var w := Run(Start(ENDLESS_GRACE, 1500), Opening(1000, 1500, 1, 86_400));
    CrankOverflows(w, Tx(elapsed, signers, Poke(1)));
    CrankOverflows(w, Tx(elapsed, signers, FlagOverdue(1)));
  }

  // ----- A payment that does not go through -----

  const LARGE: pos := 1_000_000_000_000_000_000_000
  const LARGE_LOCK: pos := 1_500_000_000_000_000_000_000

  lemma TxOutcome(w: World, amount: pos)
    ensures var attested := L.AttestRepayment(w.books, External(w, {PARTNER, VERIFIER}), PARTNER, VERIFIER, 1, amount);
            && (attested.Ok? ==> Succeeds(w, PayTx(amount)))
            && (attested.Err? ==> Outcome(w, PayTx(amount)) == Err(attested.error))
  {
  }

  /** A loan of 10^21 can be opened at 150%, and repaid at once, but half of it cannot be
      attested first: the product behind the release curve does not fit. */
  lemma HalfCanOverflow()
    ensures var start, opening := Start(STANDARD, LARGE_LOCK), Opening(LARGE, LARGE_LOCK, 1, 86_400);
            && Genesis(start)
            && var w := Run(start, opening);
               && HasLoan(w, 1)
               && Outcome(w, PayTx(LARGE / 2)) == Err(Overflow)
               && Succeeds(w, PayTx(LARGE))
  {
    OpeningOpens(STANDARD, LARGE, LARGE_LOCK, 1, 86_400);
    var w := Run(Start(STANDARD, LARGE_LOCK), Opening(LARGE, LARGE_LOCK, 1, 86_400));
    LargeLoanOverflows(LoanIn(w, 1), STANDARD);
    var env := External(w, {PARTNER, VERIFIER});
    AttestIff(w.books, env, PARTNER, VERIFIER, 1, LARGE);
    AttestOverflows(w.books, env, PARTNER, VERIFIER, 1, LARGE / 2);
    TxOutcome(w, LARGE);
    TxOutcome(w, LARGE / 2);
  }

  // ----- An uneven loan, part repaid and defaulted -----

  const MONTH := 2_592_000
  const FLAG61 := Tx(5_270_400, {}, FlagOverdue(1))
  const CLOSE80 := Tx(1_641_600, {}, Liquidate(1))

  ghost function Uneven(): World {
    Run(Start(STANDARD, 499), Opening(333, 499, 3, MONTH))
  }

  /** 333 over three months at 150% locks 499. Unpaid, it can be poked into grace on day 31. */
  lemma UnevenFallsLate()
    ensures JustOpened(Uneven(), STANDARD, 333, 499, 3, MONTH) && Reached(Uneven())
    ensures var next := Step(Uneven(), Tx(31 * 86_400, {}, Poke(1)));
            HasLoan(next, 1) && LoanIn(next, 1).status == Grace && LoanIn(next, 1).graceExpiresAt == 3_888_000
  {
    var tx := Tx(31 * 86_400, {}, Poke(1));
    OpeningOpens(STANDARD, 333, 499, 3, MONTH);
    RunReaches(Start(STANDARD, 499), Opening(333, 499, 3, MONTH));
    StepOnLoan(Uneven(), tx, 1);
    PokeHappens(Uneven(), tx, 1);
  }

  /** A third of it repaid: 158 released, and nothing due before day 60. */
  ghost predicate ThirdRepaid(w: World) {
    && Inv(w) && w.now == 0 && !w.engine.paused && w.books.ledger.config == STANDARD
    && HasLoan(w, 1) && LoanIn(w, 1).status == Active && LoanIn(w, 1).nextDue == 5_184_000
    && LoanIn(w, 1).principalUsd == 333 && LoanIn(w, 1).totalRepaidUsd == 111
    && LoanIn(w, 1).collateralLocked == 499 && LoanIn(w, 1).collateralReleased == 158
  }

  lemma ThirdInNumbers(loan: Loan, next: Loan)
    requires loan.principalUsd == 333 && loan.installmentCount == 3 && loan.intervalSecs == MONTH
    requires loan.collateralLocked == 499 && loan.totalRepaidUsd == 0
    requires loan.originatedAt == 0 && loan.status == Active
    requires RepaidBy(loan, next, 500, 0, 111)
    ensures next.collateralReleased == 158 && next.nextDue == 5_184_000
    ensures next == loan.(totalRepaidUsd := 111, installmentsPaid := 1, collateralReleased := 158,
                          nextDue := 5_184_000, graceExpiresAt := 0)
  {
  }

  lemma CanAttestThird(w: World)
    requires JustOpened(w, STANDARD, 333, 499, 3, MONTH)
    ensures CanAttest(w, {PARTNER, VERIFIER}, PARTNER, VERIFIER, 1, 111)
  {
  }

  lemma PaidThird(w: World)
    requires JustOpened(w, STANDARD, 333, 499, 3, MONTH) && Reached(w)
    ensures ThirdRepaid(Step(w, PayTx(111))) && Reached(Step(w, PayTx(111)))
  {
    StepKeepsInv(w, PayTx(111));
    StepReaches(w, PayTx(111));
    CanAttestThird(w);
    AttestationRule(w, {PARTNER, VERIFIER}, PARTNER, VERIFIER, 1, 111);
    AttestationEffect(w, {PARTNER, VERIFIER}, PARTNER, VERIFIER, 1, 111);
    ThirdInNumbers(LoanIn(w, 1), LoanIn(Step(w, PayTx(111)), 1));
  }

  /** Flagged on day 61. */
  ghost predicate ThirdFlagged(w: World) {
    && w.now == 5_270_400 && !w.engine.paused
    && HasLoan(w, 1) && LoanIn(w, 1).status == Grace && LoanIn(w, 1).graceExpiresAt == 6_480_000
    && LoanIn(w, 1).principalUsd == 333 && LoanIn(w, 1).totalRepaidUsd == 111
    && LoanIn(w, 1).collateralLocked == 499 && LoanIn(w, 1).collateralReleased == 158
  }

  lemma FlaggedThird(w: World)
    requires ThirdRepaid(w) && Reached(w)
    ensures ThirdFlagged(Step(w, FLAG61)) && Reached(Step(w, FLAG61))
  {
    StepReaches(w, FLAG61);
    ArrivalReaches(w, FLAG61);
    FlagRule(Arrival(w, FLAG61), {}, 1);
    LateIsOverdue(LoanIn(w, 1), STANDARD, 5_270_400);
  }

  lemma ClosedThird(w: World)
    requires ThirdFlagged(w) && Reached(w)
    ensures Succeeds(w, CLOSE80) && Defaults(Arrival(w, CLOSE80), Step(w, CLOSE80), 1)
    ensures Share(LoanIn(w, 1)) == 222
  {
    ArrivalReaches(w, CLOSE80);
    LiquidateRule(Arrival(w, CLOSE80), {}, 1);
  }

  /** Attesting 111 of the 333 releases 158 of the 499. Late again on day 61 and out of grace by
      day 80, the loan defaults: 222 is forfeited, and the other 119 come free. */
  lemma UnevenRunsItsCourse()
    ensures var paid := Step(Uneven(), PayTx(111));
            var flagged := Step(paid, FLAG61);
            && ThirdRepaid(paid) && ThirdFlagged(flagged)
            && Succeeds(flagged, CLOSE80) && Defaults(Arrival(flagged, CLOSE80), Step(flagged, CLOSE80), 1)
            && Share(LoanIn(flagged, 1)) == 222
            && LoanIn(flagged, 1).collateralLocked - LoanIn(flagged, 1).collateralReleased - 222 == 119
  {
    UnevenFallsLate();
    PaidThird(Uneven());
    FlaggedThird(Step(Uneven(), PayTx(111)));
    ClosedThird(Step(Step(Uneven(), PayTx(111)), FLAG61));
  }
}
