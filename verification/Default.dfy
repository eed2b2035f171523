/** A default is always earned, and partial payments can never put it off for good. */
module Default {
  import opened Types
  import opened LoanModel
  import opened Invariants
  import opened Protocol
  import opened Steps
  import opened Guarantees
  import Cranks

  // ----- Default is earned -----

  /** In Grace with the given deadline, and with too little repaid to be current. */
  ghost predicate BehindInGrace(w: World, id: nat, deadline: nat) {
    && HasLoan(w, id) && LoanIn(w, id).status.Grace?
    && LoanIn(w, id).graceExpiresAt == deadline
    && w.now > DueDate(LoanIn(w, id))
  }

  ghost predicate OpensGrace(before: World, after: World, id: nat, grace: nat) {
    && HasLoan(before, id) && LoanIn(before, id).status.Active?
    && after.now > DueDate(LoanIn(before, id))
    && BehindInGrace(after, id, after.now + grace)
  }

  /** A loan in Grace after a transaction was in Grace before it under the same deadline,
      or was Active, past its due date, and gets the full grace period from now. */
  ghost predicate GraceMove(before: World, after: World, id: nat, grace: nat) {
    HasLoan(after, id) && LoanIn(after, id).status.Grace? ==>
      && HasLoan(before, id)
      && BehindInGrace(after, id, LoanIn(after, id).graceExpiresAt)
      && (OpensGrace(before, after, id, grace)
          || (LoanIn(before, id).status.Grace?
              && LoanIn(after, id).graceExpiresAt == LoanIn(before, id).graceExpiresAt))
  }

  /** Grace was opened between worlds i and i + 1 of the history, and in every world from
      there up to j the loan is behind, in Grace, under the deadline set there. */
  ghost predicate GraceRanFrom(h: seq<World>, id: nat, grace: nat, i: nat, j: nat)
    requires j < |h|
  {
    && i < j
    && OpensGrace(h[i], h[i + 1], id, grace)
    && forall k :: i < k <= j ==> BehindInGrace(h[k], id, h[i + 1].now + grace)
  }

  lemma StepMovesGrace(w: World, tx: Tx, id: nat)
    requires Inv(w)
    ensures GraceMove(w, Step(w, tx), id, w.books.ledger.config.gracePeriodSecs)
  {
    if HasLoan(Step(w, tx), id) && LoanIn(Step(w, tx), id).status.Grace? {
      StepKeepsInv(w, tx);
      if HasLoan(w, id) {
        StepOnLoan(w, tx, id);
      } else {
        StepNewLoan(w, tx, id);
      }
    }
  }

  /** A loan found Defaulted after a transaction, and not before it, had its grace run out. */
  ghost predicate DefaultMove(before: World, after: World, id: nat) {
    HasLoan(after, id) && LoanIn(after, id).status.Defaulted?
    && !(HasLoan(before, id) && LoanIn(before, id).status.Defaulted?) ==>
      HasLoan(before, id) && LoanIn(before, id).status.Grace? && after.now > LoanIn(before, id).graceExpiresAt
  }

  lemma StepMovesDefault(w: World, tx: Tx, id: nat)
    requires Inv(w)
    ensures DefaultMove(w, Step(w, tx), id)
  {
    if HasLoan(w, id) {
      StepOnLoan(w, tx, id);
    } else if HasLoan(Step(w, tx), id) {
      StepNewLoan(w, tx, id);
    }
  }

  lemma RunMoves(w0: World, txs: seq<Tx>, id: nat, k: nat)
    requires Genesis(w0) && k < |txs|
    ensures GraceMove(At(w0, txs, k), At(w0, txs, k + 1), id, w0.books.ledger.config.gracePeriodSecs)
    ensures DefaultMove(At(w0, txs, k), At(w0, txs, k + 1), id)
  {
    AtNext(w0, txs, k);
    Reachable(w0, txs[..k]);
    StepMovesGrace(At(w0, txs, k), txs[k], id);
    StepMovesDefault(At(w0, txs, k), txs[k], id);
  }

  lemma {:induction false} GraceHasOrigin(h: seq<World>, id: nat, grace: nat, j: nat)
    requires j < |h| && !HasLoan(h[0], id)
    requires forall k: nat :: k < j ==> GraceMove(h[k], h[k + 1], id, grace)
    requires HasLoan(h[j], id) && LoanIn(h[j], id).status.Grace?
    ensures exists i: nat :: GraceRanFrom(h, id, grace, i, j)
  {
    assert j > 0;
    assert GraceMove(h[j - 1], h[j - 1 + 1], id, grace);
    if OpensGrace(h[j - 1], h[j], id, grace) {
      assert GraceRanFrom(h, id, grace, j - 1, j);
    } else {
      GraceHasOrigin(h, id, grace, j - 1);
      var i: nat :| GraceRanFrom(h, id, grace, i, j - 1);
      assert BehindInGrace(h[j - 1], id, h[i + 1].now + grace);
      assert GraceRanFrom(h, id, grace, i, j);
    }
  }

  /** A loan that transaction j defaults was put into Grace by an earlier transaction i,
      past its due date; more than the grace period went by in between; and at no moment
      from i to j, whatever was repaid meanwhile, was it current. */
  lemma DefaultIsEarned(w0: World, txs: seq<Tx>, id: nat, j: nat)
    requires Genesis(w0) && j < |txs|
    requires var h := History(w0, txs);
             HasLoan(h[j + 1], id) && LoanIn(h[j + 1], id).status.Defaulted?
             && !(HasLoan(h[j], id) && LoanIn(h[j], id).status.Defaulted?)
    ensures var h, grace := History(w0, txs), w0.books.ledger.config.gracePeriodSecs;
            exists i: nat :: GraceRanFrom(h, id, grace, i, j) && h[j + 1].now > h[i + 1].now + grace
  {
    var h, grace := History(w0, txs), w0.books.ledger.config.gracePeriodSecs;
    forall k: nat | k < |txs|
      ensures GraceMove(h[k], h[k + 1], id, grace) && DefaultMove(h[k], h[k + 1], id)
    {
      RunMoves(w0, txs, id, k);
    }
    assert DefaultMove(h[j], h[j + 1], id);
    assert !HasLoan(h[0], id) by { AtEnds(w0, txs); }
    GraceHasOrigin(h, id, grace, j);
    var i: nat :| GraceRanFrom(h, id, grace, i, j);
    assert BehindInGrace(h[j], id, h[i + 1].now + grace);
  }

  lemma BehindByMoney(loan: Loan, cfg: Config, now: nat)
    requires MoneySound(loan, cfg) && ClockSound(loan, cfg, now) && loan.status.Grace?
    ensures now > DueDate(loan)
  {
  }

  /** A loan in Grace is always behind: past the first installment its money does not cover. */
  lemma GraceMeansBehind(w0: World, txs: seq<Tx>, id: nat)
    requires Genesis(w0)
    requires HasLoan(Run(w0, txs), id) && LoanIn(Run(w0, txs), id).status.Grace?
    ensures Run(w0, txs).now > DueDate(LoanIn(Run(w0, txs), id))
  {
    Reachable(w0, txs);
    BehindByMoney(LoanIn(Run(w0, txs), id), w0.books.ledger.config, Run(w0, txs).now);
  }

  lemma GraceAfter(loan: Loan, cfg: Config, was: nat, now: nat, event: Event)
    requires MoneySound(loan, cfg) && ClockSound(loan, cfg, was) && loan.status.Grace? && was <= now
    requires Allowed(loan, now, event)
    ensures var next := After(loan, cfg, now, event);
            Open(next) ==>
              && (next.status.Active? <==> now <= DueDate(next))
              && next.graceExpiresAt == (if now <= DueDate(next) then 0 else loan.graceExpiresAt)
  {
    if event.Paid? {
      RepayKeepsMoney(loan, cfg, now, event.amount);
    }
  }

  /** What a transaction leaves of a loan in Grace: if it is still open, it is Active exactly
      when what has been repaid makes it current, and otherwise in Grace under the old deadline. */
  lemma GraceEndsOnlyWhenCurrent(w0: World, txs: seq<Tx>, tx: Tx, id: nat)
    requires Genesis(w0) && HasLoan(Run(w0, txs), id) && LoanIn(Run(w0, txs), id).status.Grace?
    ensures HasLoan(Step(Run(w0, txs), tx), id)
    ensures var loan, next := LoanIn(Run(w0, txs), id), LoanIn(Step(Run(w0, txs), tx), id);
            var current := Step(Run(w0, txs), tx).now <= DueDate(next);
            Open(next) ==>
              && (next.status.Active? <==> current)
              && next.graceExpiresAt == (if current then 0 else loan.graceExpiresAt)
  {
    var w := Run(w0, txs);
    Reachable(w0, txs);
    StepOnLoan(w, tx, id);
    GraceAfter(LoanIn(w, id), w.books.ledger.config, w.now, Step(w, tx).now, EventOn(w, tx, id));
  }

  // ----- Default cannot be put off -----

  /** Past maturity, out of Active, and under no deadline later than `deadline`. */
  ghost predicate RunningOut(w: World, id: nat, deadline: nat) {
    && HasLoan(w, id) && w.now > Maturity(LoanIn(w, id))
    && !LoanIn(w, id).status.Active?
    && (LoanIn(w, id).status.Grace? ==> LoanIn(w, id).graceExpiresAt <= deadline)
  }

  /** A payment makes a loan Active only by bringing it current, which it cannot be once matured. */
  lemma CurrentByMaturity(loan: Loan, cfg: Config, now: nat, amount: pos)
    requires MoneySound(loan, cfg) && Open(loan) && loan.totalRepaidUsd + amount <= loan.principalUsd
    ensures var next := Repay(loan, cfg, now, amount).0;
            now > Maturity(loan) && !loan.status.Active? ==>
              !next.status.Active? && (next.status.Grace? ==> next.graceExpiresAt == loan.graceExpiresAt)
  {
    RepayKeepsMoney(loan, cfg, now, amount);
    DueByMaturity(Repay(loan, cfg, now, amount).0, cfg);
  }

  /** After maturity no transaction takes a loan back to Active or moves its deadline. */
  lemma NoReturnAfterMaturity(w: World, tx: Tx, id: nat, deadline: nat)
    requires Inv(w) && RunningOut(w, id, deadline)
    ensures RunningOut(Step(w, tx), id, deadline)
  {
    StepOnLoan(w, tx, id);
    StepKeepsInv(w, tx);
    StepLater(w, tx, id);
    var loan, event := LoanIn(w, id), EventOn(w, tx, id);
    if event.Paid? {
      RepayKeepsMoney(loan, w.books.ledger.config, Step(w, tx).now, event.amount);
      CurrentByMaturity(loan, w.books.ledger.config, Step(w, tx).now, event.amount);
    }
  }

  lemma {:induction false} NoReturnOverRun(w: World, txs: seq<Tx>, id: nat, deadline: nat)
    requires Inv(w) && RunningOut(w, id, deadline)
    ensures RunningOut(Run(w, txs), id, deadline)
  {
    if txs != [] {
      NoReturnOverRun(w, txs[..|txs| - 1], id, deadline);
      RunKeepsInv(w, txs[..|txs| - 1]);
      NoReturnAfterMaturity(Run(w, txs[..|txs| - 1]), txs[|txs| - 1], id, deadline);
    }
  }

  lemma PokeHappens(w: World, tx: Tx, id: nat)
    requires Inv(w) && HasLoan(w, id) && tx.command == Poke(id)
    requires Overdue(LoanIn(w, id), w.now + tx.elapsed) ==>
               Cranks.DeadlineFits(w.books.ledger.config, w.now + tx.elapsed)
    ensures EventOn(w, tx, id) == PokeEvent(Arrival(w, tx), LoanIn(w, id))
  {
    var a := Arrival(w, tx);
    TimePasses(w, tx);
    Cranks.PokeEffect(a.engine, a.books, External(a, tx.signers), id);
  }

  lemma FirstPoke(w: World, tx: Tx, id: nat)
    requires Inv(w) && HasLoan(w, id) && !w.engine.paused && tx.command == Poke(id)
    requires w.now + tx.elapsed > Maturity(LoanIn(w, id))
    requires Cranks.DeadlineFits(w.books.ledger.config, w.now + tx.elapsed)
    ensures RunningOut(Step(w, tx), id, Step(w, tx).now + w.books.ledger.config.gracePeriodSecs)
  {
    StepOnLoan(w, tx, id);
    StepLater(w, tx, id);
    StepKeepsInv(w, tx);
    DueByMaturity(LoanIn(w, id), w.books.ledger.config);
    PokeHappens(w, tx, id);
  }

  lemma LastPoke(w: World, tx: Tx, id: nat, deadline: nat)
    requires Inv(w) && RunningOut(w, id, deadline) && !w.engine.paused && tx.command == Poke(id)
    requires w.now + tx.elapsed > deadline
    ensures HasLoan(Step(w, tx), id) && !Open(LoanIn(Step(w, tx), id))
  {
    StepOnLoan(w, tx, id);
    PokeHappens(w, tx, id);
  }

  /** Poke a matured loan at t, and again later than t plus the grace period, while ledger
      time still fits u64: whatever happens in between, and whoever pokes, the loan ends up
      Repaid or Defaulted. */
  lemma TwoPokesEndALoan(w0: World, before: seq<Tx>, first: Tx, between: seq<Tx>, second: Tx, id: nat)
    requires Genesis(w0)
    requires first.command == Poke(id) && second.command == Poke(id)
    requires var w := Run(w0, before);
             && HasLoan(w, id) && !w.engine.paused && w.now + first.elapsed > Maturity(LoanIn(w, id))
    requires var later := Run(Step(Run(w0, before), first), between);
             && !later.engine.paused
             && Run(w0, before).now + first.elapsed + w0.books.ledger.config.gracePeriodSecs
                < later.now + second.elapsed <= U64_MAX
    ensures var end := Step(Run(Step(Run(w0, before), first), between), second);
            HasLoan(end, id) && (LoanIn(end, id).status.Repaid? || LoanIn(end, id).status.Defaulted?)
  {
    var w := Run(w0, before);
    var flagged := Step(w, first);
    var later := Run(flagged, between);
    var deadline := flagged.now + w0.books.ledger.config.gracePeriodSecs;
    Reachable(w0, before);
    FirstPoke(w, first, id);
    StepKeepsInv(w, first);
    NoReturnOverRun(flagged, between, id, deadline);
    RunKeepsInv(flagged, between);
    LastPoke(later, second, id, deadline);
  }
}
