/** The engine's cranks in plain numbers: in every reachable state, exactly when each one goes
    through, and the whole state it leaves in all three contracts. */
module EngineRules {
  import opened Types
  import opened LoanModel
  import opened Invariants
  import opened Protocol
  import opened Rules
  import opened Steps
  import Cranks
  import V = VaultModel
  import L = LedgerModel
  import E = EngineModel

  /** Active, and past the due date of the first installment the money repaid does not cover. */
  ghost predicate Late(loan: Loan, now: nat) {
    && loan.status == Active
    && now > loan.originatedAt
             + (loan.totalRepaidUsd * loan.installmentCount / loan.principalUsd + 1) * loan.intervalSecs
  }

  /** In grace, and past the deadline. */
  ghost predicate Expired(loan: Loan, now: nat) {
    loan.status == Grace && now > loan.graceExpiresAt
  }

  lemma LateIsOverdue(loan: Loan, cfg: Config, now: nat)
    requires MoneySound(loan, cfg)
    ensures Late(loan, now) <==> Overdue(loan, now)
  {
  }

  /** The loan is in grace until a grace period from now, and nothing else is written. */
  ghost predicate EntersGrace(w: World, next: World, id: nat)
    requires HasLoan(w, id)
  {
    var s := w.books.ledger;
    var late := s.loans[id].(status := Grace, graceExpiresAt := w.now + s.config.gracePeriodSecs);
    next == w.(books := w.books.(ledger := s.(loans := s.loans[id := late])))
  }

  /** What a liquidation takes: what is owed, or what is left of the collateral if that is less. */
  ghost function Share(loan: Loan): int {
    var owed, left := loan.principalUsd - loan.totalRepaidUsd, loan.collateralLocked - loan.collateralReleased;
    if owed < left then owed else left
  }

  /** The loan is closed as defaulted and leaves the index; the share goes to the settlement
      address, the rest of its collateral is unlocked, and nothing else is written. */
  ghost predicate Defaults(w: World, next: World, id: nat)
    requires HasLoan(w, id)
  {
    var s, c, loan := w.books.ledger, w.books.custody, w.books.ledger.loans[id];
    var position := V.VaultOf(c.vault, loan.guarantor);
    && OnlyLending(w, next, s.loanCount,
                   s.loans[id := loan.(status := Defaulted, collateralReleased := loan.collateralLocked)],
                   s.openLoans - {(loan.guarantor, loan.beneficiary)},
                   loan.guarantor, position.collateralBalance - Share(loan),
                   position.lockedAmount - (loan.collateralLocked - loan.collateralReleased))
    && TokensMove(c.balances, next.books.custody.balances, c.vault.self, c.vault.settlement, Share(loan))
  }

  lemma FlagEnters(w: World, env: Env, id: nat)
    requires Inv(w) && env.now == w.now
    ensures var flagged := E.FlagOverdue(w.engine, w.books, env, id);
            && (flagged.Ok? <==>
                  && !w.engine.paused && HasLoan(w, id) && Late(LoanIn(w, id), w.now)
                  && w.now + w.books.ledger.config.gracePeriodSecs <= 18_446_744_073_709_551_615)
            && (flagged.Ok? ==> EntersGrace(w, w.(books := flagged.value), id))
            && (!w.engine.paused && HasLoan(w, id) && !Late(LoanIn(w, id), w.now) ==> flagged == Err(NotOverdue))
  {
    Cranks.FlagOverdueIff(w.engine, w.books, env, id);
    if HasLoan(w, id) {
      LateIsOverdue(LoanIn(w, id), w.books.ledger.config, w.now);
    }
  }

  /** `flag_overdue` goes through exactly when the engine runs, the loan is late, and a grace
      period from now fits 64 bits. It puts the loan in grace; if it is not late it says so. */
  lemma FlagRule(w: World, signers: set<Address>, id: nat)
    requires Reached(w)
    ensures var result := Execute(w, signers, FlagOverdue(id));
            && (result.Ok? <==>
                  && !w.engine.paused && HasLoan(w, id) && Late(LoanIn(w, id), w.now)
                  && w.now + w.books.ledger.config.gracePeriodSecs <= 18_446_744_073_709_551_615)
            && (result.Ok? ==> EntersGrace(w, result.value, id))
            && (w.engine.paused ==> result == Err(Paused))
            && (!w.engine.paused && HasLoan(w, id) && !Late(LoanIn(w, id), w.now) ==> result == Err(NotOverdue))
  {
    ReachedIsSound(w);
    FlagEnters(w, External(w, signers), id);
  }

  lemma ShareIsForfeited(loan: Loan, cfg: Config)
    requires MoneySound(loan, cfg)
    ensures Share(loan) == E.Forfeited(loan)
  {
  }

  lemma ClosedBooks(w: World, books: L.Books, id: nat)
    requires Inv(w) && HasLoan(w, id) && LoanIn(w, id).status.Grace?
    requires books.ledger == Replace(w.books.ledger, CloseDefaulted(LoanIn(w, id)))
    requires Settles(w.books.custody, books.custody, LoanIn(w, id))
    ensures Defaults(w, w.(books := books), id)
  {
    ShareIsForfeited(LoanIn(w, id), w.books.ledger.config);
    MoveMoves(w.books.custody.balances, books.custody.balances, w.books.custody.vault.self,
              w.books.custody.vault.settlement, Share(LoanIn(w, id)));
  }

  lemma LiquidateCloses(w: World, env: Env, id: nat)
    requires Inv(w) && env.now == w.now
    requires !w.engine.paused && HasLoan(w, id) && Expired(LoanIn(w, id), w.now)
    ensures E.Liquidate(w.engine, w.books, env, id).Ok?
    ensures var (books, forfeited) := E.Liquidate(w.engine, w.books, env, id).value;
            Defaults(w, w.(books := books), id) && forfeited == Share(LoanIn(w, id)) > 0
  {
    Cranks.LiquidateEffect(w.engine, w.books, env, id);
    Cranks.ForfeitedBounds(LoanIn(w, id), w.books.ledger.config);
    ClosedBooks(w, E.Liquidate(w.engine, w.books, env, id).value.0, id);
  }

  /** `liquidate` goes through exactly when the engine runs and the loan's grace has expired. It
      settles and closes the loan, and reports the share it forfeits. */
  lemma LiquidateRule(w: World, signers: set<Address>, id: nat)
    requires Reached(w)
    ensures var result := Execute(w, signers, Liquidate(id));
            && (result.Ok? <==> !w.engine.paused && HasLoan(w, id) && Expired(LoanIn(w, id), w.now))
            && (result.Ok? ==>
                  && Defaults(w, result.value, id)
                  && E.Liquidate(w.engine, w.books, External(w, signers), id).value.1 == Share(LoanIn(w, id)) > 0)
            && (w.engine.paused ==> result == Err(Paused))
            && (!w.engine.paused && HasLoan(w, id) && !Expired(LoanIn(w, id), w.now) ==> result == Err(GraceNotExpired))
  {
    ReachedIsSound(w);
    Cranks.LiquidateIff(w.engine, w.books, External(w, signers), id);
    if !w.engine.paused && HasLoan(w, id) && Expired(LoanIn(w, id), w.now) {
      LiquidateCloses(w, External(w, signers), id);
    }
  }

  /** What a poke comes to: nothing while paused or if nothing is due, the transition that is
      due otherwise, and an abort for a loan that does not exist or a deadline that does not fit. */
  ghost predicate Pokes(w: World, id: nat, result: Result<(L.Books, bool)>) {
    if w.engine.paused then result == Ok((w.books, false))
    else if !HasLoan(w, id) then result == Err(LoanNotFound)
    else if Late(LoanIn(w, id), w.now) then
      if w.now + w.books.ledger.config.gracePeriodSecs <= 18_446_744_073_709_551_615 then
        result.Ok? && result.value.1 && EntersGrace(w, w.(books := result.value.0), id)
      else result == Err(Overflow)
    else if Expired(LoanIn(w, id), w.now) then
      result.Ok? && result.value.1 && Defaults(w, w.(books := result.value.0), id)
    else result == Ok((w.books, false))
  }

  lemma PokeDoes(w: World, env: Env, id: nat)
    requires Inv(w) && env.now == w.now
    ensures Pokes(w, id, E.Poke(w.engine, w.books, env, id))
  {
    if !w.engine.paused && HasLoan(w, id) {
      FlagEnters(w, env, id);
      LateIsOverdue(LoanIn(w, id), w.books.ledger.config, w.now);
      if Expired(LoanIn(w, id), w.now) {
        LiquidateCloses(w, env, id);
      }
      Cranks.PokeEffect(w.engine, w.books, env, id);
    }
  }

  /** `poke` does exactly that, and reports whether it moved the loan. */
  lemma PokeRule(w: World, signers: set<Address>, id: nat)
    requires Reached(w)
    ensures Pokes(w, id, E.Poke(w.engine, w.books, External(w, signers), id))
    ensures Execute(w, signers, Poke(id)) == WithBooks(w, E.Poke(w.engine, w.books, External(w, signers), id))
  {
    ReachedIsSound(w);
    PokeDoes(w, External(w, signers), id);
  }
}
