/** The cranks never get stuck: each one succeeds exactly when the loan's own state and
    the clock say it is due, and nothing in the vault or the token can refuse it. */
module Cranks {
  import opened Types
  import opened LoanModel
  import opened Solvency
  import opened Invariants
  import TokenLedger
  import V = VaultModel
  import L = LedgerModel
  import E = EngineModel

  ghost predicate Drives(e: E.EngineState, b: L.Books) {
    b.custody.vault.liquidationEngine == Some(e.self) && b.ledger.liquidationEngine == Some(e.self)
  }

  /** A grace period from `now` ends within the range of ledger time. */
  predicate DeadlineFits(cfg: Config, now: nat) {
    U64(now + cfg.gracePeriodSecs)
  }

  lemma FlagOverdueIff(e: E.EngineState, b: L.Books, env: Env, id: nat)
    requires BooksSound(b) && Drives(e, b)
    ensures E.FlagOverdue(e, b, env, id).Ok? <==>
              && !e.paused && id in b.ledger.loans && Overdue(b.ledger.loans[id], env.now)
              && DeadlineFits(b.ledger.config, env.now)
    ensures E.FlagOverdue(e, b, env, id).Ok? ==>
              var next := E.FlagOverdue(e, b, env, id).value;
              && BooksSound(next) && next.custody == b.custody
              && next.ledger == Replace(b.ledger, EnterGrace(b.ledger.loans[id], b.ledger.config, env.now))
  {
    if !e.paused && id in b.ledger.loans && Overdue(b.ledger.loans[id], env.now) {
      var loan := b.ledger.loans[id];
      var flagged := EnterGrace(loan, b.ledger.config, env.now);
      var vault := V.VaultOf(b.custody.vault, loan.guarantor);
      PositionStored(b, id);
      LoanUpdateKeepsLedger(b.ledger, flagged);
      LoanUpdateKeepsBooks(b, flagged, b.custody, vault.collateralBalance);
    }
  }

  /** The two vault calls of a liquidation both go through when together they take
      no more than is locked. */
  lemma SettleEffect(e: E.EngineState, c: V.Custody, env: Env, g: Address, forfeited: int, returned: int)
    requires CustodySound(c) && c.vault.liquidationEngine == Some(e.self)
    requires 0 < forfeited && 0 <= returned && forfeited + returned <= V.VaultOf(c.vault, g).lockedAmount
    ensures E.Settle(e, c, env, g, forfeited, returned).Ok?
    ensures var next := E.Settle(e, c, env, g, forfeited, returned).value;
            && CustodySound(next)
            && TokenLedger.Move(c.balances, c.vault.self, c.vault.settlement, forfeited) == Ok(next.balances)
            && OnlyPosition(c, next, g, V.VaultOf(c.vault, g).collateralBalance - forfeited,
                            V.VaultOf(c.vault, g).lockedAmount - forfeited - returned)
  {
    ForfeitIff(c, env.CalledBy(e.self), e.self, g, forfeited);
    var seized := V.ForfeitCollateral(c, env.CalledBy(e.self), e.self, g, forfeited).value;
    ReleaseIff(seized, env.CalledBy(e.self), e.self, g, returned);
    var next := E.Settle(e, c, env, g, forfeited, returned).value;
    assert next.vault.vaults
        == c.vault.vaults[g := V.Vault(g, V.VaultOf(c.vault, g).collateralBalance - forfeited,
                                       V.VaultOf(c.vault, g).lockedAmount - forfeited - returned)];
  }

  lemma ForfeitedBounds(loan: Loan, cfg: Config)
    requires MoneySound(loan, cfg) && Open(loan)
    ensures 0 < E.Forfeited(loan) <= Remaining(loan)
    ensures E.Forfeited(loan) <= Outstanding(loan)
  {
    RemainingBounds(loan, cfg);
  }

  /** A due liquidation goes through once the vault accepts its settlement. */
  lemma LiquidateIs(e: E.EngineState, b: L.Books, env: Env, id: nat)
    requires Drives(e, b) && !e.paused && id in b.ledger.loans && b.ledger.loans[id].id == id
    requires GraceExpired(b.ledger.loans[id], env.now)
    ensures var loan := b.ledger.loans[id];
            var forfeited := E.Forfeited(loan);
            var settled := E.Settle(e, b.custody, env, loan.guarantor, forfeited, Remaining(loan) - forfeited);
            settled.Ok? ==>
              E.Liquidate(e, b, env, id)
              == Ok((L.Books(Replace(b.ledger, CloseDefaulted(loan)), settled.value), forfeited))
  {
  }

  lemma SettleLoan(e: E.EngineState, b: L.Books, env: Env, id: nat)
    requires BooksSound(b) && Drives(e, b) && id in b.ledger.loans && Open(b.ledger.loans[id])
    ensures var loan := b.ledger.loans[id];
            var vault := V.VaultOf(b.custody.vault, loan.guarantor);
            var forfeited := E.Forfeited(loan);
            var settled := E.Settle(e, b.custody, env, loan.guarantor, forfeited, Remaining(loan) - forfeited);
            && settled.Ok? && CustodySound(settled.value)
            && TokenLedger.Move(b.custody.balances, b.custody.vault.self, b.custody.vault.settlement, E.Forfeited(loan))
               == Ok(settled.value.balances)
            && OnlyPosition(b.custody, settled.value, loan.guarantor, vault.collateralBalance - E.Forfeited(loan),
                            vault.lockedAmount - Remaining(loan))
  {
    var loan := b.ledger.loans[id];
    ForfeitedBounds(loan, b.ledger.config);
    LockedCovers(b, id);
    SettleEffect(e, b.custody, env, loan.guarantor, E.Forfeited(loan), Remaining(loan) - E.Forfeited(loan));
  }

  lemma ClosingKeepsBooks(b: L.Books, c: V.Custody, id: nat)
    requires BooksSound(b) && id in b.ledger.loans && b.ledger.loans[id].status.Grace? && CustodySound(c)
    requires var loan := b.ledger.loans[id];
             var vault := V.VaultOf(b.custody.vault, loan.guarantor);
             OnlyPosition(b.custody, c, loan.guarantor, vault.collateralBalance - E.Forfeited(loan),
                          vault.lockedAmount - Remaining(loan))
    ensures BooksSound(L.Books(Replace(b.ledger, CloseDefaulted(b.ledger.loans[id])), c))
  {
    var loan := b.ledger.loans[id];
    LoanUpdateKeepsLedger(b.ledger, CloseDefaulted(loan));
    var balance := V.VaultOf(b.custody.vault, loan.guarantor).collateralBalance;
    LoanUpdateKeepsBooks(b, CloseDefaulted(loan), c, balance - E.Forfeited(loan));
  }

  lemma LiquidatedBooks(e: E.EngineState, b: L.Books, env: Env, id: nat, next: L.Books)
    requires BooksSound(b) && Drives(e, b) && id in b.ledger.loans && b.ledger.loans[id].status.Grace?
    requires var loan := b.ledger.loans[id];
             var forfeited := E.Forfeited(loan);
             var settled := E.Settle(e, b.custody, env, loan.guarantor, forfeited, Remaining(loan) - forfeited);
             settled.Ok? && next == L.Books(Replace(b.ledger, CloseDefaulted(loan)), settled.value)
    ensures var loan := b.ledger.loans[id];
            var vault := V.VaultOf(b.custody.vault, loan.guarantor);
            && BooksSound(next)
            && TokenLedger.Move(b.custody.balances, b.custody.vault.self, b.custody.vault.settlement, E.Forfeited(loan))
               == Ok(next.custody.balances)
            && OnlyPosition(b.custody, next.custody, loan.guarantor, vault.collateralBalance - E.Forfeited(loan),
                            vault.lockedAmount - Remaining(loan))
  {
    SettleLoan(e, b, env, id);
    ClosingKeepsBooks(b, next.custody, id);
  }

  /** A due liquidation goes through: it seizes `Forfeited`, unlocks the loan's whole
      remaining collateral, pays the settlement address in force, and closes the loan. */
  lemma LiquidateEffect(e: E.EngineState, b: L.Books, env: Env, id: nat)
    requires BooksSound(b) && Drives(e, b)
    requires !e.paused && id in b.ledger.loans && GraceExpired(b.ledger.loans[id], env.now)
    ensures E.Liquidate(e, b, env, id).Ok?
    ensures var loan := b.ledger.loans[id];
            var vault := V.VaultOf(b.custody.vault, loan.guarantor);
            var (next, forfeited) := E.Liquidate(e, b, env, id).value;
            && BooksSound(next) && forfeited == E.Forfeited(loan)
            && next.ledger == Replace(b.ledger, CloseDefaulted(loan))
            && TokenLedger.Move(b.custody.balances, b.custody.vault.self, b.custody.vault.settlement, forfeited)
               == Ok(next.custody.balances)
            && OnlyPosition(b.custody, next.custody, loan.guarantor, vault.collateralBalance - forfeited,
                            vault.lockedAmount - Remaining(loan))
  {
    SettleLoan(e, b, env, id);
    LiquidateIs(e, b, env, id);
    LiquidatedBooks(e, b, env, id, E.Liquidate(e, b, env, id).value.0);
  }

  lemma LiquidateIff(e: E.EngineState, b: L.Books, env: Env, id: nat)
    requires BooksSound(b) && Drives(e, b)
    ensures E.Liquidate(e, b, env, id).Ok? <==>
              !e.paused && id in b.ledger.loans && GraceExpired(b.ledger.loans[id], env.now)
  {
    if !e.paused && id in b.ledger.loans && GraceExpired(b.ledger.loans[id], env.now) {
      LiquidateEffect(e, b, env, id);
    }
  }

  /** `poke` fails only on a loan that does not exist, or one overdue when no grace deadline
      fits any more. It answers true exactly when it moved the loan: into Grace if overdue,
      into Defaulted if grace has expired. */
  lemma PokeEffect(e: E.EngineState, b: L.Books, env: Env, id: nat)
    requires BooksSound(b) && Drives(e, b)
    ensures E.Poke(e, b, env, id).Ok? <==>
              || e.paused
              || (id in b.ledger.loans
                  && (Overdue(b.ledger.loans[id], env.now) ==> DeadlineFits(b.ledger.config, env.now)))
    ensures E.Poke(e, b, env, id).Ok? && id in b.ledger.loans ==>
              var loan := b.ledger.loans[id];
              var (next, moved) := E.Poke(e, b, env, id).value;
              && id in next.ledger.loans
              && (moved <==> next.ledger.loans[id].status != loan.status)
              && (moved <==> !e.paused && (Overdue(loan, env.now) || GraceExpired(loan, env.now)))
              && (!moved ==> next == b)
              && (moved && Overdue(loan, env.now) ==> E.FlagOverdue(e, b, env, id) == Ok(next))
              && (moved && GraceExpired(loan, env.now) ==> E.Liquidate(e, b, env, id) == Ok((next, E.Forfeited(loan))))
  {
    if !e.paused && id in b.ledger.loans {
      FlagOverdueIff(e, b, env, id);
      if GraceExpired(b.ledger.loans[id], env.now) {
        LiquidateEffect(e, b, env, id);
      }
    }
  }

  /** The one thing that can stop an unpaused poke of an existing loan. */
  lemma PokeOverflows(e: E.EngineState, b: L.Books, env: Env, id: nat)
    requires BooksSound(b) && Drives(e, b) && !e.paused && id in b.ledger.loans
    requires Overdue(b.ledger.loans[id], env.now) && !DeadlineFits(b.ledger.config, env.now)
    ensures E.Poke(e, b, env, id) == Err(Overflow)
    ensures E.FlagOverdue(e, b, env, id) == Err(Overflow)
  {
  }
}
