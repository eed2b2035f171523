/** The liquidation engine: permissionless cranks that read the ledger, settle the
    collateral in the vault and then move the loan on. */
module EngineModel {
  import opened Types
  import opened LoanModel
  import opened VaultModel
  import opened LedgerModel

  datatype EngineState = EngineState(self: Address, admin: Address, paused: bool)

  function IsOverdue(s: LedgerState, now: nat, loanId: nat): Result<bool> {
    var loan :- LoanOf(s, loanId);
    Ok(Overdue(loan, now))
  }

  function IsGraceExpired(s: LedgerState, now: nat, loanId: nat): Result<bool> {
    var loan :- LoanOf(s, loanId);
    Ok(GraceExpired(loan, now))
  }

  /** What a liquidation seizes: the outstanding principal, capped at what is locked. */
  function Forfeited(loan: Loan): int {
    if Outstanding(loan) < Remaining(loan) then Outstanding(loan) else Remaining(loan)
  }

  function FlagOverdue(e: EngineState, b: Books, env: Env, loanId: nat): Result<Books> {
    if e.paused then Err(Paused)
    else
      var overdue :- IsOverdue(b.ledger, env.now, loanId);
      if !overdue then Err(NotOverdue)
      else
        var ledger :- MarkGrace(b.ledger, env.CalledBy(e.self), e.self, loanId);
        Ok(b.(ledger := ledger))
  }

  /** Drives the vault twice: seize `forfeited`, then hand `returned` back. */
  function Settle(e: EngineState, c: Custody, env: Env, guarantor: Address,
                  forfeited: int, returned: int): Result<Custody>
  {
    var own := env.CalledBy(e.self);
    var seized :- if forfeited > 0 then ForfeitCollateral(c, own, e.self, guarantor, forfeited) else Ok(c);
    if returned > 0 then ReleaseCollateral(seized, own, e.self, guarantor, returned) else Ok(seized)
  }

  /** A liquidation once it is due: split what remains, settle it, close the loan. */
  function SettleAndClose(e: EngineState, b: Books, env: Env, loanId: nat, loan: Loan): Result<(Books, int)> {
    var forfeited := Forfeited(loan);
    var custody :- Settle(e, b.custody, env, loan.guarantor, forfeited, Remaining(loan) - forfeited);
    var ledger :- MarkDefaulted(b.ledger, env.CalledBy(e.self), e.self, loanId);
    Ok((Books(ledger, custody), forfeited))
  }

  function Liquidate(e: EngineState, b: Books, env: Env, loanId: nat): Result<(Books, int)> {
    if e.paused then Err(Paused)
    else
      var expired :- IsGraceExpired(b.ledger, env.now, loanId);
      if !expired then Err(GraceNotExpired)
      else
        var loan :- LoanOf(b.ledger, loanId);
        SettleAndClose(e, b, env, loanId, loan)
  }

  function Poke(e: EngineState, b: Books, env: Env, loanId: nat): Result<(Books, bool)> {
    if e.paused then Ok((b, false))
    else
      var overdue :- IsOverdue(b.ledger, env.now, loanId);
      var expired :- IsGraceExpired(b.ledger, env.now, loanId);
      if overdue then
        var ledger :- MarkGrace(b.ledger, env.CalledBy(e.self), e.self, loanId);
        Ok((b.(ledger := ledger), true))
      else if expired then
        var (settled, _) :- Liquidate(e, b, env, loanId);
        Ok((settled, true))
      else
        Ok((b, false))
  }

  function SetPaused(e: EngineState, env: Env, admin: Address, paused: bool): Result<EngineState> {
    var _ :- RequireAdmin(e.admin, env, admin);
    Ok(e.(paused := paused))
  }
}
