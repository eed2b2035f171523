/** The liquidation engine contract as an object holding references to the two
    contracts it drives. Every crank is proved to follow its transition in `EngineModel`. */
module LiquidationEngine {
  import opened Types
  import opened LoanModel
  import opened GuarantorVault
  import opened LoanLedger
  import LedgerModel
  import Model = EngineModel

  class LiquidationEngine {
    const self: Address
    const vault: GuarantorVault
    const ledger: LoanLedger
    var admin: Address
    var isPaused: bool

    constructor (self: Address, admin: Address, vault: GuarantorVault, ledger: LoanLedger)
      ensures this.vault == vault && this.ledger == ledger
      ensures State() == Model.EngineState(self, admin, false)
    {
      this.self, this.admin, this.vault, this.ledger := self, admin, vault, ledger;
      isPaused := false;
    }

    ghost function State(): Model.EngineState
      reads this
    {
      Model.EngineState(self, admin, isPaused)
    }

    /** As deployed, the engine and the ledger name the same vault. */
    ghost predicate Wired() {
      ledger.vault == vault
    }

    ghost function Books(): LedgerModel.Books
      reads this, ledger, ledger.vault, ledger.vault.token
    {
      ledger.State()
    }

    method FlagOverdue(env: Env, loanId: nat) returns (r: Result<()>)
      modifies ledger`loans
      ensures match Model.FlagOverdue(State(), old(Books()), env, loanId)
              case Ok(next) => r == Ok(()) && Books() == next
              case Err(e) => r == Err(e) && Books() == old(Books())
    {
      if isPaused { return Err(Paused); }
      if loanId !in ledger.loans { return Err(LoanNotFound); }
      if !Overdue(ledger.loans[loanId], env.now) { return Err(NotOverdue); }
      r := ledger.MarkGrace(env.CalledBy(self), self, loanId);
    }

    /** The two vault calls of a liquidation. If the second aborts, the first is reverted with it. */
    method Settle(env: Env, guarantor: Address, forfeited: int, returned: int) returns (r: Result<()>)
      modifies vault`vaults, vault.token
      ensures Follows(old(vault.State()),
                      Model.Settle(State(), old(vault.State()), env, guarantor, forfeited, returned),
                      vault.State(), r)
    {
      var revertedVaults, revertedBalances := vault.vaults, vault.token.balances;
      if forfeited > 0 {
        r := vault.ForfeitCollateral(env.CalledBy(self), self, guarantor, forfeited);
        if r.Err? { return; }
      }
      if returned > 0 {
        r := vault.ReleaseCollateral(env.CalledBy(self), self, guarantor, returned);
        if r.Err? {
          vault.vaults, vault.token.balances := revertedVaults, revertedBalances;
          return;
        }
      }
      r := Ok(());
    }

    /** The part of a liquidation past its checks; if closing aborts, the settlement is reverted. */
    method SettleAndClose(env: Env, loanId: nat) returns (r: Result<int>)
      requires Wired() && loanId in ledger.loans
      modifies ledger`loans, ledger`openLoans, vault`vaults, vault.token
      ensures Lands(old(Books()),
                    Model.SettleAndClose(State(), old(Books()), env, loanId, old(ledger.loans[loanId])),
                    Books(), r)
    {
      var guarantor := ledger.loans[loanId].guarantor;
      var outstanding := Outstanding(ledger.loans[loanId]);
      var remaining := Remaining(ledger.loans[loanId]);
      var forfeited := if outstanding < remaining then outstanding else remaining;
      var returned := remaining - forfeited;

      var revertedVaults, revertedBalances := vault.vaults, vault.token.balances;
      var settled := Settle(env, guarantor, forfeited, returned);
      if settled.Err? { return Err(settled.error); }
      var marked := ledger.MarkDefaulted(env.CalledBy(self), self, loanId);
      if marked.Err? {
        vault.vaults, vault.token.balances := revertedVaults, revertedBalances;
        return Err(marked.error);
      }
      return Ok(forfeited);
    }

    method Liquidate(env: Env, loanId: nat) returns (r: Result<int>)
      requires Wired()
      modifies ledger`loans, ledger`openLoans, vault`vaults, vault.token
      ensures Lands(old(Books()), Model.Liquidate(State(), old(Books()), env, loanId), Books(), r)
    {
      if isPaused { return Err(Paused); }
      if loanId !in ledger.loans { return Err(LoanNotFound); }
      if !GraceExpired(ledger.loans[loanId], env.now) { return Err(GraceNotExpired); }
      r := SettleAndClose(env, loanId);
    }

    method Poke(env: Env, loanId: nat) returns (r: Result<bool>)
      requires Wired()
      modifies ledger`loans, ledger`openLoans, vault`vaults, vault.token
      ensures Lands(old(Books()), Model.Poke(State(), old(Books()), env, loanId), Books(), r)
    {
      if isPaused { return Ok(false); }
      if loanId !in ledger.loans { return Err(LoanNotFound); }
      if Overdue(ledger.loans[loanId], env.now) {
        var marked := ledger.MarkGrace(env.CalledBy(self), self, loanId);
        return if marked.Ok? then Ok(true) else Err(marked.error);
      } else if GraceExpired(ledger.loans[loanId], env.now) {
        var settled := Liquidate(env, loanId);
        return if settled.Ok? then Ok(true) else Err(settled.error);
      } else {
        return Ok(false);
      }
    }

    method SetPaused(env: Env, caller: Address, paused: bool) returns (r: Result<()>)
      modifies this`isPaused
      ensures match Model.SetPaused(old(State()), env, caller, paused)
              case Ok(next) => r == Ok(()) && State() == next
              case Err(e) => r == Err(e) && State() == old(State())
    {
      if caller !in env.auth { return Err(AuthMissing); }
      if caller != admin { return Err(NotAuthorized); }
      isPaused := paused;
      return Ok(());
    }
  }
}
