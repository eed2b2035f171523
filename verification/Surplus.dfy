/** What the vault holds beyond its guarantors' positions: exactly what others sent it
    directly, and what it was made to pay to itself. */
module Surplus {
  import opened Types
  import opened LoanModel
  import opened TokenLedger
  import opened Solvency
  import opened Invariants
  import opened Protocol
  import opened Steps
  import opened Accounting
  import Cranks
  import V = VaultModel
  import E = EngineModel

  /** The vault's tokens less the sum of all positions. */
  ghost function Excess(c: V.Custody): int {
    BalanceOf(c.balances, c.vault.self) - Total(c.vault.vaults)
  }

  // ----- What one transaction adds -----

  /** Tokens the transaction transfers to the vault outside its entry points. */
  ghost function SentIn(w: World, tx: Tx): int {
    if tx.command.TokenTransfer? && tx.command.receiver == w.books.custody.vault.self && Succeeds(w, tx) then
      tx.command.amount
    else 0
  }

  /** What the transaction forfeits while the settlement address is the vault itself. */
  ghost function PaidToSelf(w: World, tx: Tx): int {
    match CrankTarget(tx.command)
    case Some(id) =>
      var vault := w.books.custody.vault;
      if HasLoan(w, id) && vault.settlement == vault.self then Seized(w, tx, id) else 0
    case None => 0
  }

  // ----- One transaction -----

  lemma PositionMovesTotal(before: V.Custody, after: V.Custody, g: Address, balance: int, locked: int)
    requires OnlyPosition(before, after, g, balance, locked)
    ensures Total(after.vault.vaults)
         == Total(before.vault.vaults) - V.VaultOf(before.vault, g).collateralBalance + balance
    ensures after.vault.self == before.vault.self
  {
    TotalUpdate(before.vault, V.Vault(g, balance, locked));
  }

  lemma DepositKeepsExcess(w: World, signers: set<Address>, command: Command)
    requires Inv(w) && command.Deposit? && Execute(w, signers, command).Ok?
    ensures Excess(Execute(w, signers, command).value.books.custody) == Excess(w.books.custody)
  {
    var c, next := w.books.custody, Execute(w, signers, command).value.books.custody;
    var g, vault := command.guarantor, V.VaultOf(c.vault, command.guarantor);
    DepositIff(c, External(w, signers), g, command.amount);
    PositionMovesTotal(c, next, g, vault.collateralBalance + command.amount, vault.lockedAmount);
  }

  lemma WithdrawKeepsExcess(w: World, signers: set<Address>, command: Command)
    requires Inv(w) && command.Withdraw? && Execute(w, signers, command).Ok?
    ensures Excess(Execute(w, signers, command).value.books.custody) == Excess(w.books.custody)
  {
    var c, next := w.books.custody, Execute(w, signers, command).value.books.custody;
    var g, vault := command.guarantor, V.VaultOf(c.vault, command.guarantor);
    WithdrawIff(c, External(w, signers), g, command.amount);
    PositionMovesTotal(c, next, g, vault.collateralBalance - command.amount, vault.lockedAmount);
  }

  lemma LoanCommandKeepsExcess(w: World, signers: set<Address>, command: Command)
    requires Inv(w) && Execute(w, signers, command).Ok? && (command.AttestRepayment? || command.Originate?)
    ensures Excess(Execute(w, signers, command).value.books.custody) == Excess(w.books.custody)
  {
    var env, c, next := External(w, signers), w.books.custody, Execute(w, signers, command).value.books.custody;
    if command.AttestRepayment? {
      AttestIff(w.books, env, command.partner, command.verifier, command.loanId, command.amount);
      AttestEffect(w.books, env, command.partner, command.verifier, command.loanId, command.amount);
      var g := LoanIn(w, command.loanId).guarantor;
      PositionMovesTotal(c, next, g, V.VaultOf(c.vault, g).collateralBalance, V.VaultOf(next.vault, g).lockedAmount);
    } else {
      OriginateIff(w.books, env, command.guarantor, command.beneficiary, command.partner,
                   command.principalUsd, command.installmentCount, command.intervalSecs);
      var g := command.guarantor;
      PositionMovesTotal(c, next, g, V.VaultOf(c.vault, g).collateralBalance, V.VaultOf(next.vault, g).lockedAmount);
    }
  }

  lemma OthersKeepExcess(w: World, signers: set<Address>, command: Command)
    requires Inv(w) && Execute(w, signers, command).Ok? && !command.Deposit? && !command.Withdraw?
    requires TouchesNoLoan(command) || command.ReassignPartner? || command.FlagOverdue?
    ensures Excess(Execute(w, signers, command).value.books.custody) == Excess(w.books.custody)
              + (if command.TokenTransfer? && command.receiver == w.books.custody.vault.self then command.amount else 0)
  {
    if command.LockCollateral? || command.ReleaseCollateral? || command.ForfeitCollateral?
       || command.MarkGrace? || command.MarkDefaulted? {
      PrivilegedRefused(w, signers, command);
    }
  }

  lemma SuccessMovesExcess(w: World, signers: set<Address>, command: Command)
    requires Inv(w) && Execute(w, signers, command).Ok? && CrankTarget(command).None?
    ensures Excess(Execute(w, signers, command).value.books.custody) == Excess(w.books.custody)
              + (if command.TokenTransfer? && command.receiver == w.books.custody.vault.self then command.amount else 0)
  {
    if command.Deposit? {
      DepositKeepsExcess(w, signers, command);
    } else if command.Withdraw? {
      WithdrawKeepsExcess(w, signers, command);
    } else if command.AttestRepayment? || command.Originate? {
      LoanCommandKeepsExcess(w, signers, command);
    } else {
      OthersKeepExcess(w, signers, command);
    }
  }

  lemma SettlementMovesExcess(c: V.Custody, after: V.Custody, loan: Loan)
    requires Settles(c, after, loan)
    ensures Excess(after) == Excess(c) + (if c.vault.settlement == c.vault.self then E.Forfeited(loan) else 0)
  {
    var vault := V.VaultOf(c.vault, loan.guarantor);
    PositionMovesTotal(c, after, loan.guarantor, vault.collateralBalance - E.Forfeited(loan),
                       vault.lockedAmount - Remaining(loan));
  }

  /** A crank that liquidates nothing leaves vault and token alone. */
  lemma IdleCrank(w: World, tx: Tx)
    requires Inv(w) && CrankTarget(tx.command).Some?
    requires HasLoan(w, tx.command.loanId) ==> !EventOn(w, tx, tx.command.loanId).Liquidated?
    ensures Step(w, tx).books.custody == w.books.custody
  {
    var a := Arrival(w, tx);
    TimePasses(w, tx);
    Cranks.LiquidateIff(a.engine, a.books, External(a, tx.signers), tx.command.loanId);
    Cranks.PokeEffect(a.engine, a.books, External(a, tx.signers), tx.command.loanId);
    Cranks.FlagOverdueIff(a.engine, a.books, External(a, tx.signers), tx.command.loanId);
  }

  lemma SeizedIsForfeited(w: World, tx: Tx, id: nat)
    requires Inv(w) && HasLoan(w, id) && EventOn(w, tx, id).Liquidated?
    ensures Seized(w, tx, id) == E.Forfeited(LoanIn(w, id))
  {
    var a := Arrival(w, tx);
    TimePasses(w, tx);
    StepOnLoan(w, tx, id);
    Cranks.LiquidateIff(a.engine, a.books, External(a, tx.signers), id);
    Cranks.PokeEffect(a.engine, a.books, External(a, tx.signers), id);
    Cranks.LiquidateEffect(a.engine, a.books, External(a, tx.signers), id);
  }

  lemma CrankMovesExcess(w: World, tx: Tx)
    requires Inv(w) && CrankTarget(tx.command).Some?
    ensures Excess(Step(w, tx).books.custody) == Excess(w.books.custody) + PaidToSelf(w, tx)
    ensures PaidToSelf(w, tx) >= 0
  {
    var id := tx.command.loanId;
    if HasLoan(w, id) && EventOn(w, tx, id).Liquidated? {
      StepLiquidates(w, tx, id);
      SettlementMovesExcess(w.books.custody, Step(w, tx).books.custody, LoanIn(w, id));
      SeizedIsForfeited(w, tx, id);
    } else {
      IdleCrank(w, tx);
    }
  }

  lemma StepMovesExcess(w: World, tx: Tx)
    requires Inv(w)
    ensures Excess(Step(w, tx).books.custody) == Excess(w.books.custody) + SentIn(w, tx) + PaidToSelf(w, tx)
    ensures SentIn(w, tx) >= 0 && PaidToSelf(w, tx) >= 0
  {
    TimePasses(w, tx);
    if CrankTarget(tx.command).Some? {
      CrankMovesExcess(w, tx);
    } else if Succeeds(w, tx) {
      SuccessMovesExcess(Arrival(w, tx), tx.signers, tx.command);
    }
  }

  // ----- Over a run -----

  /** Over every run the vault's excess over its guarantors' positions grows by exactly what
      was sent to it directly and what it forfeited to itself, and nothing ever draws on it. */
  lemma {:induction false} SurplusIsGifts(w0: World, txs: seq<Tx>)
    requires Genesis(w0)
    ensures Excess(Run(w0, txs).books.custody)
         == Excess(w0.books.custody)
            + OverRun(w0, txs, (w, tx) => SentIn(w, tx))
            + OverRun(w0, txs, (w, tx) => PaidToSelf(w, tx))
    ensures Excess(Run(w0, txs).books.custody) >= Excess(w0.books.custody)
  {
    if txs != [] {
      SurplusIsGifts(w0, txs[..|txs| - 1]);
      Reachable(w0, txs[..|txs| - 1]);
      StepMovesExcess(Run(w0, txs[..|txs| - 1]), txs[|txs| - 1]);
    }
  }
}
