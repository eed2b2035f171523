/** The vault's entry points in plain numbers: in every reachable state, exactly when each
    call goes through, and the whole state it leaves. */
module VaultRules {
  import opened Types
  import opened TokenLedger
  import opened Protocol
  import opened Rules
  import opened Steps
  import Administration
  import Solvency
  import V = VaultModel

  /** Only positions and tokens are written: one position, to the given amounts. */
  ghost predicate OnlyCustody(w: World, next: World, g: Address, balance: int, locked: int) {
    var c := w.books.custody;
    next == w.(books := w.books.(custody := V.Custody(
      c.vault.(vaults := c.vault.vaults[g := V.Vault(g, balance, locked)]), next.books.custody.balances)))
  }

  /** A deposit goes through exactly when its guarantor signed, has the tokens, and the new
      balance fits 128 bits. It credits the position and moves the tokens. */
  lemma DepositRule(w: World, signers: set<Address>, g: Address, amount: int)
    requires Reached(w)
    ensures var c, result := w.books.custody, Execute(w, signers, Deposit(g, amount));
            var position := V.VaultOf(c.vault, g);
            && (result.Ok? <==>
                  && Signed(w, signers, g) && 0 < amount <= BalanceOf(c.balances, g)
                  && position.collateralBalance + amount <= 170_141_183_460_469_231_731_687_303_715_884_105_727)
            && (result.Ok? ==>
                  && OnlyCustody(w, result.value, g, position.collateralBalance + amount, position.lockedAmount)
                  && TokensMove(c.balances, result.value.books.custody.balances, g, c.vault.self, amount))
  {
    ReachedIsSound(w);
    Solvency.DepositIff(w.books.custody, External(w, signers), g, amount);
  }

  /** A withdrawal goes through exactly when its guarantor signed and the amount is positive
      and within the balance less the lock. It debits the position and pays the tokens. */
  lemma WithdrawRule(w: World, signers: set<Address>, g: Address, amount: int)
    requires Reached(w)
    ensures var c, result := w.books.custody, Execute(w, signers, Withdraw(g, amount));
            var position := V.VaultOf(c.vault, g);
            && (result.Ok? <==>
                  Signed(w, signers, g) && 0 < amount <= position.collateralBalance - position.lockedAmount)
            && (result.Ok? ==>
                  && OnlyCustody(w, result.value, g, position.collateralBalance - amount, position.lockedAmount)
                  && TokensMove(c.balances, result.value.books.custody.balances, c.vault.self, g, amount))
            && (Signed(w, signers, g) && amount > 0 && amount > position.collateralBalance - position.lockedAmount ==>
                  result == Err(InsufficientAvailable))
  {
    ReachedIsSound(w);
    if g in External(w, signers).auth {
      Solvency.WithdrawIff(w.books.custody, External(w, signers), g, amount);
    }
  }

  // ----- Wiring -----

  datatype Wiring = Wiring(vaultLedger: Option<Address>, vaultEngine: Option<Address>, ledgerEngine: Option<Address>)

  ghost function WiringOf(w: World): Wiring {
    Wiring(w.books.custody.vault.loanLedger, w.books.custody.vault.liquidationEngine, w.books.ledger.liquidationEngine)
  }

  ghost predicate Wires(command: Command) {
    command.SetLoanLedger? || command.SetVaultEngine? || command.SetLedgerEngine?
  }

  /** Each slot is filled exactly when it is empty and its contract's admin signs. */
  lemma WiringRule(w: World, signers: set<Address>, command: Command)
    requires Wires(command)
    ensures var v, s, result := w.books.custody.vault, w.books.ledger, Execute(w, signers, command);
            var admin := if command.SetLedgerEngine? then s.admin else v.admin;
            var slot := if command.SetLoanLedger? then v.loanLedger
                        else if command.SetVaultEngine? then v.liquidationEngine
                        else s.liquidationEngine;
            && (result.Ok? <==> Signed(w, signers, command.admin) && command.admin == admin && slot == None)
            && (result.Ok? ==>
                  WiringOf(result.value)
                  == if command.SetLoanLedger? then WiringOf(w).(vaultLedger := Some(command.ledger))
                     else if command.SetVaultEngine? then WiringOf(w).(vaultEngine := Some(command.engine))
                     else WiringOf(w).(ledgerEngine := Some(command.engine)))
  {
  }

  lemma CrankKeepsWiring(w: World, signers: set<Address>, command: Command)
    requires Execute(w, signers, command).Ok? && (command.Liquidate? || command.Poke?)
    ensures WiringOf(Execute(w, signers, command).value) == WiringOf(w)
  {
    if command.Poke? {
      Administration.PokeKeepsSettings(w.engine, w.books, External(w, signers), command.loanId);
    } else {
      Administration.LiquidationKeepsSettings(w.engine, w.books, External(w, signers), command.loanId);
    }
  }

  lemma LoanCommandKeepsWiring(w: World, signers: set<Address>, command: Command)
    requires Execute(w, signers, command).Ok?
    requires command.AttestRepayment? || command.Originate? || command.FlagOverdue? || command.ReassignPartner?
    ensures WiringOf(Execute(w, signers, command).value) == WiringOf(w)
  {
  }

  lemma OthersKeepWiring(w: World, signers: set<Address>, command: Command)
    requires Execute(w, signers, command).Ok? && TouchesNoLoan(command) && !Wires(command)
    ensures WiringOf(Execute(w, signers, command).value) == WiringOf(w)
  {
  }

  /** A filled slot is kept, and an empty one is filled by its own command alone. */
  ghost predicate KeepsWiring(before: Wiring, after: Wiring) {
    && (before.vaultLedger != None ==> after.vaultLedger == before.vaultLedger)
    && (before.vaultEngine != None ==> after.vaultEngine == before.vaultEngine)
    && (before.ledgerEngine != None ==> after.ledgerEngine == before.ledgerEngine)
  }

  lemma StepKeepsWiring(w: World, tx: Tx)
    ensures KeepsWiring(WiringOf(w), WiringOf(Step(w, tx)))
    ensures !(Wires(tx.command) && Succeeds(w, tx)) ==> WiringOf(Step(w, tx)) == WiringOf(w)
  {
    var a := Arrival(w, tx);
    if Wires(tx.command) {
      WiringRule(a, tx.signers, tx.command);
    } else if Succeeds(w, tx) {
      if tx.command.Liquidate? || tx.command.Poke? {
        CrankKeepsWiring(a, tx.signers, tx.command);
      } else if TouchesNoLoan(tx.command) {
        OthersKeepWiring(a, tx.signers, tx.command);
      } else {
        LoanCommandKeepsWiring(a, tx.signers, tx.command);
      }
    }
  }

  /** What a contract has been told of the others it keeps, whatever is called, wired or not. */
  lemma {:induction false} WiredForGood(w: World, txs: seq<Tx>)
    ensures KeepsWiring(WiringOf(w), WiringOf(Run(w, txs)))
  {
    if txs != [] {
      WiredForGood(w, txs[..|txs| - 1]);
      StepKeepsWiring(Run(w, txs[..|txs| - 1]), txs[|txs| - 1]);
    }
  }
}
