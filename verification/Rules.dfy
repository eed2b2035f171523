/** What the rules of the entry points are stated with: the states a deployed system can be
    in, who has signed, and how tokens move, each in terms of stored values alone. */
module Rules {
  import opened Types
  import opened TokenLedger
  import opened LoanModel
  import opened Invariants
  import opened Protocol
  import Steps
  import V = VaultModel
  import L = LedgerModel

  /** Registered, and not revoked since. */
  ghost predicate Standing(registry: map<Address, bool>, a: Address) {
    a in registry && registry[a]
  }

  /** Not closed: neither repaid nor defaulted. */
  ghost predicate Live(loan: Loan) {
    loan.status == Active || loan.status == Grace
  }

  /** Only lending state is written: the loans, their count and index, and one position. */
  ghost predicate OnlyLending(w: World, next: World, loanCount: nat, loans: map<nat, Loan>,
                              openLoans: map<(Address, Handle), nat>, g: Address, balance: int, locked: int)
  {
    var s, v := w.books.ledger, w.books.custody.vault;
    next == w.(books := L.Books(
      s.(loanCount := loanCount, loans := loans, openLoans := openLoans),
      V.Custody(v.(vaults := v.vaults[g := V.Vault(g, balance, locked)]), next.books.custody.balances)))
  }

  /** Some run from deployment ends here. */
  ghost predicate Reached(w: World) {
    exists w0: World, txs: seq<Tx> :: Genesis(w0) && Run(w0, txs) == w
  }

  lemma ReachedIsSound(w: World)
    requires Reached(w)
    ensures Inv(w)
  {
    var w0: World, txs: seq<Tx> :| Genesis(w0) && Run(w0, txs) == w;
    Steps.Reachable(w0, txs);
  }

  lemma RunReaches(w0: World, txs: seq<Tx>)
    requires Genesis(w0)
    ensures Reached(Run(w0, txs))
  {
  }

  lemma StepReaches(w: World, tx: Tx)
    requires Reached(w)
    ensures Reached(Step(w, tx))
  {
    var w0: World, txs: seq<Tx> :| Genesis(w0) && Run(w0, txs) == w;
    RunSnoc(w0, txs, tx);
  }

  lemma UnsignedFails(w: World, elapsed: nat)
    ensures Step(w, Tx(elapsed, {}, Withdraw(Address(0), 0))) == w.(now := w.now + elapsed)
  {
  }

  /** Time can pass with nothing happening. */
  lemma ArrivalReaches(w: World, tx: Tx)
    requires Reached(w)
    ensures Reached(Arrival(w, tx))
  {
    StepReaches(w, Tx(tx.elapsed, {}, Withdraw(Address(0), 0)));
    UnsignedFails(w, tx.elapsed);
  }

  /** One of the signatures, and not a contract's: those hold no keys. */
  ghost predicate Signed(w: World, signers: set<Address>, a: Address) {
    && a in signers
    && a != w.books.custody.vault.self && a != w.books.ledger.self && a != w.engine.self
  }

  /** `amount` moves from one account to another, and no other balance changes. */
  ghost predicate TokensMove(before: Balances, after: Balances, from: Address, to: Address, amount: int) {
    forall x ::
      BalanceOf(after, x)
      == BalanceOf(before, x) - (if x == from then amount else 0) + (if x == to then amount else 0)
  }

  lemma MoveMoves(before: Balances, after: Balances, from: Address, to: Address, amount: int)
    requires Move(before, from, to, amount) == Ok(after)
    ensures TokensMove(before, after, from, to, amount)
  {
  }
}
