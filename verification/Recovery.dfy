/** No collateral is ever stranded: it comes free when the loans close, and anyone can see
    every loan closed. */
module Recovery {
  import opened Types
  import opened LoanModel
  import opened Solvency
  import opened Invariants
  import opened Protocol
  import opened Steps
  import opened Default
  import opened Guarantees
  import Cranks
  import V = VaultModel

  ghost predicate NoOpenLoan(w: World, g: Address) {
    forall id :: HasLoan(w, id) && LoanIn(w, id).guarantor == g ==> !Open(LoanIn(w, id))
  }

  lemma {:induction false} ClosedBacksNothing(w: World, g: Address, n: nat)
    requires Inv(w) && NoOpenLoan(w, g)
    ensures Backing(w.books.ledger.loans, g, n) == 0
  {
    if n > 0 {
      ClosedBacksNothing(w, g, n - 1);
      if HasLoan(w, n) && LoanIn(w, n).guarantor == g {
        RemainingBounds(LoanIn(w, n), w.books.ledger.config);
      }
    }
  }

  lemma ClosedLocksNothing(w: World, g: Address)
    requires Inv(w) && NoOpenLoan(w, g)
    ensures V.VaultOf(w.books.custody.vault, g).lockedAmount == 0
  {
    ClosedBacksNothing(w, g, w.books.ledger.loanCount);
  }

  /** A guarantor without open loans has all of their collateral free. */
  lemma FreeWithoutLoans(w0: World, txs: seq<Tx>, g: Address)
    requires Genesis(w0) && NoOpenLoan(Run(w0, txs), g)
    ensures var v := Run(w0, txs).books.custody.vault;
            V.Available(v, g) == V.VaultOf(v, g).collateralBalance
  {
    Reachable(w0, txs);
    ClosedLocksNothing(Run(w0, txs), g);
  }

  // ----- Runs of pokes -----

  /** A poke signed by nobody: anyone can send it. */
  ghost predicate IsPoke(tx: Tx) {
    tx.command.Poke? && tx.signers == {}
  }

  ghost predicate OnlyPokes(txs: seq<Tx>) {
    forall tx :: tx in txs ==> IsPoke(tx)
  }

  ghost predicate ReachedByPokes(w: World, next: World) {
    exists pokes: seq<Tx> :: OnlyPokes(pokes) && Run(w, pokes) == next
  }

  lemma NoPokes(w: World)
    ensures ReachedByPokes(w, w)
  {
    assert OnlyPokes([]) && Run(w, []) == w;
  }

  lemma OneMorePoke(w: World, before: World, tx: Tx)
    requires ReachedByPokes(w, before) && IsPoke(tx)
    ensures ReachedByPokes(w, Step(before, tx))
  {
    var pokes: seq<Tx> :| OnlyPokes(pokes) && Run(w, pokes) == before;
    RunSnoc(w, pokes, tx);
    assert OnlyPokes(pokes + [tx]);
  }

  lemma ReachedOneByOne(w: World, middle: World, end: World)
    requires ReachedByPokes(w, middle) && ReachedByPokes(middle, end)
    ensures ReachedByPokes(w, end)
  {
    var first: seq<Tx> :| OnlyPokes(first) && Run(w, first) == middle;
    var second: seq<Tx> :| OnlyPokes(second) && Run(middle, second) == end;
    RunConcat(w, first, second);
    assert OnlyPokes(first + second);
  }

  /** What a poke leaves alone. */
  ghost predicate Around(before: World, after: World) {
    && after.engine == before.engine
    && after.books.ledger.config == before.books.ledger.config
    && after.books.ledger.loanCount == before.books.ledger.loanCount
  }

  lemma PokeAround(w: World, tx: Tx)
    requires Inv(w) && tx.command.Poke?
    ensures Inv(Step(w, tx)) && Step(w, tx).now == w.now + tx.elapsed && Around(w, Step(w, tx))
  {
    StepKeepsInv(w, tx);
    PokeKeepsEngine(w, tx);
    var next := Step(w, tx);
    var count := w.books.ledger.loanCount;
    if HasLoan(next, count + 1) {
      StepNewLoan(w, tx, count + 1);
    }
    if count > 0 {
      assert HasLoan(w, count);
      StepOnLoan(w, tx, count);
    }
  }

  /** A poke at loan 0, which does not exist: only time passes. */
  lemma WaitPasses(w: World, wait: nat) returns (next: World)
    requires Inv(w)
    ensures ReachedByPokes(w, next) && Inv(next)
    ensures next.books == w.books && next.engine == w.engine && next.now == w.now + wait
  {
    var tx := Tx(wait, {}, Poke(0));
    next := Step(w, tx);
    StepKeepsInv(w, tx);
    assert !HasLoan(w, 0);
    NoPokes(w);
    OneMorePoke(w, w, tx);
  }

  // ----- First round: every open loan under one deadline -----

  /** Past every maturity. */
  ghost predicate AllMatured(w: World) {
    forall id :: HasLoan(w, id) ==> Maturity(LoanIn(w, id)) < w.now
  }

  lemma PokeKeepsMatured(w: World, tx: Tx)
    requires Inv(w) && tx.command.Poke? && AllMatured(w)
    ensures AllMatured(Step(w, tx))
  {
    PokeAround(w, tx);
    forall id | HasLoan(Step(w, tx), id) ensures Maturity(LoanIn(Step(w, tx), id)) < Step(w, tx).now {
      assert HasLoan(w, id);
      StepLater(w, tx, id);
    }
  }

  /** Loans 1 to k are out of Active, under no later deadline. */
  ghost predicate RunningOutTo(w: World, k: nat, deadline: nat) {
    forall id :: 1 <= id <= k ==> RunningOut(w, id, deadline)
  }

  lemma StepKeepsRunningOut(w: World, tx: Tx, k: nat, deadline: nat)
    requires Inv(w) && RunningOutTo(w, k, deadline)
    ensures RunningOutTo(Step(w, tx), k, deadline)
  {
    forall id | 1 <= id <= k ensures RunningOut(Step(w, tx), id, deadline) {
      NoReturnAfterMaturity(w, tx, id, deadline);
    }
  }

  /** Loans 1 to k of n have been poked, and a grace period from now ends at `deadline`. */
  ghost predicate UnderDeadline(w: World, deadline: nat, n: nat, k: nat) {
    && Inv(w) && !w.engine.paused && w.books.ledger.loanCount == n && AllMatured(w)
    && w.now + w.books.ledger.config.gracePeriodSecs == deadline <= U64_MAX
    && RunningOutTo(w, k, deadline)
  }

  lemma OneMoreRunsOut(w: World, k: nat, deadline: nat)
    requires k > 0 && RunningOutTo(w, k - 1, deadline) && RunningOut(w, k, deadline)
    ensures RunningOutTo(w, k, deadline)
  {
  }

  lemma PokedRunsOut(w: World, tx: Tx, k: nat, deadline: nat)
    requires Inv(w) && AllMatured(w) && !w.engine.paused && 1 <= k <= w.books.ledger.loanCount
    requires tx.command == Poke(k) && tx.elapsed == 0
    requires w.now + w.books.ledger.config.gracePeriodSecs == deadline <= U64_MAX
    ensures RunningOut(Step(w, tx), k, deadline)
  {
    assert HasLoan(w, k);
    PokeAround(w, tx);
    FirstPoke(w, tx, k);
  }

  lemma FirstPokeAt(w: World, tx: Tx, deadline: nat, n: nat, k: nat)
    requires 1 <= k <= n && UnderDeadline(w, deadline, n, k - 1) && tx.command == Poke(k) && tx.elapsed == 0
    ensures UnderDeadline(Step(w, tx), deadline, n, k)
  {
    PokeAround(w, tx);
    PokeKeepsMatured(w, tx);
    StepKeepsRunningOut(w, tx, k - 1, deadline);
    PokedRunsOut(w, tx, k, deadline);
    OneMoreRunsOut(Step(w, tx), k, deadline);
  }

  lemma {:induction false} FirstPokes(w: World, deadline: nat, n: nat, k: nat) returns (next: World)
    requires UnderDeadline(w, deadline, n, 0) && k <= n
    ensures ReachedByPokes(w, next) && UnderDeadline(next, deadline, n, k)
  {
    if k == 0 {
      next := w;
      NoPokes(w);
    } else {
      var before := FirstPokes(w, deadline, n, k - 1);
      var tx := Tx(0, {}, Poke(k));
      next := Step(before, tx);
      OneMorePoke(w, before, tx);
      FirstPokeAt(before, tx, deadline, n, k);
    }
  }

  /** From here every open loan can be run out from time `at`. */
  ghost predicate ReadyAt(w: World, at: nat) {
    && Inv(w) && !w.engine.paused && w.now <= at
    && (forall id :: HasLoan(w, id) ==> Maturity(LoanIn(w, id)) < at)
    && Cranks.DeadlineFits(w.books.ledger.config, at)
  }

  lemma FirstWait(w: World, at: nat) returns (next: World)
    requires ReadyAt(w, at)
    ensures ReachedByPokes(w, next)
    ensures UnderDeadline(next, at + w.books.ledger.config.gracePeriodSecs, w.books.ledger.loanCount, 0)
  {
    next := WaitPasses(w, at - w.now);
    forall id | HasLoan(next, id) ensures Maturity(LoanIn(next, id)) < next.now {
      assert HasLoan(w, id);
    }
  }

  lemma FirstRound(w: World, at: nat) returns (next: World)
    requires ReadyAt(w, at)
    ensures ReachedByPokes(w, next)
    ensures var n := w.books.ledger.loanCount;
            UnderDeadline(next, at + w.books.ledger.config.gracePeriodSecs, n, n)
  {
    var n := w.books.ledger.loanCount;
    var start := FirstWait(w, at);
    next := FirstPokes(start, at + w.books.ledger.config.gracePeriodSecs, n, n);
    ReachedOneByOne(w, start, next);
  }

  // ----- Second round: every loan closed -----

  ghost predicate ClosedTo(w: World, k: nat) {
    forall id :: 1 <= id <= k ==> HasLoan(w, id) && !Open(LoanIn(w, id))
  }

  lemma StepKeepsClosed(w: World, tx: Tx, k: nat)
    requires Inv(w) && ClosedTo(w, k)
    ensures ClosedTo(Step(w, tx), k)
  {
    forall id | 1 <= id <= k ensures HasLoan(Step(w, tx), id) && !Open(LoanIn(Step(w, tx), id)) {
      assert HasLoan(w, id);
      StepOnLoan(w, tx, id);
    }
  }

  /** The deadline has passed, and loans 1 to k of n have been poked since. */
  ghost predicate OutOfTime(w: World, n: nat, k: nat, deadline: nat) {
    && Inv(w) && !w.engine.paused && w.now > deadline && w.books.ledger.loanCount == n
    && RunningOutTo(w, n, deadline) && ClosedTo(w, k)
  }

  lemma OneMoreClosed(w: World, k: nat)
    requires k > 0 && ClosedTo(w, k - 1) && HasLoan(w, k) && !Open(LoanIn(w, k))
    ensures ClosedTo(w, k)
  {
  }

  lemma LastPokeAt(w: World, tx: Tx, n: nat, k: nat, deadline: nat)
    requires 1 <= k <= n && OutOfTime(w, n, k - 1, deadline) && tx.command == Poke(k)
    ensures OutOfTime(Step(w, tx), n, k, deadline)
  {
    PokeAround(w, tx);
    StepKeepsRunningOut(w, tx, n, deadline);
    StepKeepsClosed(w, tx, k - 1);
    assert RunningOut(w, k, deadline);
    LastPoke(w, tx, k, deadline);
    OneMoreClosed(Step(w, tx), k);
  }

  lemma {:induction false} LastPokes(w: World, n: nat, k: nat, deadline: nat) returns (next: World)
    requires OutOfTime(w, n, 0, deadline) && k <= n
    ensures ReachedByPokes(w, next) && OutOfTime(next, n, k, deadline)
  {
    if k == 0 {
      next := w;
      NoPokes(w);
    } else {
      var before := LastPokes(w, n, k - 1, deadline);
      var tx := Tx(0, {}, Poke(k));
      next := Step(before, tx);
      OneMorePoke(w, before, tx);
      LastPokeAt(before, tx, n, k, deadline);
    }
  }

  lemma SecondWait(w: World, deadline: nat, n: nat) returns (next: World)
    requires UnderDeadline(w, deadline, n, n)
    ensures ReachedByPokes(w, next) && OutOfTime(next, n, 0, deadline)
  {
    next := WaitPasses(w, w.books.ledger.config.gracePeriodSecs + 1);
    forall id | 1 <= id <= n ensures RunningOut(next, id, deadline) {
      assert RunningOut(w, id, deadline);
    }
  }

  lemma SecondRound(w: World, deadline: nat, n: nat) returns (next: World)
    requires UnderDeadline(w, deadline, n, n)
    ensures ReachedByPokes(w, next) && OutOfTime(next, n, n, deadline)
  {
    var start := SecondWait(w, deadline, n);
    next := LastPokes(start, n, n, deadline);
    ReachedOneByOne(w, start, next);
  }

  // ----- Everything recovered -----

  /** All of a guarantor's collateral is unlocked, and if the guarantor is not one of the
      contracts they can take it. */
  ghost predicate Recoverable(w: World, g: Address) {
    var collateral := V.VaultOf(w.books.custody.vault, g).collateralBalance;
    && V.Available(w.books.custody.vault, g) == collateral
    && (collateral > 0 && g in External(w, {g}).auth ==> Succeeds(w, Tx(0, {g}, Withdraw(g, collateral))))
  }

  /** Every loan closed, and every guarantor's whole collateral free to withdraw. */
  ghost predicate AllRecoverable(w: World) {
    && (forall id :: HasLoan(w, id) ==> !Open(LoanIn(w, id)))
    && (forall g :: Recoverable(w, g))
  }

  lemma WithdrawSucceeds(w: World, g: Address, amount: int)
    requires V.Withdraw(w.books.custody, External(w, {g}), g, amount).Ok?
    ensures Succeeds(w, Tx(0, {g}, Withdraw(g, amount)))
  {
  }

  lemma ClosedRecovers(w: World, g: Address)
    requires Inv(w) && NoOpenLoan(w, g)
    ensures Recoverable(w, g)
  {
    ClosedLocksNothing(w, g);
    var collateral := V.VaultOf(w.books.custody.vault, g).collateralBalance;
    if collateral > 0 && g in External(w, {g}).auth {
      WithdrawIff(w.books.custody, External(w, {g}), g, collateral);
      WithdrawSucceeds(w, g, collateral);
    }
  }

  lemma AllClosedRecovers(w: World, n: nat, deadline: nat)
    requires OutOfTime(w, n, n, deadline)
    ensures AllRecoverable(w)
  {
    forall g ensures Recoverable(w, g) {
      ClosedRecovers(w, g);
    }
  }

  lemma PokesRecover(w: World, at: nat) returns (end: World)
    requires ReadyAt(w, at)
    ensures ReachedByPokes(w, end) && AllRecoverable(end)
  {
    var n, deadline := w.books.ledger.loanCount, at + w.books.ledger.config.gracePeriodSecs;
    var middle := FirstRound(w, at);
    end := SecondRound(middle, deadline, n);
    ReachedOneByOne(w, middle, end);
    AllClosedRecovers(end, n, deadline);
  }

  /** From any reachable state in which the engine runs, if some time past every maturity
      leaves room for a grace period, there is a run of pokes, which anyone can send, after
      which every loan is closed and every guarantor can withdraw all the collateral left. */
  lemma NothingIsStranded(w0: World, txs: seq<Tx>, at: nat)
    requires Genesis(w0)
    requires var w := Run(w0, txs);
             && !w.engine.paused && w.now <= at
             && (forall id :: HasLoan(w, id) ==> Maturity(LoanIn(w, id)) < at)
    requires at + w0.books.ledger.config.gracePeriodSecs <= U64_MAX
    ensures exists pokes: seq<Tx> :: OnlyPokes(pokes) && AllRecoverable(Run(Run(w0, txs), pokes))
  {
    Reachable(w0, txs);
    var end := PokesRecover(Run(w0, txs), at);
    var pokes: seq<Tx> :| OnlyPokes(pokes) && Run(Run(w0, txs), pokes) == end;
  }
}
