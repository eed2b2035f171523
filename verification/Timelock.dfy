/** Where forfeited collateral goes can change only slowly and in plain sight. */
module Timelock {
  import opened Types
  import opened LoanModel
  import opened TokenLedger
  import opened Invariants
  import opened Protocol
  import opened Steps
  import Administration
  import V = VaultModel
  import L = LedgerModel
  import E = EngineModel

  function Vault(w: World): V.VaultState {
    w.books.custody.vault
  }

  // ----- One transaction -----

  ghost predicate Keeps(before: World, after: World) {
    && Vault(after).scheduled == Vault(before).scheduled
    && Vault(after).settlement == Vault(before).settlement
  }

  ghost predicate Schedules(before: World, after: World) {
    && Vault(before).scheduled.None? && Vault(after).scheduled.Some?
    && Vault(after).scheduled.value.eta == after.now + Vault(before).timelockSecs
    && Vault(after).settlement == Vault(before).settlement
  }

  ghost predicate Cancels(before: World, after: World) {
    && Vault(before).scheduled.Some? && Vault(after).scheduled.None?
    && Vault(after).settlement == Vault(before).settlement
  }

  ghost predicate Executes(before: World, after: World) {
    && Vault(before).scheduled.Some? && Vault(after).scheduled.None?
    && Vault(before).scheduled.value.action == V.SetSettlement(Vault(after).settlement)
    && after.now >= Vault(before).scheduled.value.eta
  }

  ghost predicate Moves(before: World, after: World) {
    && before.now <= after.now
    && Vault(after).timelockSecs == Vault(before).timelockSecs
    && (Keeps(before, after) || Schedules(before, after) || Cancels(before, after) || Executes(before, after))
  }

  /** Outside the timelock's own entry points a custody change touches positions and tokens only. */
  ghost predicate SameControls(before: V.Custody, after: V.Custody) {
    after.vault == before.vault.(vaults := after.vault.vaults)
  }

  lemma CrankKeepsControls(w: World, signers: set<Address>, command: Command)
    requires Execute(w, signers, command).Ok? && (command.Liquidate? || command.Poke?)
    ensures SameControls(w.books.custody, Execute(w, signers, command).value.books.custody)
  {
    if command.Poke? {
      Administration.PokeKeepsSettings(w.engine, w.books, External(w, signers), command.loanId);
    } else {
      Administration.LiquidationKeepsSettings(w.engine, w.books, External(w, signers), command.loanId);
    }
  }

  lemma LoanCommandKeepsControls(w: World, signers: set<Address>, command: Command)
    requires Execute(w, signers, command).Ok?
    requires command.Originate? || command.AttestRepayment? || command.FlagOverdue? || command.ReassignPartner?
    ensures SameControls(w.books.custody, Execute(w, signers, command).value.books.custody)
  {
  }

  lemma RestKeepControls(w: World, signers: set<Address>, command: Command)
    requires Execute(w, signers, command).Ok? && TouchesNoLoan(command)
    requires !command.ScheduleAction? && !command.ExecuteAction? && !command.CancelAction?
    requires !command.SetLoanLedger? && !command.SetVaultEngine?
    ensures SameControls(w.books.custody, Execute(w, signers, command).value.books.custody)
  {
  }

  lemma SuccessKeepsControls(w: World, signers: set<Address>, command: Command)
    requires Wired(w) && Execute(w, signers, command).Ok?
    requires !command.ScheduleAction? && !command.ExecuteAction? && !command.CancelAction?
    ensures SameControls(w.books.custody, Execute(w, signers, command).value.books.custody)
  {
    if command.Liquidate? || command.Poke? {
      CrankKeepsControls(w, signers, command);
    } else if command.SetLoanLedger? || command.SetVaultEngine? {
      RewiringRefused(w, signers, command);
    } else if TouchesNoLoan(command) {
      RestKeepControls(w, signers, command);
    } else {
      LoanCommandKeepsControls(w, signers, command);
    }
  }

  lemma StepMoves(w: World, tx: Tx)
    requires Inv(w)
    ensures Moves(w, Step(w, tx))
  {
    TimePasses(w, tx);
    StepKeepsInv(w, tx);
    if Succeeds(w, tx) && !tx.command.ScheduleAction? && !tx.command.ExecuteAction? && !tx.command.CancelAction? {
      SuccessKeepsControls(Arrival(w, tx), tx.signers, tx.command);
    }
  }

  // ----- Over a history -----

  ghost predicate Chain(h: seq<World>) {
    forall k: nat :: k + 1 < |h| ==> Moves(h[k], h[k + 1])
  }

  lemma {:induction false} TimeOnlyAdvances(h: seq<World>, i: nat, j: nat)
    requires Chain(h) && i <= j < |h|
    ensures h[i].now <= h[j].now && Vault(h[i]).timelockSecs == Vault(h[j]).timelockSecs
  {
    if i < j {
      TimeOnlyAdvances(h, i, j - 1);
      assert Moves(h[j - 1], h[j - 1 + 1]);
    }
  }

  /** The action pending in world j was scheduled between worlds i and i + 1, to wait out the
      timelock from then, and nothing cancelled or replaced it up to j. */
  ghost predicate PendingSince(h: seq<World>, i: nat, j: nat)
    requires j < |h|
  {
    && i < j
    && Vault(h[i]).scheduled.None? && Vault(h[j]).scheduled.Some?
    && Vault(h[j]).scheduled.value.eta == h[i + 1].now + Vault(h[i]).timelockSecs
    && forall m :: i < m <= j ==> Vault(h[m]).scheduled == Vault(h[j]).scheduled
  }

  /** The action pending in world j was already pending at the start. */
  ghost predicate PendingFromStart(h: seq<World>, j: nat)
    requires j < |h|
  {
    Vault(h[0]).scheduled.Some? && forall m :: 0 <= m <= j ==> Vault(h[m]).scheduled == Vault(h[0]).scheduled
  }

  lemma {:induction false} PendingHasOrigin(h: seq<World>, j: nat)
    requires Chain(h) && j < |h| && Vault(h[j]).scheduled.Some?
    ensures PendingFromStart(h, j) || exists i: nat :: PendingSince(h, i, j)
  {
    if j > 0 {
      assert Moves(h[j - 1], h[j - 1 + 1]);
      if Schedules(h[j - 1], h[j]) {
        assert PendingSince(h, j - 1, j);
      } else {
        PendingHasOrigin(h, j - 1);
        if !PendingFromStart(h, j - 1) {
          var i: nat :| PendingSince(h, i, j - 1);
          assert PendingSince(h, i, j);
        }
      }
    }
  }

  /** The settlement address in world k was scheduled at i, waited at least the timelock
      without being cancelled, took effect at j, and has stood since. */
  ghost predicate SettledSince(h: seq<World>, i: nat, j: nat, k: nat)
    requires k < |h|
  {
    && i < j < k
    && PendingSince(h, i, j)
    && Vault(h[j]).scheduled.value.action == V.SetSettlement(Vault(h[k]).settlement)
    && h[j + 1].now >= h[i + 1].now + Vault(h[0]).timelockSecs
    && forall m :: j < m <= k ==> Vault(h[m]).settlement == Vault(h[k]).settlement
  }

  /** The settlement address in world k is the one already pending at the start. It took
      effect at j, when that was due, and has stood since. */
  ghost predicate SettledFromStart(h: seq<World>, j: nat, k: nat)
    requires k < |h|
  {
    && j < k
    && PendingFromStart(h, j)
    && Vault(h[0]).scheduled.value.action == V.SetSettlement(Vault(h[k]).settlement)
    && h[j + 1].now >= Vault(h[0]).scheduled.value.eta
    && forall m :: j < m <= k ==> Vault(h[m]).settlement == Vault(h[k]).settlement
  }

  /** Where the settlement address in world k comes from. */
  ghost predicate SettlementEarned(h: seq<World>, k: nat)
    requires k < |h|
  {
    || Vault(h[k]).settlement == Vault(h[0]).settlement
    || (exists j: nat :: SettledFromStart(h, j, k))
    || (exists i: nat, j: nat :: SettledSince(h, i, j, k))
  }

  lemma ExecutedIsEarned(h: seq<World>, k: nat)
    requires Chain(h) && 0 < k < |h| && Executes(h[k - 1], h[k])
    ensures SettlementEarned(h, k)
  {
    PendingHasOrigin(h, k - 1);
    if PendingFromStart(h, k - 1) {
      assert SettledFromStart(h, k - 1, k);
    } else {
      var i: nat :| PendingSince(h, i, k - 1);
      TimeOnlyAdvances(h, 0, i);
      assert SettledSince(h, i, k - 1, k);
    }
  }

  lemma EarnedStands(h: seq<World>, k: nat)
    requires 0 < k < |h| && Vault(h[k]).settlement == Vault(h[k - 1]).settlement && SettlementEarned(h, k - 1)
    ensures SettlementEarned(h, k)
  {
    var last := k - 1;
    if j: nat :| SettledFromStart(h, j, last) {
      assert SettledFromStart(h, j, k);
    } else if i: nat, j: nat :| SettledSince(h, i, j, last) {
      assert SettledSince(h, i, j, k);
    }
  }

  lemma {:induction false} SettlementHasOrigin(h: seq<World>, k: nat)
    requires Chain(h) && k < |h|
    ensures SettlementEarned(h, k)
  {
    if k > 0 {
      assert Moves(h[k - 1], h[k - 1 + 1]);
      if Executes(h[k - 1], h[k]) {
        ExecutedIsEarned(h, k);
      } else {
        SettlementHasOrigin(h, k - 1);
        EarnedStands(h, k);
      }
    }
  }

  lemma HistoryMoves(w0: World, txs: seq<Tx>, k: nat)
    requires Genesis(w0) && k < |txs|
    ensures Moves(At(w0, txs, k), At(w0, txs, k + 1))
  {
    AtNext(w0, txs, k);
    Reachable(w0, txs[..k]);
    StepMoves(At(w0, txs, k), txs[k]);
  }

  lemma HistoryIsChain(w0: World, txs: seq<Tx>)
    requires Genesis(w0)
    ensures Chain(History(w0, txs)) && History(w0, txs)[0] == w0
  {
    var h := History(w0, txs);
    AtEnds(w0, txs);
    forall k: nat | k + 1 < |h| ensures Moves(h[k], h[k + 1]) {
      HistoryMoves(w0, txs, k);
    }
  }

  /** At all times the settlement address is the one the run began with, the one pending
      when it began, or one scheduled during the run at least the timelock before it took
      effect and not cancelled in between. */
  lemma SettlementIsTimelocked(w0: World, txs: seq<Tx>, k: nat)
    requires Genesis(w0) && k <= |txs|
    ensures var h := History(w0, txs);
            h[0] == w0 && SettlementEarned(h, k)
  {
    HistoryIsChain(w0, txs);
    SettlementHasOrigin(History(w0, txs), k);
  }

  /** The change a transaction scheduled is still pending. */
  ghost predicate StillPending(scheduling: World, later: World, address: Address) {
    && Vault(scheduling).scheduled.Some? && Vault(scheduling).scheduled.value.action == V.SetSettlement(address)
    && Vault(later).scheduled == Vault(scheduling).scheduled
  }

  lemma {:induction false} RunKeepsTimelock(w0: World, txs: seq<Tx>)
    requires Genesis(w0)
    ensures Vault(Run(w0, txs)).timelockSecs == Vault(w0).timelockSecs
  {
    if txs != [] {
      RunKeepsTimelock(w0, txs[..|txs| - 1]);
      Reachable(w0, txs[..|txs| - 1]);
      StepMoves(Run(w0, txs[..|txs| - 1]), txs[|txs| - 1]);
    }
  }

  lemma ScheduledDue(w: World, tx: Tx)
    requires tx.command.ScheduleAction? && Succeeds(w, tx)
    ensures Vault(Step(w, tx)).scheduled
         == Some(V.ScheduledAction(tx.command.action, Step(w, tx).now + Vault(w).timelockSecs))
  {
  }

  lemma ExecuteIff(w: World, tx: Tx, address: Address)
    requires tx.command == ExecuteAction(Vault(w).admin) && Vault(w).admin in External(w, tx.signers).auth
    requires Vault(w).scheduled.Some? && Vault(w).scheduled.value.action == V.SetSettlement(address)
    ensures var due := w.now + tx.elapsed >= Vault(w).scheduled.value.eta;
            && (Succeeds(w, tx) <==> due)
            && (due ==> Vault(Step(w, tx)) == Vault(w).(settlement := address, scheduled := None))
  {
  }

  /** A change that is scheduled can take effect: for as long as it is pending, the admin
      can execute it exactly once the timelock has passed since, which puts the address in
      force and leaves the slot empty. */
  lemma ScheduledTakesEffect(w0: World, before: seq<Tx>, schedule: Tx, between: seq<Tx>, execute: Tx, address: Address)
    requires Genesis(w0) && schedule.command.ScheduleAction? && Succeeds(Run(w0, before), schedule)
    requires var scheduled := Step(Run(w0, before), schedule);
             StillPending(scheduled, Run(scheduled, between), address)
    requires var later := Run(Step(Run(w0, before), schedule), between);
             && execute.command == ExecuteAction(Vault(later).admin)
             && Vault(later).admin in External(later, execute.signers).auth
    ensures var scheduled := Step(Run(w0, before), schedule);
            var later := Run(scheduled, between);
            var due := later.now + execute.elapsed >= scheduled.now + Vault(w0).timelockSecs;
            && (Succeeds(later, execute) <==> due)
            && (due ==> Vault(Step(later, execute)) == Vault(later).(settlement := address, scheduled := None))
  {
    var w := Run(w0, before);
    var scheduled := Step(w, schedule);
    Reachable(w0, before);
    StepKeepsInv(w, schedule);
    RunKeepsTimelock(w0, before);
    ScheduledDue(w, schedule);
    ExecuteIff(Run(scheduled, between), execute, address);
  }

  ghost predicate ChangesAt(h: seq<World>, k: nat)
    requires k + 1 < |h|
  {
    Vault(h[k]).settlement != Vault(h[k + 1]).settlement
  }

  /** Whatever is pending after a change was scheduled after it. */
  lemma PendingIsNewer(h: seq<World>, first: nat, second: nat) returns (i: nat)
    requires Chain(h) && first < second && second + 1 < |h| && ChangesAt(h, first)
    requires Vault(h[second]).scheduled.Some?
    ensures first < i && PendingSince(h, i, second)
  {
    assert Moves(h[first], h[first + 1]);
    PendingHasOrigin(h, second);
    assert Vault(h[first + 1]).scheduled.None?;
    i :| PendingSince(h, i, second);
  }

  lemma ChangesApart(h: seq<World>, first: nat, second: nat)
    requires Chain(h) && first < second && second + 1 < |h| && ChangesAt(h, first) && ChangesAt(h, second)
    ensures h[second + 1].now >= h[first + 1].now + Vault(h[0]).timelockSecs
  {
    assert Moves(h[second], h[second + 1]);
    var i := PendingIsNewer(h, first, second);
    TimeOnlyAdvances(h, 0, i);
    TimeOnlyAdvances(h, first + 1, i + 1);
  }

  /** Two changes of the settlement address are at least the timelock apart. */
  lemma ChangesAreFarApart(w0: World, txs: seq<Tx>, first: nat, second: nat)
    requires Genesis(w0) && first < second < |txs|
    requires ChangesAt(History(w0, txs), first) && ChangesAt(History(w0, txs), second)
    ensures var h := History(w0, txs);
            h[second + 1].now >= h[first + 1].now + Vault(w0).timelockSecs
  {
    HistoryIsChain(w0, txs);
    ChangesApart(History(w0, txs), first, second);
  }

  /** Every liquidation, called for or made by `poke`, pays what it forfeits to the settlement
      address in force at that moment. */
  lemma ForfeituresPayTheAddressInForce(w0: World, txs: seq<Tx>, tx: Tx, id: nat)
    requires Genesis(w0)
    requires var w := Run(w0, txs); HasLoan(w, id) && EventOn(w, tx, id).Liquidated?
    ensures var w, next := Run(w0, txs), Step(Run(w0, txs), tx);
            var forfeited := E.Forfeited(LoanIn(w, id));
            var before, after := w.books.custody.balances, next.books.custody.balances;
            && forfeited > 0
            && Vault(next).settlement == Vault(w).settlement
            && Move(before, Vault(w).self, Vault(w).settlement, forfeited) == Ok(after)
            && (Vault(w).settlement != Vault(w).self ==>
                  BalanceOf(after, Vault(w).settlement) == BalanceOf(before, Vault(w).settlement) + forfeited)
  {
    var w := Run(w0, txs);
    Reachable(w0, txs);
    StepLiquidates(w, tx, id);
  }
}
