/** What the administration machine means for everyone else: a cancelled change stays
    cancelled, a revoked role stays out, a paused engine stands still, and a score is the one
    the oracle last published. Each holds until the very command that undoes it goes through. */
module Governance {
  import opened Types
  import opened Invariants
  import opened Protocol
  import opened Rules
  import opened Steps
  import opened Administration

  /** The commands that undo a cancellation, a revocation or a pause. */
  datatype Grant = Scheduling | Partnership(partner: Address) | Verification(verifier: Address) | Resumption

  ghost predicate Grants(command: Command, grant: Grant) {
    match grant
    case Scheduling => command.ScheduleAction?
    case Partnership(a) => command.SetPartner? && command.partner == a && command.authorized
    case Verification(a) => command.SetVerifier? && command.verifier == a && command.authorized
    case Resumption => command.SetPaused? && !command.paused
  }

  /** No transaction of the run that would grant it goes through. */
  ghost predicate Ungranted(w: World, txs: seq<Tx>, grant: Grant) {
    txs == []
    || (&& Ungranted(w, txs[..|txs| - 1], grant)
        && (Grants(txs[|txs| - 1].command, grant) ==> !Succeeds(Run(w, txs[..|txs| - 1]), txs[|txs| - 1])))
  }

  /** The state that lasts until the grant. */
  ghost predicate Withheld(c: Controls, grant: Grant) {
    match grant
    case Scheduling => c.scheduled == None
    case Partnership(a) => !Standing(c.partners, a)
    case Verification(a) => !Standing(c.verifiers, a)
    case Resumption => c.paused
  }

  lemma MachineWithholds(c: Controls, now: nat, signers: set<Address>, command: Command, grant: Grant)
    requires Withheld(c, grant) && (Grants(command, grant) ==> !Permitted(c, now, signers, command))
    ensures var next := NextControls(c, now, signers, command);
            Withheld(next, grant) && (grant.Scheduling? ==> next.settlement == c.settlement)
  {
  }

  lemma StepWithholds(w: World, tx: Tx, grant: Grant)
    requires Withheld(ControlsOf(w), grant)
    requires Grants(tx.command, grant) ==> !Succeeds(w, tx)
    ensures Withheld(ControlsOf(Step(w, tx)), grant)
    ensures grant.Scheduling? ==> ControlsOf(Step(w, tx)).settlement == ControlsOf(w).settlement
  {
    StepAdministers(w, tx);
    MachineWithholds(ControlsOf(w), w.now + tx.elapsed, tx.signers, tx.command, grant);
  }

  lemma {:induction false} RunWithholds(w: World, txs: seq<Tx>, grant: Grant)
    requires Withheld(ControlsOf(w), grant) && Ungranted(w, txs, grant)
    ensures Withheld(ControlsOf(Run(w, txs)), grant)
    ensures grant.Scheduling? ==> ControlsOf(Run(w, txs)).settlement == ControlsOf(w).settlement
  {
    if txs != [] {
      RunWithholds(w, txs[..|txs| - 1], grant);
      StepWithholds(Run(w, txs[..|txs| - 1]), txs[|txs| - 1], grant);
    }
  }

  // ----- Cancelling -----

  lemma NothingToExecute(w: World, tx: Tx)
    requires ControlsOf(w).scheduled == None && tx.command.ExecuteAction?
    ensures !Succeeds(w, tx)
    ensures Authorizes(ControlsOf(w), tx.signers, tx.command.admin, w.books.custody.vault.admin) ==>
              Outcome(w, tx) == Err(NoPendingAction)
  {
    StepAdministers(w, tx);
    RefusalsNamed(Arrival(w, tx), tx.signers, tx.command);
  }

  /** The admin can cancel whatever is pending. Until something is scheduled again nothing can
      then be executed, there being nothing pending, and the settlement address stays the one in
      force at the cancellation. */
  lemma CancelledForGood(w: World, cancel: Tx, later: seq<Tx>)
    requires cancel.command.CancelAction?
    ensures Succeeds(w, cancel) <==>
              && cancel.command.admin in cancel.signers && cancel.command.admin !in ControlsOf(w).contracts
              && cancel.command.admin == w.books.custody.vault.admin && w.books.custody.vault.scheduled != None
    ensures Succeeds(w, cancel) && Ungranted(Step(w, cancel), later, Scheduling) ==>
              var end := Run(Step(w, cancel), later);
              && end.books.custody.vault.scheduled == None
              && end.books.custody.vault.settlement == w.books.custody.vault.settlement
              && forall tx: Tx :: tx.command.ExecuteAction? ==>
                   && !Succeeds(end, tx)
                   && (Authorizes(ControlsOf(end), tx.signers, tx.command.admin, end.books.custody.vault.admin) ==>
                         Outcome(end, tx) == Err(NoPendingAction))
  {
    StepAdministers(w, cancel);
    if Succeeds(w, cancel) && Ungranted(Step(w, cancel), later, Scheduling) {
      RunWithholds(Step(w, cancel), later, Scheduling);
      var end := Run(Step(w, cancel), later);
      forall tx: Tx | tx.command.ExecuteAction?
        ensures !Succeeds(end, tx)
        ensures Authorizes(ControlsOf(end), tx.signers, tx.command.admin, end.books.custody.vault.admin) ==>
                  Outcome(end, tx) == Err(NoPendingAction)
      {
        NothingToExecute(end, tx);
      }
    }
  }

  // ----- Revoking -----

  /** The calls that need `p` to be an authorized partner. */
  ghost predicate NeedsPartner(command: Command, p: Address) {
    (command.AttestRepayment? || command.Originate? || command.ReassignPartner?) && command.partner == p
  }

  lemma NotWithoutPartner(w: World, tx: Tx, p: Address)
    requires !Standing(w.books.ledger.partners, p) && NeedsPartner(tx.command, p)
    ensures !Succeeds(w, tx)
  {
  }

  lemma NotWithoutVerifier(w: World, tx: Tx, v: Address)
    requires !Standing(w.books.ledger.verifiers, v) && tx.command.AttestRepayment? && tx.command.verifier == v
    ensures !Succeeds(w, tx)
  {
  }

  /** Until the admin authorizes a revoked partner again, no attestation by it, no loan with it
      and no reassignment to it goes through. */
  lemma RevokedPartnerIsOut(w: World, revoke: Tx, later: seq<Tx>, p: Address, tx: Tx)
    requires revoke.command.SetPartner? && revoke.command.partner == p && !revoke.command.authorized
    requires Succeeds(w, revoke) && Ungranted(Step(w, revoke), later, Partnership(p))
    ensures NeedsPartner(tx.command, p) ==> !Succeeds(Run(Step(w, revoke), later), tx)
  {
    StepAdministers(w, revoke);
    RunWithholds(Step(w, revoke), later, Partnership(p));
    if NeedsPartner(tx.command, p) {
      NotWithoutPartner(Run(Step(w, revoke), later), tx, p);
    }
  }

  /** Until the admin authorizes a revoked verifier again, no attestation with it goes through. */
  lemma RevokedVerifierIsOut(w: World, revoke: Tx, later: seq<Tx>, v: Address, tx: Tx)
    requires revoke.command.SetVerifier? && revoke.command.verifier == v && !revoke.command.authorized
    requires Succeeds(w, revoke) && Ungranted(Step(w, revoke), later, Verification(v))
    ensures tx.command.AttestRepayment? && tx.command.verifier == v ==> !Succeeds(Run(Step(w, revoke), later), tx)
  {
    StepAdministers(w, revoke);
    RunWithholds(Step(w, revoke), later, Verification(v));
    if tx.command.AttestRepayment? && tx.command.verifier == v {
      NotWithoutVerifier(Run(Step(w, revoke), later), tx, v);
    }
  }

  /** Registering or revoking settles the standing of the one address named, in the one role,
      and is what the admin can do to any address but an acting holder of the other role. */
  lemma RegistrationMovesOne(w: World, tx: Tx, a: Address)
    requires tx.command.SetPartner? || tx.command.SetVerifier?
    ensures var s, next := w.books.ledger, Step(w, tx).books.ledger;
            var byAdmin := tx.command.admin in tx.signers && tx.command.admin !in ControlsOf(w).contracts
                           && tx.command.admin == s.admin;
            if tx.command.SetPartner? then
              && (Succeeds(w, tx) <==>
                    byAdmin && (tx.command.authorized ==> !Standing(s.verifiers, tx.command.partner)))
              && next.verifiers == s.verifiers
              && (Standing(next.partners, a) <==>
                    if Succeeds(w, tx) && a == tx.command.partner then tx.command.authorized
                    else Standing(s.partners, a))
            else
              && (Succeeds(w, tx) <==>
                    byAdmin && (tx.command.authorized ==> !Standing(s.partners, tx.command.verifier)))
              && next.partners == s.partners
              && (Standing(next.verifiers, a) <==>
                    if Succeeds(w, tx) && a == tx.command.verifier then tx.command.authorized
                    else Standing(s.verifiers, a))
  {
    StepAdministers(w, tx);
    assert ControlsOf(Step(w, tx)).partners == Step(w, tx).books.ledger.partners;
  }

  // ----- Pausing -----

  lemma PausedEvent(w: World, tx: Tx, id: nat)
    requires w.engine.paused && HasLoan(w, id)
    ensures !EventOn(w, tx, id).Flagged? && !EventOn(w, tx, id).Liquidated?
  {
  }

  /** While the engine is paused a loan is paid, reassigned or left alone. */
  lemma PausedStepKeepsStatus(w: World, tx: Tx, id: nat)
    requires Inv(w) && w.engine.paused && HasLoan(Step(w, tx), id)
    ensures var next := LoanIn(Step(w, tx), id);
            && (next.status.Grace? ==> HasLoan(w, id) && LoanIn(w, id).status.Grace?
                                       && LoanIn(w, id).graceExpiresAt == next.graceExpiresAt)
            && (next.status.Defaulted? ==> HasLoan(w, id) && LoanIn(w, id).status.Defaulted?)
  {
    if HasLoan(w, id) {
      StepOnLoan(w, tx, id);
      PausedEvent(w, tx, id);
    } else {
      StepNewLoan(w, tx, id);
    }
  }

  /** Any loan in grace or default was so already, under the same deadline. */
  ghost predicate NoneFellBehind(before: World, after: World) {
    forall id :: HasLoan(after, id) ==>
      && (LoanIn(after, id).status.Grace? ==>
            HasLoan(before, id) && LoanIn(before, id).status.Grace?
            && LoanIn(before, id).graceExpiresAt == LoanIn(after, id).graceExpiresAt)
      && (LoanIn(after, id).status.Defaulted? ==> HasLoan(before, id) && LoanIn(before, id).status.Defaulted?)
  }

  lemma {:induction false} PausedRun(w: World, txs: seq<Tx>)
    requires Inv(w) && w.engine.paused && Ungranted(w, txs, Resumption)
    ensures Run(w, txs).engine.paused && NoneFellBehind(w, Run(w, txs))
  {
    if txs != [] {
      var before, tx := Run(w, txs[..|txs| - 1]), txs[|txs| - 1];
      PausedRun(w, txs[..|txs| - 1]);
      RunKeepsInv(w, txs[..|txs| - 1]);
      StepWithholds(before, tx, Resumption);
      forall id | HasLoan(Step(before, tx), id)
        ensures LoanIn(Step(before, tx), id).status.Grace? ==>
                  HasLoan(w, id) && LoanIn(w, id).status.Grace?
                  && LoanIn(w, id).graceExpiresAt == LoanIn(Step(before, tx), id).graceExpiresAt
        ensures LoanIn(Step(before, tx), id).status.Defaulted? ==> HasLoan(w, id) && LoanIn(w, id).status.Defaulted?
      {
        PausedStepKeepsStatus(before, tx, id);
      }
    }
  }

  /** A crank sent while the engine is paused. */
  lemma PausedCrank(w: World, tx: Tx)
    requires w.engine.paused
    ensures tx.command.FlagOverdue? || tx.command.Liquidate? ==> !Succeeds(w, tx)
    ensures tx.command.Poke? ==> Step(w, tx) == Arrival(w, tx)
  {
  }

  /** The engine's admin can pause it. Until it is resumed no loan enters grace or default, the
      cranks are refused, and a poke does nothing. */
  lemma PausedStandsStill(w: World, pause: Tx, later: seq<Tx>, tx: Tx)
    requires Reached(w) && pause.command.SetPaused? && pause.command.paused
    ensures Succeeds(w, pause) <==>
              && pause.command.admin in pause.signers && pause.command.admin !in ControlsOf(w).contracts
              && pause.command.admin == w.engine.admin
    ensures Succeeds(w, pause) && Ungranted(Step(w, pause), later, Resumption) ==>
              var end := Run(Step(w, pause), later);
              && NoneFellBehind(Step(w, pause), end)
              && (tx.command.FlagOverdue? || tx.command.Liquidate? ==> !Succeeds(end, tx))
              && (tx.command.Poke? ==> Step(end, tx) == Arrival(end, tx))
  {
    ReachedIsSound(w);
    StepAdministers(w, pause);
    StepKeepsInv(w, pause);
    if Succeeds(w, pause) && Ungranted(Step(w, pause), later, Resumption) {
      assert ControlsOf(Step(w, pause)).paused;
      PausedRun(Step(w, pause), later);
      PausedCrank(Run(Step(w, pause), later), tx);
    }
  }

  // ----- Scores -----

  ghost predicate Publishes(command: Command, h: Handle) {
    command.SetReputation? && command.beneficiary == h
  }

  /** The score last published for the beneficiary in the run, if one was. */
  ghost function LastScore(w: World, txs: seq<Tx>, h: Handle): Option<u32> {
    if txs == [] then None
    else
      var before, tx := Run(w, txs[..|txs| - 1]), txs[|txs| - 1];
      if Publishes(tx.command, h) && Succeeds(before, tx) then Some(tx.command.scoreBps)
      else LastScore(w, txs[..|txs| - 1], h)
  }

  ghost function ScoreOf(w: World, h: Handle): Option<u32> {
    if h in w.books.ledger.reputation then Some(w.books.ledger.reputation[h]) else None
  }

  /** Only the oracle on record can publish a score, of at most 100%. */
  lemma OnlyOracleScores(w: World, tx: Tx)
    requires tx.command.SetReputation?
    ensures Succeeds(w, tx) <==>
              && tx.command.oracle in tx.signers && tx.command.oracle !in ControlsOf(w).contracts
              && w.books.ledger.oracle == Some(tx.command.oracle) && tx.command.scoreBps <= 10_000
  {
    StepAdministers(w, tx);
  }

  lemma MachineScores(c: Controls, now: nat, signers: set<Address>, command: Command, h: Handle)
    ensures var next := NextControls(c, now, signers, command).reputation;
            if Publishes(command, h) && Permitted(c, now, signers, command) then
              h in next && next[h] == command.scoreBps
            else (h in next <==> h in c.reputation) && (h in next ==> next[h] == c.reputation[h])
  {
  }

  lemma StepScores(w: World, tx: Tx, h: Handle)
    ensures ScoreOf(Step(w, tx), h)
         == if Publishes(tx.command, h) && Succeeds(w, tx) then Some(tx.command.scoreBps) else ScoreOf(w, h)
  {
    StepAdministers(w, tx);
    MachineScores(ControlsOf(w), w.now + tx.elapsed, tx.signers, tx.command, h);
  }

  /** A beneficiary's score is the one last published, and none if none was since the start. */
  lemma {:induction false} ScoreIsLastPublished(w: World, txs: seq<Tx>, h: Handle)
    ensures ScoreOf(Run(w, txs), h)
         == if LastScore(w, txs, h).Some? then LastScore(w, txs, h) else ScoreOf(w, h)
  {
    if txs != [] {
      ScoreIsLastPublished(w, txs[..|txs| - 1], h);
      StepScores(Run(w, txs[..|txs| - 1]), txs[|txs| - 1], h);
    }
  }
}
