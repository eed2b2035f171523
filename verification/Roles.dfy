/** No single key ever holds both halves of an attestation. */
module Roles {
  import opened Types
  import opened Invariants
  import opened Protocol
  import opened Steps
  import Administration
  import L = LedgerModel

  ghost predicate RolesDisjoint(s: L.LedgerState) {
    forall a :: !(L.AuthorizedPartner(s, a) && L.AuthorizedVerifier(s, a))
  }

  ghost predicate SameRoles(before: L.LedgerState, after: L.LedgerState) {
    after.partners == before.partners && after.verifiers == before.verifiers
  }

  lemma SameRolesStayDisjoint(before: L.LedgerState, after: L.LedgerState)
    requires SameRoles(before, after) && RolesDisjoint(before)
    ensures RolesDisjoint(after)
  {
    forall a ensures !(L.AuthorizedPartner(after, a) && L.AuthorizedVerifier(after, a)) {
      assert !(L.AuthorizedPartner(before, a) && L.AuthorizedVerifier(before, a));
    }
  }

  lemma SuccessKeepsRoles(w: World, signers: set<Address>, command: Command)
    requires Execute(w, signers, command).Ok? && !command.SetPartner? && !command.SetVerifier?
    ensures SameRoles(w.books.ledger, Execute(w, signers, command).value.books.ledger)
  {
    var next := Execute(w, signers, command).value;
    if Administration.Administers(command) {
      Administration.AdministrationIsGoverned(w, signers, command);
    } else {
      Administration.SuccessAdministers(w, signers, command);
    }
    assert Administration.ControlsOf(next).partners == Administration.ControlsOf(w).partners;
    assert Administration.ControlsOf(next).verifiers == Administration.ControlsOf(w).verifiers;
  }

  /** Registering an address in one role is refused while it holds the other. */
  lemma RegistrationKeepsDisjoint(w: World, signers: set<Address>, command: Command)
    requires RolesDisjoint(w.books.ledger) && Execute(w, signers, command).Ok?
        && (command.SetPartner? || command.SetVerifier?)
    ensures RolesDisjoint(Execute(w, signers, command).value.books.ledger)
  {
    var s, next := w.books.ledger, Execute(w, signers, command).value.books.ledger;
    forall a ensures !(L.AuthorizedPartner(next, a) && L.AuthorizedVerifier(next, a)) {
      assert !(L.AuthorizedPartner(s, a) && L.AuthorizedVerifier(s, a));
    }
  }

  lemma SuccessKeepsDisjoint(w: World, signers: set<Address>, command: Command)
    requires RolesDisjoint(w.books.ledger) && Execute(w, signers, command).Ok?
    ensures RolesDisjoint(Execute(w, signers, command).value.books.ledger)
  {
    if command.SetPartner? || command.SetVerifier? {
      RegistrationKeepsDisjoint(w, signers, command);
    } else {
      SuccessKeepsRoles(w, signers, command);
      SameRolesStayDisjoint(w.books.ledger, Execute(w, signers, command).value.books.ledger);
    }
  }

  lemma {:induction false} RolesStayDisjoint(w: World, txs: seq<Tx>)
    requires RolesDisjoint(w.books.ledger)
    ensures RolesDisjoint(Run(w, txs).books.ledger)
  {
    if txs != [] {
      var before, tx := Run(w, txs[..|txs| - 1]), txs[|txs| - 1];
      RolesStayDisjoint(w, txs[..|txs| - 1]);
      if Succeeds(before, tx) {
        SuccessKeepsDisjoint(Arrival(before, tx), tx.signers, tx.command);
      }
    }
  }

  /** Every attestation that goes through is signed by two different keys: the loan's own
      partner, who could not have verified it, and a verifier, who is nobody's partner. */
  lemma EveryAttestationHasTwoHalves(w0: World, txs: seq<Tx>, signers: set<Address>,
                                     p: Address, v: Address, id: nat, amount: int)
    requires Genesis(w0) && RolesDisjoint(w0.books.ledger)
    requires Execute(Run(w0, txs), signers, AttestRepayment(p, v, id, amount)).Ok?
    ensures var w := Run(w0, txs);
            && p in signers && v in signers && p != v
            && HasLoan(w, id) && p == LoanIn(w, id).partner
            && L.AuthorizedPartner(w.books.ledger, p) && !L.AuthorizedVerifier(w.books.ledger, p)
            && L.AuthorizedVerifier(w.books.ledger, v) && !L.AuthorizedPartner(w.books.ledger, v)
  {
    var w := Run(w0, txs);
    Reachable(w0, txs);
    RolesStayDisjoint(w0, txs);
    AttestIff(w.books, External(w, signers), p, v, id, amount);
  }
}
