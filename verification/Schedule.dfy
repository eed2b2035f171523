/** The repayment schedule is a function of money repaid. */
module Schedule {
  import opened Types
  import opened IntDivision
  import opened LoanModel

  /** Installment k is covered exactly when k/n of the principal has been repaid. */
  lemma CoveredIff(repaid: nat, installments: u32, principal: pos, k: int)
    ensures Covered(repaid, installments, principal) >= k <==> repaid * installments >= k * principal
  {
    FloorAtLeast(repaid * installments, principal, k);
  }

  lemma CoveredMono(fewer: nat, more: nat, installments: u32, principal: pos)
    requires fewer <= more
    ensures Covered(fewer, installments, principal) <= Covered(more, installments, principal)
  {
    MulMono(fewer, more, installments);
    FloorMono(fewer * installments, more * installments, principal);
  }

  lemma DueMonotone(start: nat, fewer: nat, more: nat, interval: nat)
    requires fewer <= more
    ensures start + (fewer + 1) * interval <= start + (more + 1) * interval
  {
    MulMono(fewer + 1, more + 1, interval);
  }

  /** An unpaid loan has an installment left to cover; a repaid one has covered them all. */
  lemma CoveredBounds(repaid: nat, installments: u32, principal: pos)
    requires installments > 0 && repaid <= principal
    ensures Covered(repaid, installments, principal) <= installments
    ensures repaid < principal ==> Covered(repaid, installments, principal) < installments
    ensures repaid == principal ==> Covered(repaid, installments, principal) == installments
    ensures AsU32(Covered(repaid, installments, principal)) == Covered(repaid, installments, principal)
  {
    MulMono(repaid, principal, installments);
    CoveredIff(repaid, installments, principal, installments);
    CoveredIff(repaid, installments, principal, installments + 1);
    MulMono(repaid + 1, principal + 1, installments);
    assert (installments + 1) * principal == installments * principal + principal;
    if repaid < principal {
      MulMono(repaid + 1, principal, installments);
    }
  }
}
