/** Reading the ledger page by page yields every loan once, in order. */
module Pagination {
  import opened Types
  import opened LoanModel
  import opened Invariants
  import opened LoanLedger
  import opened Protocol
  import opened Steps
  import L = LedgerModel

  function Stride(limit: u32): nat {
    if limit < PAGE_LIMIT then limit else PAGE_LIMIT
  }

  /** Pages of `limit`, each starting where the last one ended, until one comes back empty. */
  ghost function ReadFrom(s: L.LedgerState, startId: nat, limit: u32): seq<Loan>
    requires limit >= 1
    decreases s.loanCount + 1 - startId
  {
    if startId > s.loanCount then Page(s, startId, limit)
    else Page(s, startId, limit) + ReadFrom(s, startId + Stride(limit), limit)
  }

  lemma {:induction false} CollectDense(s: L.LedgerState, first: nat, end: nat)
    requires IdsDense(s) && 1 <= first <= end <= s.loanCount + 1
    ensures |Collect(s.loans, first, end)| == end - first
    ensures forall k :: 0 <= k < end - first ==> Collect(s.loans, first, end)[k] == s.loans[first + k]
  {
    if first < end {
      CollectDense(s, first, end - 1);
    }
  }

  lemma {:induction false} ReadFromYields(s: L.LedgerState, startId: nat, limit: u32)
    requires IdsDense(s) && limit >= 1 && 1 <= startId <= s.loanCount + 1
    ensures |ReadFrom(s, startId, limit)| == s.loanCount + 1 - startId
    ensures forall k :: 0 <= k < s.loanCount + 1 - startId ==> ReadFrom(s, startId, limit)[k] == s.loans[startId + k]
    decreases s.loanCount + 1 - startId
  {
    if startId <= s.loanCount {
      var next := startId + Stride(limit);
      if next < s.loanCount + 1 {
        CollectDense(s, startId, next);
        ReadFromYields(s, next, limit);
      } else {
        CollectDense(s, startId, s.loanCount + 1);
        assert ReadFrom(s, next, limit) == [];
      }
    }
  }

  ghost predicate ListsEveryLoan(s: L.LedgerState, limit: u32)
    requires limit >= 1
  {
    && |ReadFrom(s, 1, limit)| == s.loanCount
    && forall k: nat :: k < s.loanCount ==>
         && 1 + k in s.loans
         && ReadFrom(s, 1, limit)[k] == s.loans[1 + k] && ReadFrom(s, 1, limit)[k].id == 1 + k
  }

  /** After any run, paging from id 1 with any positive limit lists loans 1 to the count, each
      exactly once and in id order. */
  lemma PagesListEveryLoanOnce(w0: World, txs: seq<Tx>, limit: u32)
    requires Genesis(w0) && limit >= 1
    ensures ListsEveryLoan(Run(w0, txs).books.ledger, limit)
  {
    Reachable(w0, txs);
    ReadFromYields(Run(w0, txs).books.ledger, 1, limit);
  }

  /** The loans from `startId` on, as many as asked for, but at most 50 and none past the last. */
  ghost predicate PageIs(s: L.LedgerState, startId: nat, limit: u32, page: seq<Loan>) {
    && |page| <= limit && |page| <= 50 && |page| <= s.loanCount + 1 - startId
    && (|page| == limit || |page| == 50 || |page| == s.loanCount + 1 - startId)
    && forall k: nat :: k < |page| ==> startId + k in s.loans && page[k] == s.loans[startId + k]
  }

  lemma PageOf(s: L.LedgerState, startId: nat, limit: u32)
    requires IdsDense(s) && limit >= 1
    ensures Page(s, startId, limit) == [] <==> startId == 0 || startId > s.loanCount
    ensures 1 <= startId <= s.loanCount ==> PageIs(s, startId, limit, Page(s, startId, limit))
  {
    if 1 <= startId <= s.loanCount {
      var next := startId + Stride(limit);
      CollectDense(s, startId, if next < s.loanCount + 1 then next else s.loanCount + 1);
    }
  }

  /** After any run, a page that starts past the last loan, or at the unused id 0, is empty; any
      other holds the loans from the one asked for on, up to the smallest of `limit`, 50 and the
      loans there are. */
  lemma PageShape(w0: World, txs: seq<Tx>, startId: nat, limit: u32)
    requires Genesis(w0) && limit >= 1
    ensures var s := Run(w0, txs).books.ledger;
            var page := Page(s, startId, limit);
            && (page == [] <==> startId == 0 || startId > s.loanCount)
            && (1 <= startId <= s.loanCount ==> PageIs(s, startId, limit, page))
  {
    Reachable(w0, txs);
    PageOf(Run(w0, txs).books.ledger, startId, limit);
  }
}
