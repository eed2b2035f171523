/** Splitting a repayment into parts changes nothing that matters. */
module Batching {
  import opened Types
  import opened LoanModel
  import opened Invariants
  import opened Protocol
  import Steps
  import opened Overflow
  import Curve
  import Schedule
  import V = VaultModel
  import L = LedgerModel

  /** A repayment attested at a ledger time. */
  datatype Payment = Payment(now: nat, amount: int)

  ghost function Sum(payments: seq<Payment>): int {
    if payments == [] then 0 else payments[0].amount + Sum(payments[1..])
  }

  ghost predicate AllAt(payments: seq<Payment>, now: nat) {
    forall i :: 0 <= i < |payments| ==> payments[i].now == now
  }

  ghost predicate AllPositive(payments: seq<Payment>) {
    forall i :: 0 <= i < |payments| ==> payments[i].amount > 0
  }

  lemma SumPositive(payments: seq<Payment>)
    requires payments != [] && AllPositive(payments)
    ensures Sum(payments) > 0
  {
    if |payments| > 1 {
      SumPositive(payments[1..]);
    }
  }

  ghost function Add<T>(released: int, rest: Result<(T, int)>): Result<(T, int)> {
    var (state, total) :- rest;
    Ok((state, released + total))
  }

  /** The attestations one after the other, and everything they return, added up. */
  ghost function AttestAll(b: L.Books, env: Env, p: Address, v: Address,
                           id: nat, payments: seq<Payment>): Result<(L.Books, int)>
    decreases |payments|
  {
    if payments == [] then Ok((b, 0))
    else
      var (first, released) :- L.AttestRepayment(b, env.(now := payments[0].now), p, v, id, payments[0].amount);
      Add(released, AttestAll(first, env, p, v, id, payments[1..]))
  }

  /** Equal but for whether an open loan is Active or in Grace, and for the due date left
      behind on a closed one. */
  ghost predicate SameMoney(x: Loan, y: Loan) {
    && x == y.(nextDue := x.nextDue, status := x.status, graceExpiresAt := x.graceExpiresAt)
    && Open(x) == Open(y)
    && (Open(x) ==> x.nextDue == y.nextDue)
    && (!Open(x) ==> x.status == y.status && x.graceExpiresAt == y.graceExpiresAt)
  }

  /** Equal but for the due date left behind on a closed loan. */
  ghost predicate SameLoan(x: Loan, y: Loan) {
    SameMoney(x, y) && (Open(x) ==> x == y)
  }

  ghost predicate SameBooks(x: L.Books, y: L.Books, id: nat) {
    && id in x.ledger.loans && id in y.ledger.loans
    && x == y.(ledger := y.ledger.(loans := y.ledger.loans[id := x.ledger.loans[id]]))
  }

  ghost function EarnedAt(loan: Loan, cfg: Config, repaid: nat): nat {
    if repaid >= loan.principalUsd then loan.collateralLocked
    else
      Curve.NonNegative(loan.collateralLocked, repaid, loan.principalUsd, cfg.safetyBufferBps);
      ReleaseCurve(loan.collateralLocked, repaid, loan.principalUsd, cfg.safetyBufferBps)
  }

  /** The record once `repaid` has been repaid in all, by a payment at `now`: it depends on
      what was there before only through the terms, and through the status if still behind. */
  ghost function Credited(loan: Loan, cfg: Config, now: nat, repaid: nat): Loan {
    var paid := AsU32(Covered(repaid, loan.installmentCount, loan.principalUsd));
    var due := loan.originatedAt + (paid + 1) * loan.intervalSecs;
    var money :=
      loan.(totalRepaidUsd := repaid, installmentsPaid := paid, collateralReleased := EarnedAt(loan, cfg, repaid));
    if repaid >= loan.principalUsd then money.(status := Repaid, graceExpiresAt := 0)
    else if now <= due then money.(nextDue := due, status := Active, graceExpiresAt := 0)
    else money.(nextDue := due)
  }

  lemma RepayIsCredited(loan: Loan, cfg: Config, now: nat, amount: pos)
    requires MoneySound(loan, cfg) && Open(loan) && loan.totalRepaidUsd + amount <= loan.principalUsd
    ensures var repaid := loan.totalRepaidUsd + amount;
            Repay(loan, cfg, now, amount)
            == (Credited(loan, cfg, now, repaid), EarnedAt(loan, cfg, repaid) - loan.collateralReleased)
  {
    RepayKeepsMoney(loan, cfg, now, amount);
  }

  lemma CreditTwice(loan: Loan, cfg: Config, t1: nat, t: nat, r1: nat, r2: nat)
    requires r1 <= r2 <= loan.principalUsd && r1 < loan.principalUsd && Open(loan) && loan.installmentCount > 0
    ensures var twice, merged := Credited(Credited(loan, cfg, t1, r1), cfg, t, r2), Credited(loan, cfg, t, r2);
            && Open(Credited(loan, cfg, t1, r1))
            && SameMoney(twice, merged)
            && (t1 == t ==> SameLoan(twice, merged))
  {
    Schedule.CoveredMono(r1, r2, loan.installmentCount, loan.principalUsd);
    Schedule.CoveredBounds(r1, loan.installmentCount, loan.principalUsd);
    Schedule.CoveredBounds(r2, loan.installmentCount, loan.principalUsd);
    Schedule.DueMonotone(loan.originatedAt, Covered(r1, loan.installmentCount, loan.principalUsd),
                         Covered(r2, loan.installmentCount, loan.principalUsd), loan.intervalSecs);
  }

  // ----- On the loan's record -----

  /** A payment that goes through however it is split: one that leaves the loan open, or
      one that closes a loan on which no payment overflows. */
  ghost predicate Splittable(loan: Loan, cfg: Config, amount: int) {
    Repayable(loan, cfg, amount) && (amount < Outstanding(loan) || FitsFrom(loan, cfg))
  }

  ghost function RepayAll(loan: Loan, cfg: Config, payments: seq<Payment>): Result<(Loan, int)>
    decreases |payments|
  {
    if payments == [] then Ok((loan, 0))
    else if !Repayable(loan, cfg, payments[0].amount) then Err(Overpayment)
    else
      var (next, released) := Repay(loan, cfg, payments[0].now, payments[0].amount);
      Add(released, RepayAll(next, cfg, payments[1..]))
  }

  /** The outcome of a batch is that of one payment of `amount` at `now`, if there is one. */
  ghost predicate LikeOne(loan: Loan, cfg: Config, now: nat, amount: int,
                          outcome: Result<(Loan, int)>, sameTime: bool)
  {
    && (outcome.Ok? ==> Repayable(loan, cfg, amount))
    && (Splittable(loan, cfg, amount) ==> outcome.Ok?)
    && (outcome.Ok? ==>
          var merged := Credited(loan, cfg, now, loan.totalRepaidUsd + amount);
          && outcome.value.1 == EarnedAt(loan, cfg, loan.totalRepaidUsd + amount) - loan.collateralReleased
          && SameMoney(outcome.value.0, merged)
          && (sameTime ==> SameLoan(outcome.value.0, merged)))
  }

  lemma OneIsLikeOne(loan: Loan, cfg: Config, now: nat, payment: Payment)
    requires MoneySound(loan, cfg) && payment.amount > 0
    ensures LikeOne(loan, cfg, now, payment.amount, RepayAll(loan, cfg, [payment]), payment.now == now)
  {
    if Repayable(loan, cfg, payment.amount) {
      RepayIsCredited(loan, cfg, payment.now, payment.amount);
      assert RepayAll(Repay(loan, cfg, payment.now, payment.amount).0, cfg, [payment][1..]).Ok?;
    }
  }

  /** The first part of a splittable payment goes through, and leaves the rest splittable. */
  lemma FirstPart(loan: Loan, cfg: Config, now: nat, first: pos, rest: pos)
    requires MoneySound(loan, cfg) && Splittable(loan, cfg, first + rest)
    ensures Repayable(loan, cfg, first)
    ensures Splittable(Repay(loan, cfg, now, first).0, cfg, rest)
  {
    var part, whole := loan.totalRepaidUsd + first, loan.totalRepaidUsd + first + rest;
    if whole < loan.principalUsd {
      FitsMono(loan, cfg, part, whole);
    } else {
      AllFitIff(loan, cfg);
    }
    RepayKeepsMoney(loan, cfg, now, first);
    var next := Repay(loan, cfg, now, first).0;
    if FitsFrom(loan, cfg) {
      FitsLater(loan, next, cfg);
    }
  }

  lemma OneMoreCredit(loan: Loan, cfg: Config, now: nat, first: Payment, x: pos, tail: (Loan, int), sameTime: bool)
    requires MoneySound(loan, cfg) && Repayable(loan, cfg, first.amount)
    requires var next := Repay(loan, cfg, first.now, first.amount).0;
             Repayable(next, cfg, x) && LikeOne(next, cfg, now, x, Ok(tail), sameTime)
    ensures Repayable(loan, cfg, first.amount + x)
    ensures var r2 := loan.totalRepaidUsd + first.amount + x;
            var released := Repay(loan, cfg, first.now, first.amount).1 + tail.1;
            && released == EarnedAt(loan, cfg, r2) - loan.collateralReleased
            && SameMoney(tail.0, Credited(loan, cfg, now, r2))
            && (sameTime && first.now == now ==> SameLoan(tail.0, Credited(loan, cfg, now, r2)))
  {
    var r1 := loan.totalRepaidUsd + first.amount;
    RepayIsCredited(loan, cfg, first.now, first.amount);
    CreditTwice(loan, cfg, first.now, now, r1, r1 + x);
  }

  /** One more payment in front of a batch that is like one payment of x. */
  lemma OneMore(loan: Loan, cfg: Config, now: nat, first: Payment, x: pos, tail: Result<(Loan, int)>, sameTime: bool)
    requires MoneySound(loan, cfg) && Repayable(loan, cfg, first.amount)
    requires LikeOne(Repay(loan, cfg, first.now, first.amount).0, cfg, now, x, tail, sameTime)
    ensures LikeOne(loan, cfg, now, first.amount + x, Add(Repay(loan, cfg, first.now, first.amount).1, tail),
                    sameTime && first.now == now)
  {
    if Splittable(loan, cfg, first.amount + x) {
      FirstPart(loan, cfg, first.now, first.amount, x);
    }
    if tail.Ok? {
      OneMoreCredit(loan, cfg, now, first, x, tail.value, sameTime);
    }
  }

  lemma AllAtSplits(payments: seq<Payment>, now: nat)
    requires payments != []
    ensures AllAt(payments, now) <==> AllAt(payments[1..], now) && payments[0].now == now
  {
    if AllAt(payments[1..], now) {
      assert forall i :: 1 <= i < |payments| ==> payments[i] == payments[1..][i - 1];
    }
  }

  /** If the first part does not go through, neither does the whole freely. */
  lemma FirstRefused(loan: Loan, cfg: Config, now: nat, payments: seq<Payment>)
    requires MoneySound(loan, cfg) && |payments| > 1 && AllPositive(payments)
    requires !Repayable(loan, cfg, payments[0].amount)
    ensures LikeOne(loan, cfg, now, Sum(payments), RepayAll(loan, cfg, payments), AllAt(payments, now))
  {
    SumPositive(payments[1..]);
    if Splittable(loan, cfg, Sum(payments)) {
      FirstPart(loan, cfg, now, payments[0].amount, Sum(payments[1..]));
      assert false;
    }
  }

  /** If the first part goes through, and the rest is like one payment of its sum, so is the whole. */
  lemma FirstAccepted(loan: Loan, cfg: Config, now: nat, payments: seq<Payment>)
    requires MoneySound(loan, cfg) && |payments| > 1 && AllPositive(payments)
    requires Repayable(loan, cfg, payments[0].amount)
    requires var next := Repay(loan, cfg, payments[0].now, payments[0].amount).0;
             LikeOne(next, cfg, now, Sum(payments[1..]), RepayAll(next, cfg, payments[1..]), AllAt(payments[1..], now))
    ensures LikeOne(loan, cfg, now, Sum(payments), RepayAll(loan, cfg, payments), AllAt(payments, now))
  {
    var first, rest := payments[0], payments[1..];
    var tail := RepayAll(Repay(loan, cfg, first.now, first.amount).0, cfg, rest);
    SumPositive(rest);
    OneMore(loan, cfg, now, first, Sum(rest), tail, AllAt(rest, now));
    AllAtSplits(payments, now);
  }

  lemma {:induction false} BatchIsLikeOne(loan: Loan, cfg: Config, now: nat, payments: seq<Payment>)
    requires MoneySound(loan, cfg) && payments != [] && AllPositive(payments)
    ensures LikeOne(loan, cfg, now, Sum(payments), RepayAll(loan, cfg, payments), AllAt(payments, now))
    decreases |payments|
  {
    var first, rest := payments[0], payments[1..];
    if rest == [] {
      assert payments == [first];
      OneIsLikeOne(loan, cfg, now, first);
    } else {
      SumPositive(rest);
      if Repayable(loan, cfg, first.amount) {
        RepayKeepsMoney(loan, cfg, first.now, first.amount);
        var next := Repay(loan, cfg, first.now, first.amount).0;
        BatchIsLikeOne(next, cfg, now, rest);
        FirstAccepted(loan, cfg, now, payments);
      } else {
        FirstRefused(loan, cfg, now, payments);
      }
    }
  }

  // ----- On both books -----

  /** The books with a loan's record rewritten and `released` unlocked for its guarantor. */
  ghost function Booked(b: L.Books, loan: Loan, released: int): L.Books {
    var v := b.custody.vault;
    var vault := V.VaultOf(v, loan.guarantor);
    var unlocked := V.Vault(loan.guarantor, vault.collateralBalance, vault.lockedAmount - released);
    L.Books(Replace(b.ledger, loan), b.custody.(vault := v.(vaults := v.vaults[loan.guarantor := unlocked])))
  }

  lemma BookedTwice(b: L.Books, once: Loan, twice: Loan, r1: int, r2: int)
    requires Open(once) && twice.id == once.id && twice.guarantor == once.guarantor
    ensures Booked(Booked(b, once, r1), twice, r2) == Booked(b, twice, r1 + r2)
  {
    assert b.ledger.loans[once.id := once][once.id := twice] == b.ledger.loans[once.id := twice];
  }

  /** Everything an attestation asks for but the amount. */
  ghost predicate Cosigned(b: L.Books, env: Env, p: Address, v: Address, id: nat) {
    && p in env.auth && v in env.auth && p != v
    && L.AuthorizedPartner(b.ledger, p) && L.AuthorizedVerifier(b.ledger, v)
    && id in b.ledger.loans && p == b.ledger.loans[id].partner
  }

  lemma AttestIs(b: L.Books, env: Env, p: Address, v: Address, id: nat, amount: int)
    requires BooksSound(b)
    ensures L.AttestRepayment(b, env, p, v, id, amount).Ok?
            <==> Cosigned(b, env, p, v, id) && Repayable(b.ledger.loans[id], b.ledger.config, amount)
    ensures Cosigned(b, env, p, v, id) && Repayable(b.ledger.loans[id], b.ledger.config, amount) ==>
              var (next, released) := Repay(b.ledger.loans[id], b.ledger.config, env.now, amount);
              && L.AttestRepayment(b, env, p, v, id, amount) == Ok((Booked(b, next, released), released))
              && BooksSound(Booked(b, next, released))
  {
    AttestIff(b, env, p, v, id, amount);
    if Attestable(b, env, p, v, id, amount) {
      AttestEffect(b, env, p, v, id, amount);
    }
  }

  /** A run of attestations is the batch on the record, booked once. */
  ghost predicate IsBatch(b: L.Books, signed: bool, id: nat,
                          batch: Result<(Loan, int)>, outcome: Result<(L.Books, int)>)
  {
    && (outcome.Ok? <==> signed && batch.Ok?)
    && (outcome.Ok? ==> outcome.value.1 == batch.value.1 && outcome.value.0 == Booked(b, batch.value.0, batch.value.1))
  }

  /** One more attestation in front of a run that is a batch. */
  lemma BatchGrows(b: L.Books, signed: bool, id: nat, once: Loan, r1: int,
                   batch: Result<(Loan, int)>, outcome: Result<(L.Books, int)>)
    requires IsBatch(Booked(b, once, r1), signed, id, batch, outcome)
    requires batch.Ok? ==> Open(once) && batch.value.0.id == once.id && batch.value.0.guarantor == once.guarantor
    ensures IsBatch(b, signed, id, Add(r1, batch), Add(r1, outcome))
  {
    if batch.Ok? {
      BookedTwice(b, once, batch.value.0, r1, batch.value.1);
    }
  }

  /** The rewritten books hold the rewritten record, under the same roles and configuration. */
  ghost predicate BookedLoan(b: L.Books, loan: Loan, released: int, id: nat) {
    var next := Booked(b, loan, released);
    && id in next.ledger.loans && next.ledger.loans[id] == loan
    && next.ledger.config == b.ledger.config
    && next.ledger.partners == b.ledger.partners && next.ledger.verifiers == b.ledger.verifiers
  }

  lemma BookedHolds(b: L.Books, env: Env, p: Address, v: Address, id: nat, loan: Loan, released: int)
    requires id in b.ledger.loans && loan.id == id && loan.partner == b.ledger.loans[id].partner
    ensures BookedLoan(b, loan, released, id)
    ensures Cosigned(Booked(b, loan, released), env, p, v, id) <==> Cosigned(b, env, p, v, id)
  {
  }

  /** The first attestation of a run books its payment and leaves the rest to run. */
  lemma AttestAllStarts(b: L.Books, env: Env, p: Address, v: Address, id: nat, payments: seq<Payment>)
    requires BooksSound(b) && id in b.ledger.loans && payments != []
    ensures var loan, first := b.ledger.loans[id], payments[0];
            if Cosigned(b, env, p, v, id) && Repayable(loan, b.ledger.config, first.amount) then
              var (once, r1) := Repay(loan, b.ledger.config, first.now, first.amount);
              var next := Booked(b, once, r1);
              && BooksSound(next) && BookedLoan(b, once, r1, id) && Cosigned(next, env, p, v, id)
              && AttestAll(b, env, p, v, id, payments) == Add(r1, AttestAll(next, env, p, v, id, payments[1..]))
            else AttestAll(b, env, p, v, id, payments).Err?
  {
    AttestIs(b, env.(now := payments[0].now), p, v, id, payments[0].amount);
    if Repayable(b.ledger.loans[id], b.ledger.config, payments[0].amount) {
      var (once, r1) := Repay(b.ledger.loans[id], b.ledger.config, payments[0].now, payments[0].amount);
      BookedHolds(b, env, p, v, id, once, r1);
    }
  }

  lemma {:induction false} RepayAllKeepsTerms(loan: Loan, cfg: Config, payments: seq<Payment>)
    requires payments != [] && RepayAll(loan, cfg, payments).Ok?
    ensures Open(loan)
    ensures RepayAll(loan, cfg, payments).value.0.id == loan.id
    ensures RepayAll(loan, cfg, payments).value.0.guarantor == loan.guarantor
    decreases |payments|
  {
    if |payments| > 1 {
      RepayAllKeepsTerms(Repay(loan, cfg, payments[0].now, payments[0].amount).0, cfg, payments[1..]);
    }
  }

  lemma OneInFront(b: L.Books, once: Loan, r1: int, id: nat, rest: seq<Payment>, outcome: Result<(L.Books, int)>)
    requires rest != []
    requires IsBatch(Booked(b, once, r1), true, id, RepayAll(once, b.ledger.config, rest), outcome)
    ensures IsBatch(b, true, id, Add(r1, RepayAll(once, b.ledger.config, rest)), Add(r1, outcome))
  {
    var batch := RepayAll(once, b.ledger.config, rest);
    if batch.Ok? {
      RepayAllKeepsTerms(once, b.ledger.config, rest);
    }
    BatchGrows(b, true, id, once, r1, batch, outcome);
  }

  lemma {:induction false} AttestAllIsBatch(b: L.Books, env: Env, p: Address, v: Address,
                                            id: nat, payments: seq<Payment>)
    requires BooksSound(b) && id in b.ledger.loans && payments != []
    ensures IsBatch(b, Cosigned(b, env, p, v, id), id, RepayAll(b.ledger.loans[id], b.ledger.config, payments),
                    AttestAll(b, env, p, v, id, payments))
    decreases |payments|
  {
    var first, rest := payments[0], payments[1..];
    AttestAllStarts(b, env, p, v, id, payments);
    if Cosigned(b, env, p, v, id) && Repayable(b.ledger.loans[id], b.ledger.config, first.amount) && rest != [] {
      var (once, r1) := Repay(b.ledger.loans[id], b.ledger.config, first.now, first.amount);
      var next := Booked(b, once, r1);
      AttestAllIsBatch(next, env, p, v, id, rest);
      OneInFront(b, once, r1, id, rest, AttestAll(next, env, p, v, id, rest));
    }
  }

  /** What a batch of attestations does, one does as well: with the same total released, the
      same vault and the same ledger but for the loan's record, which has the same money, and
      is the same if all came at one time. */
  ghost predicate AsGoodAs(split: Result<(L.Books, int)>, merged: Result<(L.Books, int)>, id: nat, sameTime: bool) {
    split.Ok? ==>
      && merged.Ok?
      && split.value.1 == merged.value.1
      && SameBooks(split.value.0, merged.value.0, id)
      && SameMoney(split.value.0.ledger.loans[id], merged.value.0.ledger.loans[id])
      && (sameTime ==> SameLoan(split.value.0.ledger.loans[id], merged.value.0.ledger.loans[id]))
  }

  lemma BookedAlike(b: L.Books, x: Loan, y: Loan, released: int)
    requires SameMoney(x, y)
    ensures SameBooks(Booked(b, x, released), Booked(b, y, released), x.id)
    ensures Booked(b, x, released).ledger.loans[x.id] == x && Booked(b, y, released).ledger.loans[x.id] == y
  {
    assert b.ledger.loans[x.id := x] == b.ledger.loans[y.id := y][x.id := x];
  }

  lemma BookedAsGood(b: L.Books, x: Loan, y: Loan, released: int, sameTime: bool)
    requires SameMoney(x, y) && (sameTime ==> SameLoan(x, y))
    ensures AsGoodAs(Ok((Booked(b, x, released), released)), Ok((Booked(b, y, released), released)), x.id, sameTime)
  {
    BookedAlike(b, x, y, released);
  }

  /** The loan stays open after a payment of `amount`, or no payment on it overflows. */
  ghost predicate SplitsFreely(b: L.Books, id: nat, amount: int) {
    id in b.ledger.loans ==>
      amount < Outstanding(b.ledger.loans[id]) || FitsFrom(b.ledger.loans[id], b.ledger.config)
  }

  lemma MergedBooks(b: L.Books, signed: bool, now: nat, id: nat, payments: seq<Payment>,
                    split: Result<(L.Books, int)>, merged: Result<(L.Books, int)>)
    requires id in b.ledger.loans && b.ledger.loans[id].id == id && MoneySound(b.ledger.loans[id], b.ledger.config)
    requires payments != [] && AllPositive(payments)
    requires IsBatch(b, signed, id, RepayAll(b.ledger.loans[id], b.ledger.config, payments), split)
    requires merged.Ok? <==> signed && Repayable(b.ledger.loans[id], b.ledger.config, Sum(payments))
    requires merged.Ok? ==>
               var (next, released) := Repay(b.ledger.loans[id], b.ledger.config, now, Sum(payments));
               merged == Ok((Booked(b, next, released), released))
    ensures AsGoodAs(split, merged, id, AllAt(payments, now))
    ensures merged.Ok? && SplitsFreely(b, id, Sum(payments)) ==> split.Ok?
  {
    var loan, cfg := b.ledger.loans[id], b.ledger.config;
    BatchIsLikeOne(loan, cfg, now, payments);
    if split.Ok? {
      RepayIsCredited(loan, cfg, now, Sum(payments));
      var batch := RepayAll(loan, cfg, payments).value;
      BookedAsGood(b, batch.0, Credited(loan, cfg, now, loan.totalRepaidUsd + Sum(payments)), batch.1,
                   AllAt(payments, now));
    }
  }

  /** If a sequence of positive repayments goes through, so does one repayment of the sum,
      whenever each is made. It leaves the same vault, the same ledger, the same money on the
      loan and the same total released; and if all are made at one ledger time, the same loan
      altogether, but for the due date left on a loan that the sum closes. Conversely every
      sequence goes through if the sum does and splits freely. */
  lemma BatchingDoesNotMatter(b: L.Books, env: Env, p: Address, v: Address, id: nat, payments: seq<Payment>)
    requires BooksSound(b) && payments != [] && AllPositive(payments)
    ensures AsGoodAs(AttestAll(b, env, p, v, id, payments), L.AttestRepayment(b, env, p, v, id, Sum(payments)),
                     id, AllAt(payments, env.now))
    ensures L.AttestRepayment(b, env, p, v, id, Sum(payments)).Ok? && SplitsFreely(b, id, Sum(payments)) ==>
              AttestAll(b, env, p, v, id, payments).Ok?
  {
    AttestIs(b, env, p, v, id, Sum(payments));
    AttestIs(b, env.(now := payments[0].now), p, v, id, payments[0].amount);
    if id in b.ledger.loans {
      AttestAllIsBatch(b, env, p, v, id, payments);
      MergedBooks(b, Cosigned(b, env, p, v, id), env.now, id, payments,
                  AttestAll(b, env, p, v, id, payments), L.AttestRepayment(b, env, p, v, id, Sum(payments)));
    }
  }

  lemma LastUnit(loan: Loan, cfg: Config, amount: pos)
    requires MoneySound(loan, cfg) && Repayable(loan, cfg, amount)
    requires amount >= Outstanding(loan) && !FitsFrom(loan, cfg)
    ensures amount > 1 && !Repayable(loan, cfg, amount - 1)
  {
  }

  lemma SumOfTwo(payments: seq<Payment>)
    requires |payments| == 2
    ensures Sum(payments) == payments[0].amount + payments[1].amount
  {
    assert Sum(payments[1..]) == payments[1].amount + Sum(payments[1..][1..]);
  }

  /** A sum that closes the loan but does not split freely fails when split one unit short. */
  lemma UnitShortFails(b: L.Books, env: Env, p: Address, v: Address, id: nat, amount: pos)
    requires BooksSound(b) && L.AttestRepayment(b, env, p, v, id, amount).Ok? && !SplitsFreely(b, id, amount)
    ensures amount > 1
    ensures var payments := [Payment(env.now, amount - 1), Payment(env.now, 1)];
            AllPositive(payments) && Sum(payments) == amount && AttestAll(b, env, p, v, id, payments).Err?
  {
    AttestIs(b, env, p, v, id, amount);
    LastUnit(b.ledger.loans[id], b.ledger.config, amount);
    var payments := [Payment(env.now, amount - 1), Payment(env.now, 1)];
    SumOfTwo(payments);
    AttestAllStarts(b, env, p, v, id, payments);
  }

  /** No weaker condition will do: every way to split an amount goes through if and only if the
      amount goes through at once and splits freely. */
  lemma EverySplitIff(b: L.Books, env: Env, p: Address, v: Address, id: nat, amount: pos)
    requires BooksSound(b)
    ensures (forall payments: seq<Payment> | payments != [] && AllPositive(payments) && Sum(payments) == amount ::
               AttestAll(b, env, p, v, id, payments).Ok?)
            <==> L.AttestRepayment(b, env, p, v, id, amount).Ok? && SplitsFreely(b, id, amount)
  {
    var merged := L.AttestRepayment(b, env, p, v, id, amount).Ok?;
    if merged && SplitsFreely(b, id, amount) {
      forall payments: seq<Payment> | payments != [] && AllPositive(payments) && Sum(payments) == amount
        ensures AttestAll(b, env, p, v, id, payments).Ok?
      {
        BatchingDoesNotMatter(b, env, p, v, id, payments);
      }
    } else if merged {
      UnitShortFails(b, env, p, v, id, amount);
    } else {
      var whole := [Payment(env.now, amount)];
      assert Sum(whole) == amount + Sum(whole[1..]);
      BatchingDoesNotMatter(b, env, p, v, id, whole);
      assert !AttestAll(b, env, p, v, id, whole).Ok?;
    }
  }

  // ----- As transactions -----

  ghost function AttestTx(signers: set<Address>, p: Address, v: Address, id: nat, amount: int): Tx {
    Tx(0, signers, AttestRepayment(p, v, id, amount))
  }

  /** One transaction per payment, all in the ledger time of the first. */
  ghost function AsTxs(signers: set<Address>, p: Address, v: Address, id: nat, payments: seq<Payment>): seq<Tx> {
    if payments == [] then []
    else [AttestTx(signers, p, v, id, payments[0].amount)] + AsTxs(signers, p, v, id, payments[1..])
  }

  lemma AttestTxIs(w: World, signers: set<Address>, p: Address, v: Address, id: nat, amount: int)
    ensures Succeeds(w, AttestTx(signers, p, v, id, amount))
            <==> L.AttestRepayment(w.books, External(w, signers), p, v, id, amount).Ok?
  {
  }

  lemma OneAttestTx(w: World, signers: set<Address>, p: Address, v: Address, id: nat, amount: int)
    requires L.AttestRepayment(w.books, External(w, signers), p, v, id, amount).Ok?
    ensures var next := L.AttestRepayment(w.books, External(w, signers), p, v, id, amount).value.0;
            && Step(w, AttestTx(signers, p, v, id, amount)) == w.(books := next)
            && next.ledger.self == w.books.ledger.self && next.custody.vault.self == w.books.custody.vault.self
  {
  }

  lemma {:induction false} TxsAreAttestAll(w: World, signers: set<Address>, p: Address, v: Address,
                                           id: nat, payments: seq<Payment>)
    requires AllAt(payments, w.now) && AttestAll(w.books, External(w, signers), p, v, id, payments).Ok?
    ensures Run(w, AsTxs(signers, p, v, id, payments))
         == w.(books := AttestAll(w.books, External(w, signers), p, v, id, payments).value.0)
    decreases |payments|
  {
    if payments != [] {
      var tx, rest := AttestTx(signers, p, v, id, payments[0].amount), AsTxs(signers, p, v, id, payments[1..]);
      OneAttestTx(w, signers, p, v, id, payments[0].amount);
      RunConcat(w, [tx], rest);
      RunOne(w, tx);
      TxsAreAttestAll(Step(w, tx), signers, p, v, id, payments[1..]);
    }
  }

  /** In any reachable state, attesting a sum part by part in separate transactions of one
      ledger time leaves the world that attesting the sum at once leaves, but for the due
      date in the record of a loan that the sum closes. */
  lemma SeparateTransactionsAreOne(w0: World, before: seq<Tx>, signers: set<Address>, p: Address, v: Address,
                                   id: nat, payments: seq<Payment>)
    requires Genesis(w0) && payments != [] && AllPositive(payments)
    requires var w := Run(w0, before);
             var sum := Sum(payments);
             && AllAt(payments, w.now)
             && (AttestAll(w.books, External(w, signers), p, v, id, payments).Ok?
                 || (Succeeds(w, AttestTx(signers, p, v, id, sum)) && SplitsFreely(w.books, id, sum)))
    ensures var w := Run(w0, before);
            var split := Run(w, AsTxs(signers, p, v, id, payments));
            var merged := Step(w, AttestTx(signers, p, v, id, Sum(payments)));
            && Succeeds(w, AttestTx(signers, p, v, id, Sum(payments)))
            && split == merged.(books := split.books)
            && SameBooks(split.books, merged.books, id)
            && SameLoan(LoanIn(split, id), LoanIn(merged, id))
  {
    var w := Run(w0, before);
    Steps.Reachable(w0, before);
    AttestTxIs(w, signers, p, v, id, Sum(payments));
    BatchingDoesNotMatter(w.books, External(w, signers), p, v, id, payments);
    TxsAreAttestAll(w, signers, p, v, id, payments);
    OneAttestTx(w, signers, p, v, id, Sum(payments));
  }
}
