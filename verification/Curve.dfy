/** Properties of the release curve: how much collateral is back with the guarantor
    after R of principal P has been repaid on a loan that locked L. */
module Curve {
  import opened Types
  import opened IntDivision
  import opened LoanModel

  /** Release shares are shares: scaling by `x <= y` and a share `0 <= s <= BPS` stays under BPS. */
  lemma ScaledBound(x: nat, y: nat, s: int)
    requires x <= y && 0 <= s <= BPS
    ensures 0 <= x * s <= y * BPS
  {
    MulMono(0, x, s);
    MulMono(x, y, s);
    assert y * s <= y * BPS by { MulMono(s, BPS, y); }
  }

  lemma NonNegative(locked: nat, repaid: nat, principal: pos, buffer: u32)
    requires buffer < BPS
    ensures 0 <= ReleaseCurve(locked, repaid, principal, buffer)
  {
    MulMono(0, locked, repaid);
    MulMono(0, locked * repaid, BPS - buffer);
    FloorNonNeg(locked * repaid * (BPS - buffer), principal * BPS);
  }

  /** The release is the exact share of the collateral, rounded down once: the largest whole
      amount within locked * repaid / principal, less the buffer. */
  lemma RoundedDownOnce(locked: nat, repaid: nat, principal: pos, buffer: u32)
    requires buffer < 10_000
    ensures var r := ReleaseCurve(locked, repaid, principal, buffer);
            r * (principal * 10_000) <= locked * repaid * (10_000 - buffer) < (r + 1) * (principal * 10_000)
  {
    FloorBounds(locked * repaid * (BPS - buffer), principal * BPS);
  }

  /** Repaying more never earns back less. */
  lemma Monotone(locked: nat, fewer: nat, more: nat, principal: pos, buffer: u32)
    requires fewer <= more && buffer < BPS
    ensures ReleaseCurve(locked, fewer, principal, buffer) <= ReleaseCurve(locked, more, principal, buffer)
  {
    MulMono(fewer, more, locked);
    MulMono(locked * fewer, locked * more, BPS - buffer);
    FloorMono(locked * fewer * (BPS - buffer), locked * more * (BPS - buffer), principal * BPS);
  }

  /** The released share of the collateral never exceeds the repaid share of the principal. */
  lemma AtMostProportional(locked: nat, repaid: nat, principal: pos, buffer: u32)
    requires buffer < BPS
    ensures ReleaseCurve(locked, repaid, principal, buffer) * principal <= locked * repaid
    ensures ReleaseCurve(locked, repaid, principal, buffer) <= locked * repaid / principal
  {
    var curve := ReleaseCurve(locked, repaid, principal, buffer);
    MulMono(0, locked, repaid);
    ScaledBound(locked * repaid, locked * repaid, BPS - buffer);
    FloorBounds(locked * repaid * (BPS - buffer), principal * BPS);
    assert curve * (principal * BPS) == curve * principal * BPS;
    FloorAtLeast(locked * repaid, principal, curve);
  }

  /** Short of full repayment, at least one unit and at least the buffer share stay locked. */
  lemma BufferWithheld(locked: pos, repaid: nat, principal: pos, buffer: u32)
    requires repaid < principal && buffer < BPS
    ensures ReleaseCurve(locked, repaid, principal, buffer) < locked
    ensures (locked - ReleaseCurve(locked, repaid, principal, buffer)) * BPS >= locked * buffer
  {
    var curve := ReleaseCurve(locked, repaid, principal, buffer);
    var share := BPS - buffer;
    AtMostProportional(locked, repaid, principal, buffer);
    if curve >= locked {
      MulMono(locked, curve, principal);
      MulMono(repaid + 1, principal, locked);
      assert false;
    }
    MulMono(repaid, principal, locked);
    MulMono(locked * repaid, locked * principal, share);
    FloorBounds(locked * repaid * share, principal * BPS);
    assert curve * (principal * BPS) == (curve * BPS) * principal;
    assert locked * principal * share == (locked * share) * principal;
    if curve * BPS > locked * share {
      MulMono(locked * share + 1, curve * BPS, principal);
      assert false;
    }
    assert locked * share == locked * BPS - locked * buffer;
  }

  /** Rounding `e / p` first and `.. * s / BPS` second stays below the exact quotient. */
  lemma TwoStepBelow(e: nat, p: pos, s: nat)
    ensures e / p * s / BPS * (p * BPS) <= e * s
  {
    var q := e / p;
    var t := q * s / BPS;
    FloorBounds(e, p);
    FloorBounds(q * s, BPS);
    MulMono(t * BPS, q * s, p);
    MulMono(q * p, e, s);
    assert t * (p * BPS) == t * BPS * p;
    assert q * s * p == q * p * s;
  }

  /** It misses the exact quotient by less than two: one for each rounding. */
  lemma TwoStepAbove(e: nat, p: pos, s: nat)
    requires s <= BPS
    ensures e * s < (e / p * s / BPS + 2) * (p * BPS)
  {
    var q := e / p;
    var t := q * s / BPS;
    FloorBounds(e, p);
    FloorBounds(q * s, BPS);
    MulMono(e, q * p + (p - 1), s);
    assert (q * p + (p - 1)) * s == q * p * s + (p - 1) * s;
    MulMono(s, BPS, p - 1);
    MulMono(q * s, t * BPS + (BPS - 1), p);
    assert q * s * p == q * p * s;
    assert (t + 2) * (p * BPS) == t * BPS * p + 2 * (p * BPS);
  }

  /** Rounding down once, which keeps closest to the exact share, never loses against rounding
      twice, and gains at most one unit. */
  lemma AgainstTwoStepRounding(locked: nat, repaid: nat, principal: pos, buffer: u32)
    requires buffer < BPS
    ensures var twoStep := locked * repaid / principal * (BPS - buffer) / BPS;
            twoStep <= ReleaseCurve(locked, repaid, principal, buffer) <= twoStep + 1
    ensures var r := ReleaseCurve(locked, repaid, principal, buffer);
            r * (principal * 10_000) <= locked * repaid * (10_000 - buffer) < (r + 1) * (principal * 10_000)
  {
    RoundedDownOnce(locked, repaid, principal, buffer);
    var earned := locked * repaid;
    var share := BPS - buffer;
    MulMono(0, locked, repaid);
    TwoStepBelow(earned, principal, share);
    TwoStepAbove(earned, principal, share);
    var twoStep := earned / principal * share / BPS;
    FloorAtLeast(earned * share, principal * BPS, twoStep);
    FloorAtLeast(earned * share, principal * BPS, twoStep + 2);
  }

  /** What is still locked covers what is still owed, as long as the loan locked
      at least its principal. */
  lemma RemainingCoversOutstanding(locked: nat, repaid: nat, principal: pos, buffer: u32)
    requires repaid < principal && buffer < BPS && locked >= principal
    ensures locked - ReleaseCurve(locked, repaid, principal, buffer) >= principal - repaid
  {
    var curve := ReleaseCurve(locked, repaid, principal, buffer);
    AtMostProportional(locked, repaid, principal, buffer);
    MulMono(principal, locked, principal - repaid);
    assert (locked - curve) * principal >= (principal - repaid) * principal;
    if locked - curve < principal - repaid {
      MulMono(locked - curve + 1, principal - repaid, principal);
      assert false;
    }
  }
}
