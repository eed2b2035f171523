/** The loan ledger's storage and its entry points as state transitions. */
module LedgerModel {
  import opened Types
  import opened LoanModel
  import opened VaultModel

  datatype LedgerState = LedgerState(
    self: Address,
    admin: Address,
    oracle: Option<Address>,
    liquidationEngine: Option<Address>,
    config: Config,
    loanCount: nat,
    loans: map<nat, Loan>,
    openLoans: map<(Address, Handle), nat>,
    partners: map<Address, bool>,
    verifiers: map<Address, bool>,
    reputation: map<Handle, u32>)

  /** The two contracts that keep books on the same collateral. */
  datatype Books = Books(ledger: LedgerState, custody: Custody)

  function LoanOf(s: LedgerState, loanId: nat): Result<Loan> {
    if loanId in s.loans then Ok(s.loans[loanId]) else Err(LoanNotFound)
  }

  predicate AuthorizedPartner(s: LedgerState, partner: Address) {
    partner in s.partners && s.partners[partner]
  }

  predicate AuthorizedVerifier(s: LedgerState, verifier: Address) {
    verifier in s.verifiers && s.verifiers[verifier]
  }

  function ReputationOf(s: LedgerState, beneficiary: Handle): u32 {
    if beneficiary in s.reputation then s.reputation[beneficiary] else 0
  }

  function SaveLoan(s: LedgerState, loan: Loan): LedgerState {
    s.(loans := s.loans[loan.id := loan])
  }

  /** Drops the open-loan marker of a loan that has just closed. */
  function Unindex(s: LedgerState, loan: Loan): LedgerState {
    s.(openLoans := s.openLoans - {(loan.guarantor, loan.beneficiary)})
  }

  function RequireEngine(s: LedgerState, env: Env, caller: Address): Result<()> {
    if caller !in env.auth then Err(AuthMissing)
    else if s.liquidationEngine.None? then Err(NotInitialized)
    else if s.liquidationEngine != Some(caller) then Err(NotAuthorized)
    else Ok(())
  }

  // ----- Origination -----

  function RequiredLtvBps(s: LedgerState, beneficiary: Handle): u32 {
    var score: int := ReputationOf(s, beneficiary);
    var span := s.config.baseLtvBps - s.config.minLtvBps;
    AsU32(s.config.baseLtvBps - span * score / BPS)
  }

  predicate ValidSchedule(installmentCount: u32, intervalSecs: nat) {
    && MIN_INSTALLMENTS <= installmentCount <= MAX_INSTALLMENTS
    && MIN_INTERVAL_SECS <= intervalSecs <= MAX_INTERVAL_SECS
    && installmentCount * intervalSecs <= MAX_TENOR_SECS
  }

  function NewLoan(s: LedgerState, now: nat, guarantor: Address, beneficiary: Handle, partner: Address,
                   principalUsd: pos, installmentCount: u32, intervalSecs: nat): Loan
    requires installmentCount > 0
  {
    var ltvBps := RequiredLtvBps(s, beneficiary);
    Loan(
      s.loanCount + 1, guarantor, beneficiary, partner,
      principalUsd, ltvBps, principalUsd * ltvBps / BPS, 0,
      installmentCount, principalUsd / installmentCount, intervalSecs, now,
      0, 0, now + intervalSecs, 0, Active)
  }

  /** Takes the next id, marks the pair as having an open loan, and stores the record. */
  function AddLoan(s: LedgerState, loan: Loan): LedgerState {
    SaveLoan(s.(loanCount := loan.id, openLoans := s.openLoans[(loan.guarantor, loan.beneficiary) := loan.id]), loan)
  }

  function Originate(b: Books, env: Env, guarantor: Address, beneficiary: Handle, partner: Address,
                     principalUsd: int, installmentCount: u32, intervalSecs: nat): Result<(Books, nat)>
  {
    var s := b.ledger;
    if guarantor !in env.auth then Err(AuthMissing)
    else if principalUsd <= 0 then Err(InvalidAmount)
    else if !ValidSchedule(installmentCount, intervalSecs) then Err(InvalidSchedule)
    else if !AuthorizedPartner(s, partner) then Err(UnknownPartner)
    else if (guarantor, beneficiary) in s.openLoans then Err(LoanAlreadyOpen)
    else
      var loan := NewLoan(s, env.now, guarantor, beneficiary, partner, principalUsd, installmentCount, intervalSecs);
      if !I128(principalUsd * loan.ltvBps) then Err(Overflow)
      else
        var custody :- LockCollateral(b.custody, env.CalledBy(s.self), s.self, guarantor, loan.collateralLocked);
        if !U64(loan.id) || !U64(loan.nextDue) then Err(Overflow)
        else Ok((Books(AddLoan(s, loan), custody), loan.id))
  }

  // ----- Repayment -----

  function AttestRepayment(b: Books, env: Env, partner: Address, verifier: Address,
                           loanId: nat, amountUsd: int): Result<(Books, int)>
  {
    var s := b.ledger;
    if partner !in env.auth || verifier !in env.auth then Err(AuthMissing)
    else if amountUsd <= 0 then Err(InvalidAmount)
    else
      var loan :- LoanOf(s, loanId);
      if partner != loan.partner || !AuthorizedPartner(s, partner) then Err(NotAuthorized)
      else if verifier == partner || !AuthorizedVerifier(s, verifier) then Err(UnknownVerifier)
      else if !Open(loan) then Err(LoanNotActive)
      else if !I128(loan.totalRepaidUsd + amountUsd) then Err(Overflow)
      else if loan.totalRepaidUsd + amountUsd > loan.principalUsd then Err(Overpayment)
      else if !FitsAt(loan, s.config, loan.totalRepaidUsd + amountUsd) then Err(Overflow)
      else
        var (next, releaseNow) := Repay(loan, s.config, env.now, amountUsd);
        var custody :-
          if releaseNow > 0 then
            ReleaseCollateral(b.custody, env.CalledBy(s.self), s.self, loan.guarantor, releaseNow)
          else Ok(b.custody);
        var saved := SaveLoan(s, next);
        Ok((Books(if next.status.Repaid? then Unindex(saved, next) else saved, custody), releaseNow))
  }

  // ----- Default transitions -----

  function MarkGrace(s: LedgerState, env: Env, caller: Address, loanId: nat): Result<LedgerState> {
    var _ :- RequireEngine(s, env, caller);
    var loan :- LoanOf(s, loanId);
    if !loan.status.Active? then Err(LoanNotActive)
    else if env.now <= loan.nextDue then Err(NotOverdue)
    else if !U64(env.now + s.config.gracePeriodSecs) then Err(Overflow)
    else Ok(SaveLoan(s, EnterGrace(loan, s.config, env.now)))
  }

  function MarkDefaulted(s: LedgerState, env: Env, caller: Address, loanId: nat): Result<LedgerState> {
    var _ :- RequireEngine(s, env, caller);
    var loan :- LoanOf(s, loanId);
    if !loan.status.Grace? then Err(LoanNotActive)
    else if env.now <= loan.graceExpiresAt then Err(GraceNotExpired)
    else Ok(Unindex(SaveLoan(s, CloseDefaulted(loan)), loan))
  }

  // ----- Administration -----

  function SetOracle(s: LedgerState, env: Env, admin: Address, oracle: Address): Result<LedgerState> {
    var _ :- RequireAdmin(s.admin, env, admin);
    Ok(s.(oracle := Some(oracle)))
  }

  function SetEngine(s: LedgerState, env: Env, admin: Address, engine: Address): Result<LedgerState> {
    var _ :- RequireAdmin(s.admin, env, admin);
    if s.liquidationEngine.Some? then Err(AlreadySet)
    else Ok(s.(liquidationEngine := Some(engine)))
  }

  function SetPartner(s: LedgerState, env: Env, admin: Address,
                      partner: Address, authorized: bool): Result<LedgerState>
  {
    var _ :- RequireAdmin(s.admin, env, admin);
    if authorized && AuthorizedVerifier(s, partner) then Err(RoleConflict)
    else Ok(s.(partners := s.partners[partner := authorized]))
  }

  function SetVerifier(s: LedgerState, env: Env, admin: Address,
                       verifier: Address, authorized: bool): Result<LedgerState>
  {
    var _ :- RequireAdmin(s.admin, env, admin);
    if authorized && AuthorizedPartner(s, verifier) then Err(RoleConflict)
    else Ok(s.(verifiers := s.verifiers[verifier := authorized]))
  }

  function SetReputation(s: LedgerState, env: Env, oracle: Address,
                         beneficiary: Handle, scoreBps: u32): Result<LedgerState>
  {
    if oracle !in env.auth then Err(AuthMissing)
    else if s.oracle.None? then Err(NotInitialized)
    else if s.oracle != Some(oracle) then Err(NotAuthorized)
    else if scoreBps > BPS then Err(InvalidScore)
    else Ok(s.(reputation := s.reputation[beneficiary := scoreBps]))
  }

  function ReassignPartner(s: LedgerState, env: Env, admin: Address,
                           loanId: nat, newPartner: Address): Result<LedgerState>
  {
    var _ :- RequireAdmin(s.admin, env, admin);
    if !AuthorizedPartner(s, newPartner) then Err(UnknownPartner)
    else
      var loan :- LoanOf(s, loanId);
      if !Open(loan) then Err(LoanNotActive)
      else Ok(SaveLoan(s, loan.(partner := newPartner)))
  }
}
