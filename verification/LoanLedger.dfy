/** The loan ledger contract as an object: its storage keys are fields, and its entry
    points load a loan, rewrite it field by field and store it back. Every method is
    proved to follow its transition in `LedgerModel`. */
module LoanLedger {
  import opened Types
  import opened LoanModel
  import opened GuarantorVault
  import opened Invariants
  import Model = LedgerModel

  const PAGE_LIMIT: nat := 50

  /** The loans stored under the ids from `first` up to but excluding `end`, in id order. */
  function Collect(loans: map<nat, Loan>, first: nat, end: nat): seq<Loan>
    decreases end
  {
    if end <= first then []
    else Collect(loans, first, end - 1) + (if end - 1 in loans then [loans[end - 1]] else [])
  }

  /** The page `get_loans_range` answers with. */
  function Page(s: Model.LedgerState, startId: nat, limit: u32): seq<Loan> {
    var actualLimit := if limit < PAGE_LIMIT then limit else PAGE_LIMIT;
    if startId == 0 || startId > s.loanCount then []
    else
      var endId := if startId + actualLimit < s.loanCount + 1 then startId + actualLimit else s.loanCount + 1;
      Collect(s.loans, startId, endId)
  }

  ghost predicate Lands<T>(before: Model.Books, spec: Result<(Model.Books, T)>, after: Model.Books, r: Result<T>) {
    match spec
    case Ok((next, value)) => r == Ok(value) && after == next
    case Err(e) => r == Err(e) && after == before
  }

  ghost predicate LandsAlone(before: Model.Books, spec: Result<Model.LedgerState>, after: Model.Books, r: Result<()>) {
    match spec
    case Ok(next) => r == Ok(()) && after == before.(ledger := next)
    case Err(e) => r == Err(e) && after == before
  }

  lemma RepayKeepsRecord(loan: Loan, cfg: Config, now: nat, amount: pos)
    ensures MoneySound(loan, cfg) && Open(loan) && amount <= Outstanding(loan) ==>
              var (next, released) := Repay(loan, cfg, now, amount);
              MoneySound(next, cfg) && 0 <= released == next.collateralReleased - loan.collateralReleased
  {
    if MoneySound(loan, cfg) && Open(loan) && amount <= Outstanding(loan) {
      RepayKeepsMoney(loan, cfg, now, amount);
    }
  }

  class LoanLedger {
    const self: Address
    const vault: GuarantorVault
    const config: Config
    var admin: Address
    var oracle: Option<Address>
    var liquidationEngine: Option<Address>
    var loanCount: nat
    var loans: map<nat, Loan>
    var openLoans: map<(Address, Handle), nat>
    var partners: map<Address, bool>
    var verifiers: map<Address, bool>
    var reputation: map<Handle, u32>

    constructor (self: Address, admin: Address, vault: GuarantorVault, config: Config)
      ensures this.self == self && this.vault == vault
      ensures State() == Model.Books(
                           Model.LedgerState(self, admin, None, None, config, 0, map[], map[], map[], map[], map[]),
                           vault.State())
    {
      this.self, this.admin, this.vault, this.config := self, admin, vault, config;
      oracle, liquidationEngine, loanCount := None, None, 0;
      loans, openLoans, partners, verifiers, reputation := map[], map[], map[], map[], map[];
    }

    /** The deployment transaction: it aborts, and no contract exists, on an invalid config. */
    static method Deploy(self: Address, admin: Address, vault: GuarantorVault, config: ConfigRecord)
      returns (r: Result<LoanLedger>)
      ensures r.Ok? <==>
                && config.minLtvBps <= config.baseLtvBps && config.safetyBufferBps < 10_000
                && config.gracePeriodSecs != 0
      ensures r.Ok? ==>
                && fresh(r.value) && r.value.vault == vault
                && r.value.State()
                   == Model.Books(
                        Model.LedgerState(self, admin, None, None, config, 0, map[], map[], map[], map[], map[]),
                        vault.State())
      ensures r.Err? ==> r.error == InvalidConfig
    {
      if config.minLtvBps > config.baseLtvBps || config.safetyBufferBps >= BPS || config.gracePeriodSecs == 0 {
        return Err(InvalidConfig);
      }
      var ledger := new LoanLedger(self, admin, vault, config);
      return Ok(ledger);
    }

    ghost function State(): Model.Books
      reads this, vault, vault.token
    {
      Model.Books(
        Model.LedgerState(self, admin, oracle, liquidationEngine, config, loanCount, loans, openLoans,
                          partners, verifiers, reputation),
        vault.State())
    }

    predicate AuthorizedPartner(partner: Address)
      reads this
    {
      partner in partners && partners[partner]
    }

    predicate AuthorizedVerifier(verifier: Address)
      reads this
    {
      verifier in verifiers && verifiers[verifier]
    }

    method RequiredLtvBps(beneficiary: Handle) returns (ltvBps: u32)
      ensures ltvBps == Model.RequiredLtvBps(State().ledger, beneficiary)
      ensures Model.ReputationOf(State().ledger, beneficiary) <= BPS ==>
                config.minLtvBps <= ltvBps <= config.baseLtvBps
    {
      if Model.ReputationOf(State().ledger, beneficiary) <= BPS {
        RequiredLtvInRange(State().ledger, beneficiary);
      }
      var score: int := if beneficiary in reputation then reputation[beneficiary] else 0;
      var span := config.baseLtvBps - config.minLtvBps;
      var reduction := span * score / BPS;
      ltvBps := AsU32(config.baseLtvBps - reduction);
    }

    method Originate(env: Env, guarantor: Address, beneficiary: Handle, partner: Address,
                     principalUsd: int, installmentCount: u32, intervalSecs: nat) returns (r: Result<nat>)
      modifies this, vault
      ensures Lands(old(State()),
                    Model.Originate(old(State()), env, guarantor, beneficiary, partner,
                                    principalUsd, installmentCount, intervalSecs),
                    State(), r)
    {
      if guarantor !in env.auth { return Err(AuthMissing); }
      if principalUsd <= 0 { return Err(InvalidAmount); }
      if !(MIN_INSTALLMENTS <= installmentCount <= MAX_INSTALLMENTS)
         || !(MIN_INTERVAL_SECS <= intervalSecs <= MAX_INTERVAL_SECS) {
        return Err(InvalidSchedule);
      }
      var totalTenor := installmentCount * intervalSecs;
      if totalTenor > MAX_TENOR_SECS { return Err(InvalidSchedule); }
      if !AuthorizedPartner(partner) { return Err(UnknownPartner); }
      if (guarantor, beneficiary) in openLoans { return Err(LoanAlreadyOpen); }

      var ltvBps := RequiredLtvBps(beneficiary);
      if !I128(principalUsd * ltvBps) { return Err(Overflow); }
      var collateral := principalUsd * ltvBps / BPS;
      var reverted := vault.vaults;
      var locked := vault.LockCollateral(env.CalledBy(self), self, guarantor, collateral);
      if locked.Err? { return Err(locked.error); }

      var id := loanCount + 1;
      if !U64(id) || !U64(env.now + intervalSecs) {
        vault.vaults := reverted;
        return Err(Overflow);
      }
      loanCount := id;
      var loan := Loan(
        id, guarantor, beneficiary, partner,
        principalUsd, ltvBps, collateral, 0,
        installmentCount, principalUsd / installmentCount, intervalSecs, env.now,
        0, 0, env.now + intervalSecs, 0, Active);
      openLoans := openLoans[(guarantor, beneficiary) := id];
      loans := loans[loan.id := loan];
      return Ok(id);
    }

    /** Rewrites a loaded record for a repayment, field by field, aborting at the first
        intermediate that does not fit. A sound record stays sound. */
    method Credit(record: Loan, now: nat, amountUsd: pos) returns (r: Result<(Loan, int)>)
      ensures r == if FitsAt(record, config, record.totalRepaidUsd + amountUsd)
                   then Ok(Repay(record, config, now, amountUsd)) else Err(Overflow)
      ensures r.Ok? && MoneySound(record, config) && Open(record) && amountUsd <= Outstanding(record) ==>
                var (next, releaseNow) := r.value;
                MoneySound(next, config) && 0 <= releaseNow == next.collateralReleased - record.collateralReleased
    {
      RepayKeepsRecord(record, config, now, amountUsd);
      var loan := record.(totalRepaidUsd := record.totalRepaidUsd + amountUsd);
      if !I128(loan.totalRepaidUsd) || !I128(loan.totalRepaidUsd * loan.installmentCount) { return Err(Overflow); }
      loan := loan.(installmentsPaid := InstallmentsCovered(loan));
      var fullyRepaid := loan.totalRepaidUsd >= loan.principalUsd;

      var releasable;
      if fullyRepaid {
        releasable := loan.collateralLocked;
      } else {
        if !CurveFits(loan.collateralLocked, loan.totalRepaidUsd, loan.principalUsd, config.safetyBufferBps) {
          return Err(Overflow);
        }
        releasable :=
          ReleaseCurve(loan.collateralLocked, loan.totalRepaidUsd, loan.principalUsd, config.safetyBufferBps);
      }
      var releaseNow := releasable - loan.collateralReleased;
      if releaseNow > 0 {
        loan := loan.(collateralReleased := loan.collateralReleased + releaseNow);
      }

      if fullyRepaid {
        loan := loan.(status := Repaid, graceExpiresAt := 0);
      } else {
        var due := DueAfter(loan.originatedAt, loan.installmentsPaid, loan.intervalSecs);
        if !U64(due) { return Err(Overflow); }
        loan := loan.(nextDue := due);
        if now <= loan.nextDue {
          loan := loan.(status := Active, graceExpiresAt := 0);
        }
      }
      return Ok((loan, releaseNow));
    }

    method AttestRepayment(env: Env, partner: Address, verifier: Address, loanId: nat, amountUsd: int)
      returns (r: Result<int>)
      modifies this, vault
      ensures Lands(old(State()),
                    Model.AttestRepayment(old(State()), env, partner, verifier, loanId, amountUsd),
                    State(), r)
    {
      if partner !in env.auth || verifier !in env.auth { return Err(AuthMissing); }
      if amountUsd <= 0 { return Err(InvalidAmount); }
      if loanId !in loans { return Err(LoanNotFound); }
      var loan := loans[loanId];
      if partner != loan.partner || !AuthorizedPartner(partner) { return Err(NotAuthorized); }
      if verifier == partner || !AuthorizedVerifier(verifier) { return Err(UnknownVerifier); }
      if !loan.status.Active? && !loan.status.Grace? { return Err(LoanNotActive); }
      if !I128(loan.totalRepaidUsd + amountUsd) { return Err(Overflow); }
      if loan.totalRepaidUsd + amountUsd > loan.principalUsd { return Err(Overpayment); }

      var credited := Credit(loan, env.now, amountUsd);
      if credited.Err? { return Err(credited.error); }
      var releaseNow := credited.value.1;
      loan := credited.value.0;
      if releaseNow > 0 {
        var released := vault.ReleaseCollateral(env.CalledBy(self), self, loan.guarantor, releaseNow);
        if released.Err? { return Err(released.error); }
      }
      if loan.status.Repaid? {
        openLoans := openLoans - {(loan.guarantor, loan.beneficiary)};
      }
      loans := loans[loan.id := loan];
      return Ok(releaseNow);
    }

    method MarkGrace(env: Env, caller: Address, loanId: nat) returns (r: Result<()>)
      modifies this`loans
      ensures LandsAlone(old(State()), Model.MarkGrace(old(State()).ledger, env, caller, loanId), State(), r)
    {
      if caller !in env.auth { return Err(AuthMissing); }
      if liquidationEngine.None? { return Err(NotInitialized); }
      if caller != liquidationEngine.value { return Err(NotAuthorized); }
      if loanId !in loans { return Err(LoanNotFound); }
      var loan := loans[loanId];
      if !loan.status.Active? { return Err(LoanNotActive); }
      if env.now <= loan.nextDue { return Err(NotOverdue); }
      if !U64(env.now + config.gracePeriodSecs) { return Err(Overflow); }
      loan := loan.(status := Grace);
      loan := loan.(graceExpiresAt := env.now + config.gracePeriodSecs);
      loans := loans[loan.id := loan];
      return Ok(());
    }

    method MarkDefaulted(env: Env, caller: Address, loanId: nat) returns (r: Result<()>)
      modifies this`loans, this`openLoans
      ensures LandsAlone(old(State()), Model.MarkDefaulted(old(State()).ledger, env, caller, loanId), State(), r)
    {
      if caller !in env.auth { return Err(AuthMissing); }
      if liquidationEngine.None? { return Err(NotInitialized); }
      if caller != liquidationEngine.value { return Err(NotAuthorized); }
      if loanId !in loans { return Err(LoanNotFound); }
      var loan := loans[loanId];
      if !loan.status.Grace? { return Err(LoanNotActive); }
      if env.now <= loan.graceExpiresAt { return Err(GraceNotExpired); }
      loan := loan.(status := Defaulted);
      loan := loan.(collateralReleased := loan.collateralLocked);
      loans := loans[loan.id := loan];
      openLoans := openLoans - {(loan.guarantor, loan.beneficiary)};
      return Ok(());
    }

    method SetOracle(env: Env, caller: Address, oracle: Address) returns (r: Result<()>)
      modifies this`oracle
      ensures LandsAlone(old(State()), Model.SetOracle(old(State()).ledger, env, caller, oracle), State(), r)
    {
      if caller !in env.auth { return Err(AuthMissing); }
      if caller != admin { return Err(NotAuthorized); }
      this.oracle := Some(oracle);
      return Ok(());
    }

    method SetLiquidationEngine(env: Env, caller: Address, engine: Address) returns (r: Result<()>)
      modifies this`liquidationEngine
      ensures LandsAlone(old(State()), Model.SetEngine(old(State()).ledger, env, caller, engine), State(), r)
    {
      if caller !in env.auth { return Err(AuthMissing); }
      if caller != admin { return Err(NotAuthorized); }
      if liquidationEngine.Some? { return Err(AlreadySet); }
      liquidationEngine := Some(engine);
      return Ok(());
    }

    method SetPartner(env: Env, caller: Address, partner: Address, authorized: bool) returns (r: Result<()>)
      modifies this`partners
      ensures LandsAlone(old(State()), Model.SetPartner(old(State()).ledger, env, caller, partner, authorized),
                         State(), r)
    {
      if caller !in env.auth { return Err(AuthMissing); }
      if caller != admin { return Err(NotAuthorized); }
      if authorized && AuthorizedVerifier(partner) { return Err(RoleConflict); }
      partners := partners[partner := authorized];
      return Ok(());
    }

    method SetVerifier(env: Env, caller: Address, verifier: Address, authorized: bool) returns (r: Result<()>)
      modifies this`verifiers
      ensures LandsAlone(old(State()), Model.SetVerifier(old(State()).ledger, env, caller, verifier, authorized),
                         State(), r)
    {
      if caller !in env.auth { return Err(AuthMissing); }
      if caller != admin { return Err(NotAuthorized); }
      if authorized && AuthorizedPartner(verifier) { return Err(RoleConflict); }
      verifiers := verifiers[verifier := authorized];
      return Ok(());
    }

    method SetReputation(env: Env, caller: Address, beneficiary: Handle, scoreBps: u32) returns (r: Result<()>)
      modifies this`reputation
      ensures LandsAlone(old(State()), Model.SetReputation(old(State()).ledger, env, caller, beneficiary, scoreBps),
                         State(), r)
    {
      if caller !in env.auth { return Err(AuthMissing); }
      if oracle.None? { return Err(NotInitialized); }
      if caller != oracle.value { return Err(NotAuthorized); }
      if scoreBps > BPS { return Err(InvalidScore); }
      reputation := reputation[beneficiary := scoreBps];
      return Ok(());
    }

    method ReassignPartner(env: Env, caller: Address, loanId: nat, newPartner: Address) returns (r: Result<()>)
      modifies this`loans
      ensures LandsAlone(old(State()), Model.ReassignPartner(old(State()).ledger, env, caller, loanId, newPartner),
                         State(), r)
    {
      if caller !in env.auth { return Err(AuthMissing); }
      if caller != admin { return Err(NotAuthorized); }
      if !AuthorizedPartner(newPartner) { return Err(UnknownPartner); }
      if loanId !in loans { return Err(LoanNotFound); }
      var loan := loans[loanId];
      if !loan.status.Active? && !loan.status.Grace? { return Err(LoanNotActive); }
      loan := loan.(partner := newPartner);
      loans := loans[loan.id := loan];
      return Ok(());
    }

    method GetLoansRange(startId: nat, limit: u32) returns (results: seq<Loan>)
      ensures results == Page(State().ledger, startId, limit)
    {
      var actualLimit := if limit < PAGE_LIMIT then limit else PAGE_LIMIT;
      var total := loanCount;
      results := [];
      if startId == 0 || startId > total { return; }
      var endId := if startId + actualLimit < total + 1 then startId + actualLimit else total + 1;
      for id := startId to endId
        invariant results == Collect(loans, startId, id)
      {
        if id in loans {
          results := results + [loans[id]];
        }
      }
    }
  }
}
