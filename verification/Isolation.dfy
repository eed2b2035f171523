/** Vaults are isolated: what happens to one guarantor's position is a matter of the calls
    that name that guarantor, and of nothing else. */
module Isolation {
  import opened Types
  import opened TokenLedger
  import opened VaultModel
  import opened Solvency

  /** Any call on the vault contract, by anyone, and token transfers by others around it. */
  datatype Call =
    | Deposits(env: Env, guarantor: Address, amount: int)
    | Withdraws(env: Env, guarantor: Address, amount: int)
    | Locks(env: Env, caller: Address, guarantor: Address, amount: int)
    | Releases(env: Env, caller: Address, guarantor: Address, amount: int)
    | Forfeits(env: Env, caller: Address, guarantor: Address, amount: int)
    | Schedules(env: Env, caller: Address, action: Action)
    | Executes(env: Env, caller: Address)
    | Cancels(env: Env, caller: Address)
    | NamesLedger(env: Env, caller: Address, ledger: Address)
    | NamesEngine(env: Env, caller: Address, engine: Address)
    | Pays(sender: Address, receiver: Address, amount: int)

  function Perform(c: Custody, call: Call): Result<Custody> {
    match call
    case Deposits(env, g, a) => Deposit(c, env, g, a)
    case Withdraws(env, g, a) => Withdraw(c, env, g, a)
    case Locks(env, caller, g, a) => LockCollateral(c, env, caller, g, a)
    case Releases(env, caller, g, a) => ReleaseCollateral(c, env, caller, g, a)
    case Forfeits(env, caller, g, a) => ForfeitCollateral(c, env, caller, g, a)
    case Schedules(env, caller, action) => ScheduleAction(c, env, caller, action)
    case Executes(env, caller) => ExecuteAction(c, env, caller)
    case Cancels(env, caller) => CancelAction(c, env, caller)
    case NamesLedger(env, caller, ledger) => SetLoanLedger(c, env, caller, ledger)
    case NamesEngine(env, caller, engine) => SetLiquidationEngine(c, env, caller, engine)
    case Pays(s, r, a) =>
      if s == c.vault.self then Err(AuthMissing)
      else
        var moved :- Move(c.balances, s, r, a);
        Ok(c.(balances := moved))
  }

  /** A call that aborts changes nothing. */
  function Next(c: Custody, call: Call): Custody {
    match Perform(c, call)
    case Ok(next) => next
    case Err(_) => c
  }

  function RunCalls(c: Custody, calls: seq<Call>): Custody
    decreases |calls|
  {
    if calls == [] then c else RunCalls(Next(c, calls[0]), calls[1..])
  }

  predicate Names(call: Call, g: Address) {
    (call.Deposits? || call.Withdraws? || call.Locks? || call.Releases? || call.Forfeits?) && call.guarantor == g
  }

  /** The successful calls of a run that name `g`, in order. */
  function Mine(c: Custody, calls: seq<Call>, g: Address): seq<Call>
    decreases |calls|
  {
    if calls == [] then []
    else
      (if Names(calls[0], g) && Perform(c, calls[0]).Ok? then [calls[0]] else [])
      + Mine(Next(c, calls[0]), calls[1..], g)
  }

  /** One guarantor's position on its own: no tokens, no callers, no other guarantor. */
  function Replay1(vault: Vault, call: Call): Result<Vault> {
    match call
    case Deposits(_, _, a) =>
      if a <= 0 then Err(InvalidAmount)
      else if !I128(vault.collateralBalance + a) then Err(Overflow)
      else Ok(vault.(collateralBalance := vault.collateralBalance + a))
    case Withdraws(_, _, a) =>
      if a <= 0 then Err(InvalidAmount)
      else if a > vault.collateralBalance - vault.lockedAmount then Err(InsufficientAvailable)
      else Ok(vault.(collateralBalance := vault.collateralBalance - a))
    case Locks(_, _, _, a) =>
      if a <= 0 then Err(InvalidAmount)
      else if a > vault.collateralBalance - vault.lockedAmount then Err(InsufficientAvailable)
      else Ok(vault.(lockedAmount := vault.lockedAmount + a))
    case Releases(_, _, _, a) =>
      if a <= 0 then Err(InvalidAmount)
      else if a > vault.lockedAmount then Err(InsufficientLocked)
      else Ok(vault.(lockedAmount := vault.lockedAmount - a))
    case Forfeits(_, _, _, a) =>
      if a <= 0 then Err(InvalidAmount)
      else if a > vault.lockedAmount then Err(InsufficientLocked)
      else Ok(vault.(lockedAmount := vault.lockedAmount - a, collateralBalance := vault.collateralBalance - a))
    case _ => Ok(vault)
  }

  function Replay(vault: Vault, calls: seq<Call>): Result<Vault>
    decreases |calls|
  {
    if calls == [] then Ok(vault)
    else
      var next :- Replay1(vault, calls[0]);
      Replay(next, calls[1..])
  }

  /** The assertions in `save` are never the check that fails. */
  lemma AssertionsNeverFail(c: Custody, call: Call)
    requires CustodySound(c)
    ensures Perform(c, call) != Err(AccountingAssertion)
    ensures CustodySound(Next(c, call))
  {
    match call {
      case Deposits(env, g, a) => PositionBacked(c, g); DepositIff(c, env, g, a);
      case Withdraws(env, g, a) => PositionBacked(c, g); if g in env.auth { WithdrawIff(c, env, g, a); }
      case Locks(env, caller, g, a) => PositionBacked(c, g); LockIff(c, env, caller, g, a);
      case Releases(env, caller, g, a) => PositionBacked(c, g); ReleaseIff(c, env, caller, g, a);
      case Forfeits(env, caller, g, a) => PositionBacked(c, g); ForfeitIff(c, env, caller, g, a);
      case _ =>
    }
  }

  /** A successful call moves the position it names as it would on its own, and no other. */
  lemma OneCall(c: Custody, call: Call, g: Address)
    requires CustodySound(c)
    ensures if Names(call, g) && Perform(c, call).Ok?
            then Replay1(VaultOf(c.vault, g), call) == Ok(VaultOf(Next(c, call).vault, g))
            else VaultOf(Next(c, call).vault, g) == VaultOf(c.vault, g)
  {
    PositionBacked(c, g);
  }

  /** When a call on a position goes through. */
  lemma SuccessIff(c: Custody, call: Call)
    requires CustodySound(c)
    ensures var v := c.vault;
            match call
            case Deposits(env, g, a) =>
              Perform(c, call).Ok? <==>
                && g in env.auth && 0 < a <= BalanceOf(c.balances, g) && g != v.self
                && I128(VaultOf(v, g).collateralBalance + a)
            case Withdraws(env, g, a) => Perform(c, call).Ok? <==> g in env.auth && 0 < a <= Available(v, g)
            case Locks(env, caller, g, a) =>
              Perform(c, call).Ok? <==>
                caller in env.auth && v.loanLedger == Some(caller) && 0 < a <= Available(v, g)
            case Releases(env, caller, g, a) =>
              Perform(c, call).Ok? <==>
                && caller in env.auth && (v.loanLedger == Some(caller) || v.liquidationEngine == Some(caller))
                && 0 < a <= VaultOf(v, g).lockedAmount
            case Forfeits(env, caller, g, a) =>
              Perform(c, call).Ok? <==>
                caller in env.auth && v.liquidationEngine == Some(caller) && 0 < a <= VaultOf(v, g).lockedAmount
            case _ => true
  {
    match call {
      case Deposits(env, g, a) => DepositIff(c, env, g, a);
      case Withdraws(env, g, a) => if g in env.auth { WithdrawIff(c, env, g, a); }
      case Locks(env, caller, g, a) => LockIff(c, env, caller, g, a);
      case Releases(env, caller, g, a) => ReleaseIff(c, env, caller, g, a);
      case Forfeits(env, caller, g, a) => ForfeitIff(c, env, caller, g, a);
      case _ =>
    }
  }

  /** Whether a call that names `g` goes through, and where it leaves `g`, is settled by the
      wiring and `g`'s own position, and for a deposit `g`'s own tokens. Two vaults that agree
      on those answer alike, whatever every other guarantor holds or has locked. */
  lemma SuccessIsLocal(c: Custody, d: Custody, call: Call, g: Address)
    requires CustodySound(c) && CustodySound(d) && Names(call, g)
    requires c.vault.self == d.vault.self && c.vault.loanLedger == d.vault.loanLedger
    requires c.vault.liquidationEngine == d.vault.liquidationEngine
    requires VaultOf(c.vault, g) == VaultOf(d.vault, g)
    requires call.Deposits? ==> BalanceOf(c.balances, g) == BalanceOf(d.balances, g)
    ensures Perform(c, call).Ok? <==> Perform(d, call).Ok?
    ensures VaultOf(Next(c, call).vault, g) == VaultOf(Next(d, call).vault, g)
  {
    SuccessIff(c, call);
    SuccessIff(d, call);
    OneCall(c, call, g);
    OneCall(d, call, g);
  }

  /** The vault names this ledger or none yet, and everything unlocked. */
  ghost predicate Idle(c: Custody, ledger: Address) {
    CustodySound(c) && NothingLocked(c.vault) && (c.vault.loanLedger == None || c.vault.loanLedger == Some(ledger))
  }

  /** The call names no other ledger, and does not lock on this one's authority. */
  ghost predicate WithoutLedger(call: Call, ledger: Address) {
    && (call.NamesLedger? ==> call.ledger == ledger)
    && (call.Locks? ==> ledger !in call.env.auth)
  }

  lemma CallKeepsIdle(c: Custody, call: Call, ledger: Address)
    requires Idle(c, ledger) && WithoutLedger(call, ledger)
    ensures Idle(Next(c, call), ledger)
  {
    AssertionsNeverFail(c, call);
    forall g ensures VaultOf(Next(c, call).vault, g).lockedAmount == 0 {
      OneCall(c, call, g);
      assert VaultOf(c.vault, g).lockedAmount == 0;
    }
  }

  /** Until the ledger itself makes a call nothing can be locked, whoever deposits, withdraws,
      schedules or wires, in whatever order: a system wired step by step still starts with
      nothing locked and every position backed. */
  lemma {:induction false} NothingLockedUnwired(c: Custody, calls: seq<Call>, ledger: Address)
    requires Idle(c, ledger) && forall call :: call in calls ==> WithoutLedger(call, ledger)
    ensures Idle(RunCalls(c, calls), ledger)
    decreases |calls|
  {
    if calls != [] {
      assert calls[0] in calls;
      CallKeepsIdle(c, calls[0], ledger);
      NothingLockedUnwired(Next(c, calls[0]), calls[1..], ledger);
    }
  }

  /** However calls for different guarantors interleave, and whatever fails, `g`'s position
      is the one reached by replaying, alone, the successful calls that name `g`. */
  lemma {:induction false} VaultsAreIsolated(c: Custody, calls: seq<Call>, g: Address)
    requires CustodySound(c)
    ensures Replay(VaultOf(c.vault, g), Mine(c, calls, g)) == Ok(VaultOf(RunCalls(c, calls).vault, g))
    ensures CustodySound(RunCalls(c, calls))
    decreases |calls|
  {
    if calls != [] {
      var next := Next(c, calls[0]);
      AssertionsNeverFail(c, calls[0]);
      OneCall(c, calls[0], g);
      VaultsAreIsolated(next, calls[1..], g);
      var mine, rest := Mine(c, calls, g), Mine(next, calls[1..], g);
      if Names(calls[0], g) && Perform(c, calls[0]).Ok? {
        assert mine[1..] == rest;
      } else {
        assert mine == rest;
      }
    }
  }
}
