/** Values shared by the three contracts: addresses, machine integers, call
    environments, and the result of an entry point. */
module Types {

  /** An account or contract on the ledger. */
  datatype Address = Address(id: nat)

  /** The 32-byte off-chain handle of a beneficiary. */
  datatype Handle = Handle(id: nat)

  type u32 = x: int | 0 <= x < 0x1_0000_0000
  type pos = x: int | 0 < x witness 1

  const I128_MAX: int := 0x7FFF_FFFF_FFFF_FFFF_FFFF_FFFF_FFFF_FFFF
  const U64_MAX: int := 0xFFFF_FFFF_FFFF_FFFF

  /** Whether a non-negative quantity fits its machine integer. Overflow checks are on, so
      a call that forms one that does not fit aborts. */
  predicate I128(x: int) {
    x <= I128_MAX
  }

  predicate U64(x: int) {
    x <= U64_MAX
  }

  /** Rust's `as u32`, which keeps the low 32 bits. */
  function AsU32(x: int): u32 {
    x % 0x1_0000_0000
  }

  datatype Option<+T> = None | Some(value: T)

  /** Why an entry point aborted. `AuthMissing` is the host refusing an unsigned
      address, `TokenRefused` the token contract refusing a transfer,
      `AccountingAssertion` one of the assertions in the vault's `save`, and `Overflow` an
      intermediate that does not fit its machine integer.
      `CodeReplaced` marks an executed upgrade, after which the model says nothing. */
  datatype Error =
    | AuthMissing | TokenRefused | AccountingAssertion | Overflow | CodeReplaced
    | NotInitialized | NotAuthorized | InvalidAmount | AlreadySet
    | InsufficientAvailable | InsufficientLocked | LedgerNotSet | EngineNotSet
    | NoPendingAction | ActionPending | TimelockNotExpired
    | InvalidSchedule | InvalidConfig | InvalidScore | LoanNotFound | LoanNotActive
    | LoanAlreadyOpen | NotOverdue | GraceNotExpired | Overpayment
    | UnknownPartner | UnknownVerifier | RoleConflict | Paused

  datatype Result<+T> = Ok(value: T) | Err(error: Error) {
    predicate IsFailure() {
      Err?
    }

    function PropagateFailure<U>(): Result<U>
      requires Err?
    {
      Err(error)
    }

    function Extract(): T
      requires Ok?
    {
      value
    }
  }

  /** What the host gives a call: the ledger timestamp and the addresses whose
      authorization the call carries. A contract that calls another one adds itself. */
  datatype Env = Env(now: nat, auth: set<Address>) {
    function CalledBy(self: Address): Env {
      this.(auth := auth + {self})
    }
  }
}
