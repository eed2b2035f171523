# RemitCollateral contracts: a verified model

The model covers the three Soroban contracts as one system: the guarantor vault, which keeps a
collateral position per guarantor and holds the tokens; the loan ledger, which locks and releases
that collateral as loans are opened and repaid; and the liquidation engine, whose permissionless
cranks move late loans into grace and then into default. No contract sees the whole: the vault does
not know what a loan is, the ledger keeps its own count of the same collateral, and the engine
settles one against the other. The results below are about what the three do together.

How it is organised:

- `Types`, `IntDivision`, `TokenLedger`: shared values, floor division, and the token as a balance sheet.
- `VaultModel`, `LoanModel`, `LedgerModel`, `EngineModel`: storage and entry points as transitions.
  A transition yields the next state or the check that refused.
- `GuarantorVault`, `LoanLedger`, `LiquidationEngine`, `Deployment`: the contracts as objects whose
  methods update storage in place. Each method is proved to land exactly on its transition, and an
  aborted call to leave no trace.
- `Protocol`: the composed state machine. A transaction carries the seconds since the last one, its
  signers and a command; it runs to the end or changes only the clock. A run is any sequence of them.
- `Driver`: a sequence of transactions carried out on the objects is a run of the state machine, so
  the results about runs are results about the objects.
- `Solvency`, `Invariants`, `Cranks`, `Steps`: the invariant and its proof for every transaction.
- `Curve`, `Schedule`: the arithmetic of a single loan.
- `Rules`, `VaultRules`, `LedgerRules`, `EngineRules`: the entry points in plain numbers. For every reachable
  state, exactly when a call goes through and the whole state it leaves, written with literal limits and stored
  fields only, apart from the transitions and their helpers.
- `Administration`, `Governance`: roles, scores, pause, timelock and settlement address as a small machine of
  its own that no lending interferes with, and what that means for revoked, cancelled and paused things.
- `Guarantees`, `Default`, `Recovery`, `Termination`, `Batching`, `Accounting`, `Surplus`, `Isolation`,
  `Roles`, `Timelock`, `Overflow`, `Pagination`: the main results.
- `Scenario`: runs from deployment. One reaches a default, so the states the results are about do come
  about; the others are the inputs on which the code falls short.

Conventions. Runs start from a deployed and wired system before its first loan (`Protocol.Genesis`), with
arbitrary roles, scores, token balances and configuration, and with any deposits made and any action
scheduled before the wiring. `Deployment.Deploy` shows that the deployment sequence reaches such a state,
and `Isolation.NothingLockedUnwired` that other calls before, between and after the wiring steps lock nothing
in the vault. The configuration is any that the ledger's constructor accepts. The signers of a transaction
are arbitrary, except that the three contracts hold no keys.

Machine integers. Numbers are integers, and an entry point aborts with `Overflow` where the code would
form a number outside i128 or u64, as overflow checks are on (`contracts/Cargo.toml:14`); `u32` casts wrap.
`Overflow.StorageAlwaysFits` shows that the storage of the three contracts then never holds a number out of range.

Where the code says more or less than its comments:

- The configuration check does not force a floor of 100%. Below 100% a loan is not covered, and its
  liquidation falls short (`Scenario.CoverCanFallShort`); `Guarantees.CoverNeedsFullLtv` gives the exact condition.
- It does not bound the grace period either. Where `now + grace_period_secs` does not fit u64, an overdue
  loan can be neither flagged nor poked (`Scenario.GraceCanOverflow`); `Guarantees.PokeNeverStuck` gives the
  exact condition.
- A loan can be opened on terms under which some of its repayments overflow (`Scenario.HalfCanOverflow`);
  `Overflow.NeverOverflowsIff` gives the exact condition. Splitting a repayment is then not always possible
  (`Batching.EverySplitIff`).
- Closing a loan leaves its last due date in the record, so `Batching` compares due dates of open loans only.

## Model

| member | source | states |
|---|---|---|
| GuarantorVault.GuarantorVault.Deposit | contracts/guarantor_vault/src/lib.rs:269-299 | crediting a deposit in place lands on the deposit transition; a refused transfer, a wrong delta, an overflow or a failed save reverts tokens and position alike |
| GuarantorVault.GuarantorVault.Withdraw | contracts/guarantor_vault/src/lib.rs:302-331 | paying out lands on the withdrawal transition; if the token refuses, the position is as before |
| GuarantorVault.GuarantorVault.LockCollateral | contracts/guarantor_vault/src/lib.rs:336-363 | reserving collateral lands on the lock transition, for the wired ledger only |
| GuarantorVault.GuarantorVault.ReleaseCollateral | contracts/guarantor_vault/src/lib.rs:368-394 | returning collateral lands on the release transition, for the wired ledger or engine only |
| GuarantorVault.GuarantorVault.ForfeitCollateral | contracts/guarantor_vault/src/lib.rs:398-433 | seizing lands on the forfeit transition; position and tokens move together or not at all |
| GuarantorVault.GuarantorVault.Save | contracts/guarantor_vault/src/lib.rs:501-515 | stores a position under its own guarantor exactly when 0 <= locked <= balance |
| GuarantorVault.GuarantorVault.SetLoanLedger | contracts/guarantor_vault/src/lib.rs:149-159 | wires the ledger once and refuses a second time |
| GuarantorVault.GuarantorVault.SetLiquidationEngine | contracts/guarantor_vault/src/lib.rs:163-172 | wires the engine once and refuses a second time |
| GuarantorVault.GuarantorVault.ScheduleAction | contracts/guarantor_vault/src/lib.rs:177-195 | fills the one pending slot with an action due a timelock from now, or aborts if that moment does not fit u64 |
| GuarantorVault.GuarantorVault.ExecuteAction | contracts/guarantor_vault/src/lib.rs:198-217 | takes effect only once due, and empties the slot |
| GuarantorVault.GuarantorVault.CancelAction | contracts/guarantor_vault/src/lib.rs:220-227 | empties the slot and leaves the settlement address alone |
| LoanLedger.LoanLedger.Deploy | contracts/loan_ledger/src/lib.rs:164-186 | a ledger comes into being exactly for a floor within the base rate, a buffer below 100% and a grace period above zero, with no loans |
| LoanLedger.LoanLedger.RequiredLtvBps | contracts/loan_ledger/src/lib.rs:368-374 | reads the rate the transition prescribes from the stored score, between the floor and the base rate |
| LoanLedger.LoanLedger.Originate | contracts/loan_ledger/src/lib.rs:382-453 | opening a loan in place lands on the origination transition in both contracts; an overflow after the lock takes the lock back |
| LoanLedger.LoanLedger.Credit | contracts/loan_ledger/src/lib.rs:502-552 | rewriting the record field by field gives the repaid record and the release due, aborts exactly when an intermediate does not fit, and keeps a sound record sound |
| LoanLedger.LoanLedger.AttestRepayment | contracts/loan_ledger/src/lib.rs:468-556 | attesting in place lands on the repayment transition in both contracts, or changes nothing |
| LoanLedger.LoanLedger.MarkGrace | contracts/loan_ledger/src/lib.rs:561-578 | moves an overdue loan into grace for the engine only, unless the deadline does not fit u64 |
| LoanLedger.LoanLedger.MarkDefaulted | contracts/loan_ledger/src/lib.rs:582-602 | closes a loan whose grace ran out and unindexes it, for the engine only |
| LoanLedger.LoanLedger.SetPartner | contracts/loan_ledger/src/lib.rs:212-221 | registers or revokes a partner, never an acting verifier |
| LoanLedger.LoanLedger.SetVerifier | contracts/loan_ledger/src/lib.rs:228-237 | registers or revokes a verifier, never an acting partner |
| LoanLedger.LoanLedger.SetReputation | contracts/loan_ledger/src/lib.rs:241-258 | stores scores of at most 100%, from the oracle only |
| LoanLedger.LoanLedger.ReassignPartner | contracts/loan_ledger/src/lib.rs:262-274 | moves an open loan to an authorized partner and changes nothing else |
| LoanLedger.LoanLedger.GetLoansRange | contracts/loan_ledger/src/lib.rs:687-705 | the loop collects exactly the page of existing loans in id order |
| LiquidationEngine.LiquidationEngine.FlagOverdue | contracts/liquidation_engine/src/lib.rs:227-237 | the crank lands on the grace transition, or aborts without effect |
| LiquidationEngine.LiquidationEngine.Settle | contracts/liquidation_engine/src/lib.rs:265-272 | the two vault calls both happen or neither does |
| LiquidationEngine.LiquidationEngine.SettleAndClose | contracts/liquidation_engine/src/lib.rs:254-275 | splits what remains, settles it and closes the loan across all three contracts, or changes nothing anywhere |
| LiquidationEngine.LiquidationEngine.Liquidate | contracts/liquidation_engine/src/lib.rs:244-276 | liquidates an expired loan when not paused, landing on the liquidation transition in all three contracts |
| LiquidationEngine.LiquidationEngine.Poke | contracts/liquidation_engine/src/lib.rs:280-295 | advances whichever transition is due and reports whether it did |
| LiquidationEngine.LiquidationEngine.SetPaused | contracts/liquidation_engine/src/lib.rs:204-215 | only the admin pauses or resumes |
| Deployment.Deploy | scripts/deploy.sh:58-75 | constructing and wiring once yields a state from which every run guarantee starts |
| Driver.Dispatch | contracts/liquidation_engine/src/lib.rs:204-295 | any call on any of the objects leaves all of them where the state machine's command does |
| Driver.Process | contracts/loan_ledger/src/lib.rs:382-602 | any sequence of transactions on the wired objects leaves them in the state the run of the state machine ends in, and in a sound one if they started freshly deployed |
| Steps.StepKeepsInv | contracts/loan_ledger/src/lib.rs:382-602 | every transaction, by anyone, keeps both books, solvency, index, curve, schedule and clock |
| Steps.Reachable | contracts/loan_ledger/src/lib.rs:164-186 | so they hold after every run from deployment, deposits made before the wiring included |
| Steps.StepOnLoan | contracts/loan_ledger/src/lib.rs:468-602 | a transaction does to a stored loan exactly one of five allowed things |
| Steps.StepNewLoan | contracts/loan_ledger/src/lib.rs:421-452 | a loan appears only by origination, under the next id, on the terms its guarantor signed |
| Steps.StepLiquidates | contracts/liquidation_engine/src/lib.rs:244-295 | a liquidation, called for or made by poke, pays the forfeited share to the settlement address in force, unlocks all the loan still locked, and moves no other position |
| VaultRules.WiredForGood | contracts/guarantor_vault/src/lib.rs:149-172 | whatever is called, in a wired system or not, a contract keeps for good what it was told of another, and a slot is filled only by its own call, empty and signed for by its admin |
| VaultRules.DepositRule | contracts/guarantor_vault/src/lib.rs:269-299 | a deposit goes through iff signed by a guarantor who has the tokens and the balance fits i128; it credits one position, moves the tokens, and writes nothing else |
| VaultRules.WithdrawRule | contracts/guarantor_vault/src/lib.rs:302-331 | a withdrawal goes through iff signed and within balance less lock; it debits one position, pays the tokens, and writes nothing else |
| LedgerRules.OriginationRule | contracts/loan_ledger/src/lib.rs:382-420 | a loan can be opened iff signed, positive, 1 to 52 installments 1 to 90 days apart within 365 days, with a partner of standing, no live loan of the pair, the collateral at the score's rate available, and everything within i128 and u64; a schedule outside is refused as InvalidSchedule |
| LedgerRules.OriginationEffect | contracts/loan_ledger/src/lib.rs:417-453 | it stores exactly that loan under the next id and in the index, locks its collateral, and writes nothing else |
| LedgerRules.AttestationRule | contracts/loan_ledger/src/lib.rs:475-498 | a repayment can be attested iff both keys signed and stand, the partner is the loan's, the loan is live, the amount is within what is owed, and every product and date fits |
| LedgerRules.AttestationEffect | contracts/loan_ledger/src/lib.rs:498-556 | it credits the record to the unit (released collateral the exact share rounded down once, installments by money, due date and grace accordingly), unlocks and reports what it releases, unindexes a repaid loan, and writes nothing else |
| LedgerRules.ReassignmentRule | contracts/loan_ledger/src/lib.rs:262-274 | a live loan moves to a partner of standing iff the ledger's admin signs, and only its partner changes |
| EngineRules.FlagRule | contracts/liquidation_engine/src/lib.rs:227-237 | flag_overdue goes through iff unpaused, the loan is Active and past the due date of the first installment its money does not cover, and the deadline fits u64; it only puts that loan in grace until then |
| EngineRules.LiquidateRule | contracts/liquidation_engine/src/lib.rs:244-276 | liquidate goes through iff unpaused and the loan's deadline in grace has passed; it forfeits and reports the smaller of what is owed and what is left, pays it to settlement, unlocks the rest, closes and unindexes the loan, and writes nothing else |
| EngineRules.PokeRule | contracts/liquidation_engine/src/lib.rs:280-295 | poke does exactly the one of these that is due and says true, or nothing and says false |
| Guarantees.TwoBooksAgree | contracts/guarantor_vault/src/lib.rs:336-433 | in every reachable state the vault's lock on a guarantor is the ledger's remaining collateral summed over all of that guarantor's loans |
| Guarantees.AlwaysSolvent | contracts/guarantor_vault/src/lib.rs:277-288 | the vault's token balance covers the sum of all positions, whoever the guarantor or the settlement address is |
| Surplus.SurplusIsGifts | contracts/guarantor_vault/src/lib.rs:277-422 | over every run the vault's tokens beyond the sum of positions grow by exactly what is transferred to it outside its entry points and what it forfeits to itself, and never shrink |
| Guarantees.CanWithdrawExactlyAvailable | contracts/guarantor_vault/src/lib.rs:310-320 | a withdrawal succeeds if and only if it is positive and within what is unlocked |
| Guarantees.DepositsAreReversible | contracts/guarantor_vault/src/lib.rs:269-331 | in every reachable state a deposit can be withdrawn at once, which restores every position, every token balance and the ledger |
| Guarantees.IndexIsExact | contracts/loan_ledger/src/lib.rs:409-452 | the index names a loan for a pair iff it is that pair's open one; at most one open loan per pair; ids dense from 1 |
| Guarantees.OnTheCurve | contracts/loan_ledger/src/lib.rs:511-529 | the collateral released on a live loan is the largest whole amount within its exact share, below the proportional share, with the buffer and at least one unit locked; closed loans lock nothing |
| Guarantees.OnSchedule | contracts/loan_ledger/src/lib.rs:396-404 | k installments count as paid iff k/n of the principal is; the due date follows, within the tenor and a year |
| Guarantees.DueNeverMovesBack | contracts/loan_ledger/src/lib.rs:540-543 | along any run covered installments and the due date only move forward |
| Guarantees.ReputationNeverCostsMore | contracts/loan_ledger/src/lib.rs:368-374 | at every moment of every run a higher score never raises the rate, which runs from the base rate down to the floor |
| Guarantees.FullyCovered | contracts/loan_ledger/src/lib.rs:511-519 | a loan taken at 100% or more has remaining collateral at least its outstanding principal in every reachable open state |
| Guarantees.FloorCoversEveryLoan | contracts/loan_ledger/src/lib.rs:172-177 | a configured floor of 100% makes every loan such a loan |
| Guarantees.CoverNeedsFullLtv | contracts/loan_ledger/src/lib.rs:415-419 | a loan just opened in any run is covered through every continuation iff its rate is at least 100%; below that it is not covered as it stands |
| Scenario.CoverCanFallShort | contracts/liquidation_engine/src/lib.rs:254-263 | a run under a floor of 90%: a loan of 1000 locks 900, defaults unpaid, and its liquidation seizes 900 for an outstanding 1000 |
| Guarantees.LiquidationSeizesExactlyOutstanding | contracts/liquidation_engine/src/lib.rs:254-275 | any transaction liquidating a loan taken at 100% or more seizes exactly the outstanding principal, pays settlement, and frees the rest for the guarantor |
| Guarantees.PokeNeverStuck | contracts/liquidation_engine/src/lib.rs:280-295 | unpaused, poke leaves an Active loan in grace until now plus the grace period iff it is past the due date its money sets, and a loan in grace defaulted iff its deadline has passed; it aborts iff a loan is late and that deadline does not fit u64 |
| Scenario.GraceCanOverflow | contracts/loan_ledger/src/lib.rs:172-177 | a run under a grace period of 2^64 - 1 seconds, which the constructor accepts: at no time past its due date can the loan be poked or flagged |
| Overflow.NoGraceWithoutRoom | contracts/loan_ledger/src/lib.rs:573-576 | where the grace period leaves no room for a deadline past the shortest interval, no run ever puts any loan into grace or default |
| Guarantees.CranksSucceedWhenDue | contracts/liquidation_engine/src/lib.rs:227-276 | liquidate succeeds iff the deadline in grace has passed, flag_overdue iff the Active loan is past its due date and the new deadline fits u64; no vault, token or ledger check can block them otherwise |
| Guarantees.LedgerCallsSucceedWhenAllowed | contracts/loan_ledger/src/lib.rs:382-556 | originations and attestations succeed iff the ledger's rules, the available collateral and the i128 and u64 range of their intermediates allow, never failing inside the vault on a release |
| Default.DefaultIsEarned | contracts/loan_ledger/src/lib.rs:538-602 | every default in every run was preceded by grace opened past the due date, more than the grace period earlier, with the loan behind at every moment since |
| Default.GraceMeansBehind | contracts/loan_ledger/src/lib.rs:561-578 | a loan in grace is past the first installment its money does not cover |
| Default.GraceEndsOnlyWhenCurrent | contracts/loan_ledger/src/lib.rs:538-552 | whatever a transaction does to a loan in grace, if it is still open it is active iff the money repaid makes it current, and otherwise in grace under the same deadline |
| Default.TwoPokesEndALoan | contracts/liquidation_engine/src/lib.rs:280-295 | after maturity two pokes more than the grace period apart, the second at a time that fits u64, leave the loan repaid or defaulted, whatever happens around them |
| Recovery.NothingIsStranded | contracts/liquidation_engine/src/lib.rs:280-295 | from every reachable state with the engine unpaused, if some time past every maturity leaves a grace period within u64, there is a run of pokes signed by nobody that closes every loan and after which every guarantor can withdraw all the collateral left |
| Recovery.FreeWithoutLoans | contracts/guarantor_vault/src/lib.rs:310-320 | after every run a guarantor without an open loan has all of their collateral available |
| Scenario.ALoanCanDefault | contracts/liquidation_engine/src/lib.rs:227-295 | a loan of 1000 against 1500 is opened, falls late, sits out its grace and defaults, so the premises above are met by an actual run |
| Scenario.UnevenRunsItsCourse | contracts/liquidation_engine/src/test.rs:408-440 | 333 over three months locks 499; attesting 111 releases 158, and after grace from day 61 the default at day 80 forfeits 222 and frees 119 |
| Scenario.UnevenFallsLate | contracts/liquidation_engine/src/lib.rs:280-295 | the same loan unpaid goes into grace when poked on day 31 |
| Default.NoReturnAfterMaturity | contracts/loan_ledger/src/lib.rs:545-551 | after maturity no transaction makes the loan Active again or extends its deadline |
| Termination.EveryChangeDescends | contracts/loan_ledger/src/lib.rs:498-602 | each payment, grace opening or liquidation lowers (principal owed, status) lexicographically |
| Termination.GraceCostsAnInstallment | contracts/loan_ledger/src/lib.rs:548-577 | between two grace openings at least one more installment has been covered |
| Termination.EveryLoanTerminates | contracts/loan_ledger/src/lib.rs:468-602 | over any run a loan enters grace at most n times and changes at most principal + n + 1 times |
| Batching.BatchingDoesNotMatter | contracts/loan_ledger/src/lib.rs:498-552 | if a sequence of repayments goes through, so does their sum, with the same vault, ledger, money and total release, and the same loan if made at one time; and it does if the sum does and leaves the loan open or on terms under which no payment overflows |
| Batching.EverySplitIff | contracts/loan_ledger/src/lib.rs:498-552 | every way to split an amount goes through iff the amount does at once and it leaves the loan open or on terms under which no payment overflows |
| Batching.SeparateTransactionsAreOne | contracts/loan_ledger/src/lib.rs:468-556 | in every reachable state, attesting a sum part by part in transactions of one ledger time leaves the same world as attesting it at once |
| Accounting.LifetimeBalance | contracts/guarantor_vault/src/lib.rs:286-414 | over every run a position's balance is what it started with plus deposits minus withdrawals minus forfeitures on that guarantor's loans |
| Accounting.ClosedLoanAccountedFor | contracts/liquidation_engine/src/lib.rs:258-275 | a closed loan's collateral is what attestations reported released plus what its liquidation forfeited and gave back |
| Accounting.RepaidIsAttested | contracts/loan_ledger/src/lib.rs:502-502 | over every run the principal repaid on a loan is the sum of its successful attestations |
| Accounting.OnlyTheSumMatters | contracts/loan_ledger/src/lib.rs:498-552 | two continuations of a run, whatever else they hold, leave a loan with the same principal repaid and installments covered if the sums attested on it are equal, and with the same collateral released and due date if it is open in both |
| Isolation.VaultsAreIsolated | contracts/guarantor_vault/src/lib.rs:269-433 | under any interleaving, wiring calls included, a position equals the replay, alone, of the successful calls naming it |
| Isolation.SuccessIsLocal | contracts/guarantor_vault/src/lib.rs:269-433 | whether a call on a position succeeds, and where it leaves it, depends on the wiring and that guarantor's own position and tokens only |
| Isolation.AssertionsNeverFail | contracts/guarantor_vault/src/lib.rs:501-509 | the assertions in save are never the check that fails |
| Isolation.NothingLockedUnwired | contracts/guarantor_vault/src/lib.rs:336-350 | until the ledger itself makes a call, no sequence of deposits, withdrawals, wiring steps and other calls locks anything in the vault |
| Solvency.DepositIff | contracts/guarantor_vault/src/lib.rs:269-288 | a deposit succeeds iff signed, positive, affordable, within i128 and not from the vault itself, and moves one position and the tokens |
| Solvency.ForfeitIff | contracts/guarantor_vault/src/lib.rs:398-422 | a seizure within the lock never runs short of tokens and pays the address in force that amount |
| Roles.RolesStayDisjoint | contracts/loan_ledger/src/lib.rs:212-237 | no address is ever partner and verifier at once |
| Roles.EveryAttestationHasTwoHalves | contracts/loan_ledger/src/lib.rs:479-497 | each successful attestation carries two distinct signers, neither able to act as the other |
| Administration.StepAdministers | contracts/guarantor_vault/src/lib.rs:149-227 | every transaction, lending included, moves roles, scores, oracle, pause, timelock slot and settlement address exactly as a small machine of their own says, and an administrative call goes through iff that machine permits it |
| Administration.RunAdministers | contracts/loan_ledger/src/lib.rs:190-274 | so over every run the administration is that machine under the run's clock and signatures |
| Governance.CancelledForGood | contracts/guarantor_vault/src/lib.rs:220-227 | the admin can cancel iff something is pending; until something is scheduled again nothing can then be executed and the settlement address does not change |
| Governance.RevokedPartnerIsOut | contracts/loan_ledger/src/lib.rs:215-221 | until a revoked partner is authorized again no attestation by it, origination with it or reassignment to it goes through |
| Governance.RevokedVerifierIsOut | contracts/loan_ledger/src/lib.rs:231-237 | until a revoked verifier is authorized again no attestation with it goes through |
| Governance.RegistrationMovesOne | contracts/loan_ledger/src/lib.rs:215-237 | a registration or revocation goes through iff the admin signs and the other role is not held, and settles the standing of that one address in that one role |
| Governance.PausedStandsStill | contracts/liquidation_engine/src/lib.rs:204-215 | the engine's admin can pause; until resumed no loan enters grace or default, flag and liquidate are refused, and poke does nothing |
| Governance.OnlyOracleScores | contracts/loan_ledger/src/lib.rs:241-254 | a score is accepted iff the oracle on record signs and it is at most 100% |
| Governance.ScoreIsLastPublished | contracts/loan_ledger/src/lib.rs:255-257 | over every run a beneficiary's score is the one last published |
| Timelock.SettlementIsTimelocked | contracts/guarantor_vault/src/lib.rs:177-217 | at all times the settlement address is the initial one, the one already pending at the start of the run, or one scheduled in it that waited out the timelock uncancelled |
| Timelock.ChangesAreFarApart | contracts/guarantor_vault/src/lib.rs:180-209 | two changes of the settlement address are at least the timelock apart |
| Timelock.ScheduledTakesEffect | contracts/guarantor_vault/src/lib.rs:177-217 | a scheduled settlement address still pending after any run can be executed by the admin iff the timelock has passed since it was scheduled, and that puts exactly it in force |
| Timelock.ForfeituresPayTheAddressInForce | contracts/guarantor_vault/src/lib.rs:416-422 | every liquidation, poke's included, credits the settlement address of that moment with exactly what it forfeits |
| Curve.Monotone | contracts/loan_ledger/src/lib.rs:515-518 | repaying more never earns back less |
| Curve.RoundedDownOnce | contracts/loan_ledger/src/lib.rs:516-518 | the release is the largest whole amount within the exact share less the buffer |
| Curve.AtMostProportional | contracts/loan_ledger/src/test.rs:845-851 | the released share never exceeds the repaid share |
| Curve.BufferWithheld | contracts/loan_ledger/src/lib.rs:461-467 | short of full repayment at least one unit and the buffer share stay locked |
| Curve.AgainstTwoStepRounding | contracts/loan_ledger/src/lib.rs:516-518 | the single rounding is the exact share rounded down, and the twice-rounded amount or one unit more |
| Overflow.NeverOverflowsIff | contracts/loan_ledger/src/lib.rs:498-543 | in no continuation of a run does any payment on a loan overflow iff those two payments fit now |
| Overflow.AllFitIff | contracts/loan_ledger/src/lib.rs:502-543 | every payment a loan can still receive fits iff the closing one and the one a unit short of it do |
| Overflow.FitsFromInNumbers | contracts/loan_ledger/src/lib.rs:502-543 | that condition in numbers fixed at origination: the installment product of the principal, and for two units or more still owed the curve's products and the last due date short of closing |
| Scenario.HalfCanOverflow | contracts/loan_ledger/src/lib.rs:516-518 | a run in which a loan of 10^21 opens at 150% and can be repaid at once, while attesting half of it overflows |
| Overflow.SettlementFits | contracts/liquidation_engine/src/lib.rs:254-263 | in every reachable state all a liquidation computes lies between 0 and an amount in storage |
| Overflow.StorageAlwaysFits | contracts/Cargo.toml:14-14 | over every run every amount, date, id and count in every loan record, every position, the index, the timelock and its pending action stays within its machine integer, and no amount is negative |
| Pagination.PagesListEveryLoanOnce | contracts/loan_ledger/src/lib.rs:687-705 | after every run reading page by page with any positive limit lists loans 1 to the count, each once, in order |
| Pagination.PageShape | contracts/loan_ledger/src/lib.rs:688-698 | after every run a page is empty iff it starts outside the ids in use, and otherwise holds the loans from there on, as many as the smallest of the limit, 50 and the loans left |

## Left out

- GuarantorVault.GuarantorVault.ExecuteAction: an `Upgrade` whose time has come is refused, where the code replaces the contract; nothing can be said of code not given, so runs are those before it. The ledger's and the engine's own timelocks schedule nothing but upgrades and are not modelled.
- Isolation.VaultsAreIsolated: replays the checks and arithmetic of a position, not who called or which tokens moved; `Isolation.SuccessIsLocal` states what success depends on.
- Admin handover in two steps: the admin is fixed during a run; no result depends on who it is.
- Storage lifetimes and archival: they do not change protocol state.
- The reentrancy guard: with atomic calls and a token that calls nothing back it is always clear on entry.
- Token internals: a transfer moves exactly the amount or is refused; issuance, clawback, the range of balances and the token's own authorization are not modelled.
- Ledger time is not bounded by u64; a result that needs a time to fit says so. Nor are the id sums in `get_loans_range`, which would take 2^64 loans to overflow.
- Signature checking: the signers of a transaction are given as a set; a contract adds itself to the calls it makes.
- Events, numeric error codes and plain getters.
- Off-chain parts: scores, attested amounts and disbursement are arbitrary inputs.
