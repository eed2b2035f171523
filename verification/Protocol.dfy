/** The three contracts, the token and the clock as one state machine. A transaction
    either runs to the end or changes nothing but the clock. */
module Protocol {
  import opened Types
  import opened TokenLedger
  import opened LoanModel
  import Solvency
  import V = VaultModel
  import L = LedgerModel
  import E = EngineModel

  datatype World = World(now: nat, engine: E.EngineState, books: L.Books)

  predicate HasLoan(w: World, id: nat) {
    id in w.books.ledger.loans
  }

  function LoanIn(w: World, id: nat): Loan
    requires HasLoan(w, id)
  {
    w.books.ledger.loans[id]
  }

  /** Every public entry point that changes state, and transfers of the token by others.
      `LockCollateral` to `MarkDefaulted` are the privileged ones called from outside. */
  datatype Command =
    | TokenTransfer(sender: Address, receiver: Address, amount: int)
    | Deposit(guarantor: Address, amount: int)
    | Withdraw(guarantor: Address, amount: int)
    | LockCollateral(caller: Address, guarantor: Address, amount: int)
    | ReleaseCollateral(caller: Address, guarantor: Address, amount: int)
    | ForfeitCollateral(caller: Address, guarantor: Address, amount: int)
    | MarkGrace(caller: Address, loanId: nat)
    | MarkDefaulted(caller: Address, loanId: nat)
    | Originate(guarantor: Address, beneficiary: Handle, partner: Address,
                principalUsd: int, installmentCount: u32, intervalSecs: nat)
    | AttestRepayment(partner: Address, verifier: Address, loanId: nat, amount: int)
    | FlagOverdue(loanId: nat)
    | Liquidate(loanId: nat)
    | Poke(loanId: nat)
    | ScheduleAction(admin: Address, action: V.Action)
    | ExecuteAction(admin: Address)
    | CancelAction(admin: Address)
    | SetLoanLedger(admin: Address, ledger: Address)
    | SetVaultEngine(admin: Address, engine: Address)
    | SetLedgerEngine(admin: Address, engine: Address)
    | SetOracle(admin: Address, oracle: Address)
    | SetPartner(admin: Address, partner: Address, authorized: bool)
    | SetVerifier(admin: Address, verifier: Address, authorized: bool)
    | SetReputation(oracle: Address, beneficiary: Handle, scoreBps: u32)
    | ReassignPartner(admin: Address, loanId: nat, partner: Address)
    | SetPaused(admin: Address, paused: bool)

  /** A transaction arrives some seconds after the previous one, signed by `signers`. */
  datatype Tx = Tx(elapsed: nat, signers: set<Address>, command: Command)

  /** Contracts hold no keys: each of the three authorizes only the calls its own code makes. */
  function External(w: World, signers: set<Address>): Env {
    Env(w.now, signers - {w.books.custody.vault.self, w.books.ledger.self, w.engine.self})
  }

  function WithCustody(w: World, r: Result<V.Custody>): Result<World> {
    var custody :- r;
    Ok(w.(books := w.books.(custody := custody)))
  }

  function WithLedger(w: World, r: Result<L.LedgerState>): Result<World> {
    var ledger :- r;
    Ok(w.(books := w.books.(ledger := ledger)))
  }

  function WithBooks<T>(w: World, r: Result<(L.Books, T)>): Result<World> {
    var (books, _) :- r;
    Ok(w.(books := books))
  }

  function TransferTokens(c: V.Custody, env: Env, sender: Address, receiver: Address, amount: int): Result<V.Custody> {
    if sender !in env.auth || sender == c.vault.self then Err(AuthMissing)
    else
      var moved :- Move(c.balances, sender, receiver, amount);
      Ok(c.(balances := moved))
  }

  /** The command run at the world's current time. */
  function Execute(w: World, signers: set<Address>, command: Command): Result<World> {
    var env := External(w, signers);
    var b := w.books;
    match command
    case TokenTransfer(s, r, a) => WithCustody(w, TransferTokens(b.custody, env, s, r, a))
    case Deposit(g, a) => WithCustody(w, V.Deposit(b.custody, env, g, a))
    case Withdraw(g, a) => WithCustody(w, V.Withdraw(b.custody, env, g, a))
    case LockCollateral(c, g, a) => WithCustody(w, V.LockCollateral(b.custody, env, c, g, a))
    case ReleaseCollateral(c, g, a) => WithCustody(w, V.ReleaseCollateral(b.custody, env, c, g, a))
    case ForfeitCollateral(c, g, a) => WithCustody(w, V.ForfeitCollateral(b.custody, env, c, g, a))
    case MarkGrace(c, id) => WithLedger(w, L.MarkGrace(b.ledger, env, c, id))
    case MarkDefaulted(c, id) => WithLedger(w, L.MarkDefaulted(b.ledger, env, c, id))
    case Originate(g, h, p, principal, n, interval) =>
      WithBooks(w, L.Originate(b, env, g, h, p, principal, n, interval))
    case AttestRepayment(p, v, id, a) => WithBooks(w, L.AttestRepayment(b, env, p, v, id, a))
    case FlagOverdue(id) =>
      var books :- E.FlagOverdue(w.engine, b, env, id);
      Ok(w.(books := books))
    case Liquidate(id) => WithBooks(w, E.Liquidate(w.engine, b, env, id))
    case Poke(id) => WithBooks(w, E.Poke(w.engine, b, env, id))
    case ScheduleAction(a, action) => WithCustody(w, V.ScheduleAction(b.custody, env, a, action))
    case ExecuteAction(a) => WithCustody(w, V.ExecuteAction(b.custody, env, a))
    case CancelAction(a) => WithCustody(w, V.CancelAction(b.custody, env, a))
    case SetLoanLedger(a, x) => WithCustody(w, V.SetLoanLedger(b.custody, env, a, x))
    case SetVaultEngine(a, x) => WithCustody(w, V.SetLiquidationEngine(b.custody, env, a, x))
    case SetLedgerEngine(a, x) => WithLedger(w, L.SetEngine(b.ledger, env, a, x))
    case SetOracle(a, x) => WithLedger(w, L.SetOracle(b.ledger, env, a, x))
    case SetPartner(a, p, ok) => WithLedger(w, L.SetPartner(b.ledger, env, a, p, ok))
    case SetVerifier(a, v, ok) => WithLedger(w, L.SetVerifier(b.ledger, env, a, v, ok))
    case SetReputation(o, h, s) => WithLedger(w, L.SetReputation(b.ledger, env, o, h, s))
    case ReassignPartner(a, id, p) => WithLedger(w, L.ReassignPartner(b.ledger, env, a, id, p))
    case SetPaused(a, paused) =>
      var engine :- E.SetPaused(w.engine, env, a, paused);
      Ok(w.(engine := engine))
  }

  /** The world at the moment a transaction runs. */
  function Arrival(w: World, tx: Tx): World {
    w.(now := w.now + tx.elapsed)
  }

  function Outcome(w: World, tx: Tx): Result<World> {
    Execute(Arrival(w, tx), tx.signers, tx.command)
  }

  predicate Succeeds(w: World, tx: Tx) {
    Outcome(w, tx).Ok?
  }

  /** One transaction: the command's effect if it succeeds, only the clock otherwise. */
  function Step(w: World, tx: Tx): World {
    match Outcome(w, tx)
    case Ok(next) => next
    case Err(_) => Arrival(w, tx)
  }

  function Run(w: World, txs: seq<Tx>): World {
    if txs == [] then w else Step(Run(w, txs[..|txs| - 1]), txs[|txs| - 1])
  }

  /** The world before the k-th transaction of a run. */
  function At(w: World, txs: seq<Tx>, k: nat): World
    requires k <= |txs|
  {
    Run(w, txs[..k])
  }

  lemma AtNext(w: World, txs: seq<Tx>, k: nat)
    requires k < |txs|
    ensures At(w, txs, k + 1) == Step(At(w, txs, k), txs[k])
  {
    assert txs[..k + 1][..k] == txs[..k];
  }

  lemma AtEnds(w: World, txs: seq<Tx>)
    ensures At(w, txs, 0) == w && At(w, txs, |txs|) == Run(w, txs)
  {
    assert txs[..|txs|] == txs;
  }

  /** All the worlds a run goes through, the first and the last included. */
  ghost function History(w: World, txs: seq<Tx>): (h: seq<World>)
    ensures |h| == |txs| + 1
    ensures forall k :: 0 <= k <= |txs| ==> h[k] == At(w, txs, k)
  {
    seq(|txs| + 1, k requires 0 <= k <= |txs| => At(w, txs, k))
  }

  lemma RunOne(w: World, tx: Tx)
    ensures Run(w, [tx]) == Step(w, tx)
  {
    assert [tx][..0] == [];
  }

  lemma RunSnoc(w: World, txs: seq<Tx>, tx: Tx)
    ensures Run(w, txs + [tx]) == Step(Run(w, txs), tx)
  {
    assert (txs + [tx])[..|txs + [tx]| - 1] == txs;
  }

  /** A run of a run is one run. */
  lemma {:induction false} RunConcat(w: World, first: seq<Tx>, second: seq<Tx>)
    ensures Run(w, first + second) == Run(Run(w, first), second)
  {
    if second == [] {
      assert first + second == first;
    } else {
      var n := |second| - 1;
      RunConcat(w, first, second[..n]);
      assert (first + second)[..|first + second| - 1] == first + second[..n];
    }
  }

  /** Each contract names the other two, and the three are distinct. */
  ghost predicate Wired(w: World) {
    var vault := w.books.custody.vault;
    var ledger := w.books.ledger;
    && vault.loanLedger == Some(ledger.self)
    && vault.liquidationEngine == Some(w.engine.self)
    && ledger.liquidationEngine == Some(w.engine.self)
    && vault.self != ledger.self && vault.self != w.engine.self && ledger.self != w.engine.self
  }

  /** Deployed and wired, before the first loan: any roles, scores and balances, and any
      deposits made and actions scheduled since the vault came into being. */
  ghost predicate Genesis(w: World) {
    var ledger := w.books.ledger;
    && Wired(w)
    && Solvency.CustodySound(w.books.custody)
    && Solvency.NothingLocked(w.books.custody.vault)
    && ledger.loanCount == 0 && ledger.loans == map[] && ledger.openLoans == map[]
    && (forall h :: h in ledger.reputation ==> ledger.reputation[h] <= BPS)
  }

  lemma FreshIsGenesis(w: World)
    requires Wired(w) && w.books.custody.vault.vaults == map[]
    requires var ledger := w.books.ledger;
             && ledger.loanCount == 0 && ledger.loans == map[] && ledger.openLoans == map[]
             && ledger.reputation == map[]
    ensures Genesis(w)
  {
  }
}
