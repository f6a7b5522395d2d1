/**
 * The double-entry ledger: balanced transactions posted against cached balances with
 * floors, spending rights and idempotency keys.
 */
module Ledger {
  import opened Shared

  datatype OwnerKind = AgentOwner | CompanyOwner | GovernmentOwner | BankInternalOwner | SystemRowOwner

  datatype AccountType =
    | Checking | InternalAsset | InternalLiability | InternalIncome | InternalExpense | Equity

  datatype AccountStatus = Active | Frozen | Closed

  datatype Account = Account(
    runId: string, ownerKind: OwnerKind, ownerId: string, accountType: AccountType,
    balance: int, floor: int, status: AccountStatus)

  datatype Direction = Debit | Credit

  datatype Leg = Leg(accountId: string, direction: Direction, amount: int) {
    /** Debits raise a cached balance and credits lower it. */
    function Signed(): int {
      if direction.Debit? then amount else -amount
    }
  }

  datatype ActorKind = AgentActor | InstitutionActor | SystemActor | AdminActor

  datatype Actor = Actor(kind: ActorKind, id: string)

  datatype TransactionKind =
    | Payroll | Purchase | LoanDisbursement | LoanPayment | Tax | Benefit | Transfer | Fee | Dividend
    | Mint | RowSettlement

  /** What the request hash covers; the hash itself is taken as injective. */
  datatype Request = Request(
    runId: string, tick: nat, kind: TransactionKind, actor: Actor, reason: string,
    sourceEventId: Option<string>, correlationId: string, legs: seq<Leg>)

  datatype Transaction = Transaction(id: string, idempotencyKey: string, request: Request)

  datatype Books = Books(accounts: map<string, Account>, journal: seq<Transaction>)

  datatype Receipt = Posted(resulting: map<string, int>) | Duplicate(original: Transaction)

  /******* What a post checks, in order *******/

  predicate SchemaAccepts(tx: Transaction) {
    && |tx.request.legs| >= 2
    && (forall i | 0 <= i < |tx.request.legs| :: tx.request.legs[i].amount > 0)
    && tx.id != "" && tx.idempotencyKey != "" && tx.request.reason != ""
    && tx.request.actor.id != "" && tx.request.correlationId != ""
  }

  /** The first saved transaction of the run with this idempotency key. */
  function FindByIdempotencyKey(journal: seq<Transaction>, runId: string, key: string): Option<Transaction> {
    if journal == [] then None
    else if journal[0].request.runId == runId && journal[0].idempotencyKey == key then Some(journal[0])
    else FindByIdempotencyKey(journal[1..], runId, key)
  }

  /** The accounts of the legs, each once, in order of first mention. */
  function AccountIds(legs: seq<Leg>): seq<string> {
    if legs == [] then []
    else
      var earlier := AccountIds(legs[..|legs| - 1]);
      var last := legs[|legs| - 1].accountId;
      if last in earlier then earlier else earlier + [last]
  }

  lemma {:induction false} LegsAreListed(legs: seq<Leg>)
    ensures forall i | 0 <= i < |legs| :: legs[i].accountId in AccountIds(legs)
    ensures forall id | id in AccountIds(legs) :: exists i | 0 <= i < |legs| :: legs[i].accountId == id
  {
    if legs != [] {
      var shorter := legs[..|legs| - 1];
      LegsAreListed(shorter);
      forall id | id in AccountIds(legs) ensures exists i | 0 <= i < |legs| :: legs[i].accountId == id {
        if id in AccountIds(shorter) {
          var i :| 0 <= i < |shorter| && shorter[i].accountId == id;
          assert legs[i].accountId == id;
        } else {
          assert legs[|legs| - 1].accountId == id;
        }
      }
    }
  }

  function AccountProblem(accounts: map<string, Account>, runId: string, id: string): Option<ErrorCode> {
    if id !in accounts then Some(NotFound)
    else if accounts[id].runId != runId then Some(Conflict)
    else if accounts[id].status != Active then Some(Conflict)
    else None
  }

  function FirstAccountProblem(accounts: map<string, Account>, runId: string, ids: seq<string>): (r: Option<ErrorCode>)
    ensures r.None? <==> forall i | 0 <= i < |ids| :: AccountProblem(accounts, runId, ids[i]).None?
  {
    if ids == [] then None
    else if AccountProblem(accounts, runId, ids[0]).Some? then AccountProblem(accounts, runId, ids[0])
    else FirstAccountProblem(accounts, runId, ids[1..])
  }

  const CONTROLLED_MONEY_KINDS: set<TransactionKind> := {Mint, LoanDisbursement, LoanPayment, RowSettlement}

  predicate Touches(request: Request, accounts: map<string, Account>, owner: OwnerKind) {
    exists i | 0 <= i < |request.legs| ::
      request.legs[i].accountId in accounts && accounts[request.legs[i].accountId].ownerKind == owner
  }

  predicate CreditsMintSource(request: Request, accounts: map<string, Account>) {
    exists i | 0 <= i < |request.legs| ::
      && request.legs[i].direction.Credit?
      && request.legs[i].accountId in accounts
      && var account := accounts[request.legs[i].accountId];
         account.ownerKind == BankInternalOwner && (account.accountType == Equity || account.accountType == InternalLiability)
  }

  predicate MoneyChannelAuthorized(request: Request, accounts: map<string, Account>) {
    request.kind in CONTROLLED_MONEY_KINDS ==>
      && request.actor.kind == SystemActor
      && (request.kind == RowSettlement ==> Touches(request, accounts, SystemRowOwner))
      && (request.kind == LoanDisbursement || request.kind == LoanPayment ==>
            Touches(request, accounts, BankInternalOwner))
      && (request.kind == Mint ==> CreditsMintSource(request, accounts))
  }

  /** Whether the actor may lower this account. */
  predicate MaySpend(actor: Actor, account: Account) {
    match actor.kind
    case SystemActor => true
    case AdminActor => true
    case AgentActor => account.ownerKind == AgentOwner && account.ownerId == actor.id
    case InstitutionActor =>
      (account.ownerKind == CompanyOwner || account.ownerKind == GovernmentOwner) && account.ownerId == actor.id
  }

  predicate OutboundOwned(request: Request, accounts: map<string, Account>) {
    forall i | 0 <= i < |request.legs| && request.legs[i].direction.Credit? ::
      request.legs[i].accountId in accounts && MaySpend(request.actor, accounts[request.legs[i].accountId])
  }

  function SignedTotal(legs: seq<Leg>): int {
    if legs == [] then 0 else SignedTotal(legs[..|legs| - 1]) + legs[|legs| - 1].Signed()
  }

  /** The net change the legs make to one account. */
  function Delta(legs: seq<Leg>, id: string): int {
    if legs == [] then 0
    else
      var last := legs[|legs| - 1];
      Delta(legs[..|legs| - 1], id) + (if last.accountId == id then last.Signed() else 0)
  }

  predicate FloorsHold(ids: seq<string>, legs: seq<Leg>, accounts: map<string, Account>) {
    forall id | id in ids :: id in accounts && accounts[id].floor <= accounts[id].balance + Delta(legs, id)
  }

  /** Why new work is refused, or nothing when it may be saved. */
  function Refusal(accounts: map<string, Account>, request: Request): Option<ErrorCode> {
    var ids := AccountIds(request.legs);
    var problem := FirstAccountProblem(accounts, request.runId, ids);
    if |ids| < 2 then Some(ValidationFailed)
    else if problem.Some? then problem
    else if !MoneyChannelAuthorized(request, accounts) then Some(PermissionDenied)
    else if !OutboundOwned(request, accounts) then Some(PermissionDenied)
    else if SignedTotal(request.legs) != 0 then Some(ValidationFailed)
    else if !FloorsHold(ids, request.legs, accounts) then Some(InsufficientFunds)
    else None
  }

  function Moved(accounts: map<string, Account>, legs: seq<Leg>): map<string, Account> {
    map id | id in accounts :: accounts[id].(balance := accounts[id].balance + Delta(legs, id))
  }

  /** The balances of the accounts the legs mention, once moved. */
  function Resulting(accounts: map<string, Account>, legs: seq<Leg>): map<string, int> {
    map id | id in accounts && id in AccountIds(legs) :: accounts[id].balance + Delta(legs, id)
  }

  /** The books after one attempt, and what the caller gets. */
  function Attempt(books: Books, tx: Transaction): (Result<Receipt>, Books) {
    if !SchemaAccepts(tx) then (Err(SchemaInvalid), books)
    else
      match FindByIdempotencyKey(books.journal, tx.request.runId, tx.idempotencyKey)
      case Some(prior) =>
        (if prior.request != tx.request then Err(Conflict) else Ok(Duplicate(prior)), books)
      case None =>
        match Refusal(books.accounts, tx.request)
        case Some(code) => (Err(code), books)
        case None =>
          (Ok(Posted(Resulting(books.accounts, tx.request.legs))),
           Books(Moved(books.accounts, tx.request.legs), books.journal + [tx]))
  }

  /** Whether the attempt saves new work. */
  predicate Saves(books: Books, tx: Transaction) {
    Attempt(books, tx).0.Ok? && Attempt(books, tx).0.value.Posted?
  }

  /** Rebuilds one balance from immutable legs. */
  function ReconcileLedgerBalance(base: int, legs: seq<Leg>): int {
    if legs == [] then base
    else ReconcileLedgerBalance(base, legs[..|legs| - 1]) + legs[|legs| - 1].Signed()
  }

  /******* The posting engine *******/

  class DoubleEntryLedger {
    var accounts: map<string, Account>
    var journal: seq<Transaction>

    ghost function View(): Books
      reads this
    {
      Books(accounts, journal)
    }

    constructor (accounts: map<string, Account>, journal: seq<Transaction>)
      ensures View() == Books(accounts, journal)
    {
      this.accounts, this.journal := accounts, journal;
    }

    /** Posts once: an exact repetition is reported as such, anything else under the same key is refused. */
    method Post(tx: Transaction) returns (result: Result<Receipt>)
      modifies this
      ensures (result, View()) == Attempt(old(View()), tx)
    {
      if !SchemaAccepts(tx) {
        return Err(SchemaInvalid);
      }
      var prior := FindByIdempotencyKey(journal, tx.request.runId, tx.idempotencyKey);
      if prior.Some? {
        if prior.value.request != tx.request {
          return Err(Conflict);
        }
        return Ok(Duplicate(prior.value));
      }
      var refusal, balances := CheckNewWork(tx.request);
      if refusal.Some? {
        return Err(refusal.value);
      }
      SaveTransaction(tx, balances);
      return Ok(Posted(balances));
    }

    /** The checks on work under an unused key, in order, and the balances it would lead to. */
    method CheckNewWork(request: Request) returns (refusal: Option<ErrorCode>, balances: map<string, int>)
      ensures refusal == Refusal(accounts, request)
      ensures refusal.None? ==> balances == Resulting(accounts, request.legs)
    {
      var legs := request.legs;
      balances := map[];
      var ids := DistinctAccountIds(legs);
      if |ids| < 2 {
        return Some(ValidationFailed), balances;
      }
      var problem := FindAccountProblem(request.runId, ids);
      if problem.Some? {
        return problem, balances;
      }
      assert forall id | id in ids :: AccountProblem(accounts, request.runId, id).None?;
      if !MoneyChannelAuthorized(request, accounts) {
        return Some(PermissionDenied), balances;
      }
      if !OutboundOwned(request, accounts) {
        return Some(PermissionDenied), balances;
      }
      var debits, credits, deltas := Accumulate(legs);
      if debits != credits {
        return Some(ValidationFailed), balances;
      }
      var crossed;
      balances, crossed := ResultingBalances(ids, legs, deltas);
      refusal := if crossed then Some(InsufficientFunds) else None;
    }

    method DistinctAccountIds(legs: seq<Leg>) returns (ids: seq<string>)
      ensures ids == AccountIds(legs)
    {
      ids := [];
      for i := 0 to |legs|
        invariant ids == AccountIds(legs[..i])
      {
        assert legs[..i + 1][..i] == legs[..i];
        if legs[i].accountId !in ids {
          ids := ids + [legs[i].accountId];
        }
      }
      assert legs[..|legs|] == legs;
    }

    method FindAccountProblem(runId: string, ids: seq<string>) returns (problem: Option<ErrorCode>)
      ensures problem == FirstAccountProblem(accounts, runId, ids)
    {
      for i := 0 to |ids|
        invariant FirstAccountProblem(accounts, runId, ids) == FirstAccountProblem(accounts, runId, ids[i..])
      {
        var id := ids[i];
        if id !in accounts {
          return Some(NotFound);
        }
        if accounts[id].runId != runId {
          return Some(Conflict);
        }
        if accounts[id].status != Active {
          return Some(Conflict);
        }
      }
      return None;
    }

    method Accumulate(legs: seq<Leg>) returns (debits: int, credits: int, deltas: map<string, int>)
      ensures debits - credits == SignedTotal(legs)
      ensures forall id :: id in deltas <==> id in AccountIds(legs)
      ensures forall id | id in deltas :: deltas[id] == Delta(legs, id)
    {
      debits, credits, deltas := 0, 0, map[];
      for i := 0 to |legs|
        invariant debits - credits == SignedTotal(legs[..i])
        invariant forall id :: id in deltas <==> id in AccountIds(legs[..i])
        invariant forall id | id in deltas :: deltas[id] == Delta(legs[..i], id)
        invariant forall id | id !in deltas :: Delta(legs[..i], id) == 0
      {
        assert legs[..i + 1][..i] == legs[..i];
        var leg := legs[i];
        var before := if leg.accountId in deltas then deltas[leg.accountId] else 0;
        if leg.direction.Debit? {
          debits := debits + leg.amount;
          deltas := deltas[leg.accountId := before + leg.amount];
        } else {
          credits := credits + leg.amount;
          deltas := deltas[leg.accountId := before - leg.amount];
        }
      }
      assert legs[..|legs|] == legs;
    }

    method ResultingBalances(ids: seq<string>, legs: seq<Leg>, deltas: map<string, int>)
      returns (balances: map<string, int>, crossed: bool)
      requires ids == AccountIds(legs)
      requires forall id | id in ids :: id in accounts && id in deltas && deltas[id] == Delta(legs, id)
      ensures crossed <==> !FloorsHold(ids, legs, accounts)
      ensures !crossed ==> balances == Resulting(accounts, legs)
    {
      balances := map[];
      for i := 0 to |ids|
        invariant forall id :: id in balances <==> id in ids[..i]
        invariant forall id | id in ids[..i] :: balances[id] == accounts[id].balance + Delta(legs, id)
        invariant forall id | id in ids[..i] :: accounts[id].floor <= accounts[id].balance + Delta(legs, id)
      {
        var next := accounts[ids[i]].balance + deltas[ids[i]];
        if next < accounts[ids[i]].floor {
          assert ids[i] in ids;
          return balances, true;
        }
        balances := balances[ids[i] := next];
      }
      crossed := false;
      assert ids[..|ids|] == ids;
    }

    method SaveTransaction(tx: Transaction, balances: map<string, int>)
      requires balances == Resulting(accounts, tx.request.legs)
      modifies this
      ensures accounts == Moved(old(accounts), tx.request.legs)
      ensures journal == old(journal) + [tx]
    {
      journal := journal + [tx];
      accounts := map id | id in accounts ::
        if id in balances then accounts[id].(balance := balances[id]) else accounts[id];
      forall id | id in accounts && id !in AccountIds(tx.request.legs) ensures Delta(tx.request.legs, id) == 0 {
        LegsAreListed(tx.request.legs);
        UntouchedDelta(tx.request.legs, id);
      }
    }
  }

  lemma {:induction false} UntouchedDelta(legs: seq<Leg>, id: string)
    requires forall i | 0 <= i < |legs| :: legs[i].accountId != id
    ensures Delta(legs, id) == 0
  {
    if legs != [] {
      UntouchedDelta(legs[..|legs| - 1], id);
    }
  }

  /******* Any run of attempts *******/

  function Run(books: Books, attempts: seq<Transaction>): Books
    decreases |attempts|
  {
    if attempts == [] then books else Run(Attempt(books, attempts[0]).1, attempts[1..])
  }

  /** The attempts that save new work, in order. */
  function Effective(books: Books, attempts: seq<Transaction>): seq<Transaction>
    decreases |attempts|
  {
    if attempts == [] then []
    else
      var later := Effective(Attempt(books, attempts[0]).1, attempts[1..]);
      if Saves(books, attempts[0]) then [attempts[0]] + later else later
  }

  function LegsFor(txs: seq<Transaction>, id: string): seq<Leg> {
    if txs == [] then [] else LegsOn(txs[0].request.legs, id) + LegsFor(txs[1..], id)
  }

  function LegsOn(legs: seq<Leg>, id: string): seq<Leg> {
    if legs == [] then []
    else LegsOn(legs[..|legs| - 1], id) +
         (if legs[|legs| - 1].accountId == id then [legs[|legs| - 1]] else [])
  }

  lemma {:induction false} ReconcileConcat(base: int, xs: seq<Leg>, ys: seq<Leg>)
    ensures ReconcileLedgerBalance(base, xs + ys) == ReconcileLedgerBalance(ReconcileLedgerBalance(base, xs), ys)
  {
    if ys == [] {
      assert xs + ys == xs;
    } else {
      assert (xs + ys)[..|xs + ys| - 1] == xs + ys[..|ys| - 1];
      ReconcileConcat(base, xs, ys[..|ys| - 1]);
    }
  }

  lemma {:induction false} ReconcileOneTransaction(base: int, legs: seq<Leg>, id: string)
    ensures ReconcileLedgerBalance(base, LegsOn(legs, id)) == base + Delta(legs, id)
  {
    if legs != [] {
      ReconcileOneTransaction(base, legs[..|legs| - 1], id);
      var tail := if legs[|legs| - 1].accountId == id then [legs[|legs| - 1]] else [];
      ReconcileConcat(base, LegsOn(legs[..|legs| - 1], id), tail);
    }
  }

  /**
   * Failed and repeated posts can be erased from any run: the effective attempts alone are
   * each saved, lead to the same books, and are exactly what the journal gained.
   */
  lemma {:induction false} FailedAndRepeatedPostsAreErasable(books: Books, attempts: seq<Transaction>)
    ensures Run(books, Effective(books, attempts)) == Run(books, attempts)
    ensures Run(books, attempts).journal == books.journal + Effective(books, attempts)
    ensures Effective(books, Effective(books, attempts)) == Effective(books, attempts)
    decreases |attempts|
  {
    if attempts != [] {
      var next := Attempt(books, attempts[0]).1;
      FailedAndRepeatedPostsAreErasable(next, attempts[1..]);
      if Saves(books, attempts[0]) {
        var effective := [attempts[0]] + Effective(next, attempts[1..]);
        assert effective[1..] == Effective(next, attempts[1..]);
        assert books.journal + effective == next.journal + Effective(next, attempts[1..]);
      } else {
        assert next == books;
      }
    }
  }

  /** Everything about an account except its balance. */
  predicate SameExceptBalance(before: Account, after: Account) {
    before.(balance := after.balance) == after
  }

  /** Every cached balance is the reconciliation of its base over the legs the run saved. */
  lemma {:induction false} BalancesReconcile(books: Books, attempts: seq<Transaction>, id: string)
    requires id in books.accounts
    ensures Run(books, attempts).accounts.Keys == books.accounts.Keys
    ensures SameExceptBalance(books.accounts[id], Run(books, attempts).accounts[id])
    ensures Run(books, attempts).accounts[id].balance ==
            ReconcileLedgerBalance(books.accounts[id].balance, LegsFor(Effective(books, attempts), id))
    decreases |attempts|
  {
    if attempts != [] {
      var next := Attempt(books, attempts[0]).1;
      BalancesReconcile(next, attempts[1..], id);
      if Saves(books, attempts[0]) {
        var legs := LegsOn(attempts[0].request.legs, id);
        var rest := Effective(next, attempts[1..]);
        assert ([attempts[0]] + rest)[1..] == rest;
        ReconcileConcat(books.accounts[id].balance, legs, LegsFor(rest, id));
        ReconcileOneTransaction(books.accounts[id].balance, attempts[0].request.legs, id);
      }
    }
  }

  /******* Conservation *******/

  /** `ids` lists exactly the accounts of the run, each once. */
  ghost predicate Lists(ids: seq<string>, accounts: map<string, Account>, runId: string) {
    && (forall i, j | 0 <= i < j < |ids| :: ids[i] != ids[j])
    && (forall id :: id in ids <==> id in accounts && accounts[id].runId == runId)
  }

  function TotalBalance(accounts: map<string, Account>, ids: seq<string>): int
    requires forall i | 0 <= i < |ids| :: ids[i] in accounts
  {
    if ids == [] then 0 else accounts[ids[0]].balance + TotalBalance(accounts, ids[1..])
  }

  function TotalDelta(legs: seq<Leg>, ids: seq<string>): int {
    if ids == [] then 0 else Delta(legs, ids[0]) + TotalDelta(legs, ids[1..])
  }

  lemma {:induction false} TotalMoves(accounts: map<string, Account>, legs: seq<Leg>, ids: seq<string>)
    requires forall i | 0 <= i < |ids| :: ids[i] in accounts
    ensures TotalBalance(Moved(accounts, legs), ids) == TotalBalance(accounts, ids) + TotalDelta(legs, ids)
  {
    if ids != [] {
      TotalMoves(accounts, legs, ids[1..]);
    }
  }

  /** Adding one leg adds its amount once when its account is listed, and not at all otherwise. */
  lemma {:induction false} OneLegTotal(legs: seq<Leg>, ids: seq<string>)
    requires legs != [] && forall i, j | 0 <= i < j < |ids| :: ids[i] != ids[j]
    ensures var last := legs[|legs| - 1];
            TotalDelta(legs, ids) ==
            TotalDelta(legs[..|legs| - 1], ids) + (if last.accountId in ids then last.Signed() else 0)
  {
    if ids != [] {
      OneLegTotal(legs, ids[1..]);
      assert legs[|legs| - 1].accountId in ids <==>
             legs[|legs| - 1].accountId == ids[0] || legs[|legs| - 1].accountId in ids[1..];
    }
  }

  lemma {:induction false} ListedLegsTotal(legs: seq<Leg>, ids: seq<string>)
    requires forall i, j | 0 <= i < j < |ids| :: ids[i] != ids[j]
    ensures (forall i | 0 <= i < |legs| :: legs[i].accountId in ids) ==> TotalDelta(legs, ids) == SignedTotal(legs)
    ensures (forall i | 0 <= i < |legs| :: legs[i].accountId !in ids) ==> TotalDelta(legs, ids) == 0
  {
    if legs == [] {
      NothingMoves(ids);
    } else {
      ListedLegsTotal(legs[..|legs| - 1], ids);
      OneLegTotal(legs, ids);
    }
  }

  lemma {:induction false} NothingMoves(ids: seq<string>)
    ensures TotalDelta([], ids) == 0
  {
    if ids != [] {
      NothingMoves(ids[1..]);
    }
  }

  /** What a saved transaction has been checked to satisfy. */
  lemma SavedWorkIsSound(books: Books, tx: Transaction)
    requires Saves(books, tx)
    ensures forall i | 0 <= i < |tx.request.legs| ::
              && tx.request.legs[i].amount > 0
              && tx.request.legs[i].accountId in books.accounts
              && books.accounts[tx.request.legs[i].accountId].runId == tx.request.runId
    ensures SignedTotal(tx.request.legs) == 0
    ensures OutboundOwned(tx.request, books.accounts)
    ensures forall i | 0 <= i < |tx.request.legs| ::
              var id := tx.request.legs[i].accountId;
              books.accounts[id].floor <= books.accounts[id].balance + Delta(tx.request.legs, id)
    ensures MoneyChannelAuthorized(tx.request, books.accounts)
  {
    LegsAreListed(tx.request.legs);
    var ids := AccountIds(tx.request.legs);
    forall i | 0 <= i < |tx.request.legs|
      ensures AccountProblem(books.accounts, tx.request.runId, tx.request.legs[i].accountId).None?
    {
      assert tx.request.legs[i].accountId in ids;
    }
  }

  /** No sequence of posts creates or destroys money in any simulation run. */
  lemma {:induction false} MoneyIsConserved(books: Books, attempts: seq<Transaction>, runId: string, ids: seq<string>)
    requires Lists(ids, books.accounts, runId)
    ensures Lists(ids, Run(books, attempts).accounts, runId)
    ensures TotalBalance(Run(books, attempts).accounts, ids) == TotalBalance(books.accounts, ids)
    decreases |attempts|
  {
    if attempts != [] {
      var next := Attempt(books, attempts[0]).1;
      if Saves(books, attempts[0]) {
        var legs := attempts[0].request.legs;
        SavedWorkIsSound(books, attempts[0]);
        ListedLegsTotal(legs, ids);
        TotalMoves(books.accounts, legs, ids);
        if attempts[0].request.runId == runId {
          assert forall i | 0 <= i < |legs| :: legs[i].accountId in ids;
        } else {
          assert forall i | 0 <= i < |legs| :: legs[i].accountId !in ids;
        }
      }
      MoneyIsConserved(next, attempts[1..], runId, ids);
    }
  }

  /******* Floors, spending rights, retries *******/

  /** No account that is at or above its floor ever falls below it. */
  lemma {:induction false} FloorsAreKept(books: Books, attempts: seq<Transaction>, id: string)
    requires id in books.accounts && books.accounts[id].floor <= books.accounts[id].balance
    ensures id in Run(books, attempts).accounts
    ensures Run(books, attempts).accounts[id].floor == books.accounts[id].floor
    ensures Run(books, attempts).accounts[id].floor <= Run(books, attempts).accounts[id].balance
    decreases |attempts|
  {
    if attempts != [] {
      if Saves(books, attempts[0]) {
        SavedWorkIsSound(books, attempts[0]);
        if forall i | 0 <= i < |attempts[0].request.legs| :: attempts[0].request.legs[i].accountId != id {
          UntouchedDelta(attempts[0].request.legs, id);
        }
      }
      FloorsAreKept(Attempt(books, attempts[0]).1, attempts[1..], id);
    }
  }

  /** Legs lower an account only by crediting it. */
  lemma {:induction false} FallingMeansCredited(legs: seq<Leg>, id: string)
    requires forall i | 0 <= i < |legs| :: legs[i].amount > 0
    requires Delta(legs, id) < 0
    ensures exists i | 0 <= i < |legs| :: legs[i].accountId == id && legs[i].direction.Credit?
  {
    var last := |legs| - 1;
    if !(legs[last].accountId == id && legs[last].direction.Credit?) {
      FallingMeansCredited(legs[..last], id);
      var i :| 0 <= i < last && legs[..last][i].accountId == id && legs[..last][i].direction.Credit?;
      assert legs[i].accountId == id && legs[i].direction.Credit?;
    }
  }

  lemma {:induction false} SpendersLowerAnAccount(books: Books, attempts: seq<Transaction>, id: string)
    requires id in books.accounts
    requires forall i | 0 <= i < |attempts| :: !MaySpend(attempts[i].request.actor, books.accounts[id])
    ensures id in Run(books, attempts).accounts
    ensures books.accounts[id].balance <= Run(books, attempts).accounts[id].balance
    decreases |attempts|
  {
    if attempts != [] {
      var next := Attempt(books, attempts[0]).1;
      if Saves(books, attempts[0]) {
        SavedWorkIsSound(books, attempts[0]);
        if Delta(attempts[0].request.legs, id) < 0 {
          FallingMeansCredited(attempts[0].request.legs, id);
        }
      }
      forall actor | !MaySpend(actor, books.accounts[id]) ensures !MaySpend(actor, next.accounts[id]) {
      }
      SpendersLowerAnAccount(next, attempts[1..], id);
    }
  }

  /**
   * Whatever is posted in between, an account falls only through posts by the system, an admin or
   * its owner: the very agent of an agent's account, the very institution of a company's or a
   * government's; the accounts of the banks and of the outside world have no such owner.
   */
  lemma OnlySpendersLowerAnAccount(books: Books, attempts: seq<Transaction>, id: string)
    requires id in books.accounts
    requires forall i | 0 <= i < |attempts| ::
               attempts[i].request.actor.kind != SystemActor && attempts[i].request.actor.kind != AdminActor
    requires books.accounts[id].ownerKind == AgentOwner ==>
               forall i | 0 <= i < |attempts| :: attempts[i].request.actor != Actor(AgentActor, books.accounts[id].ownerId)
    requires books.accounts[id].ownerKind == CompanyOwner || books.accounts[id].ownerKind == GovernmentOwner ==>
               forall i | 0 <= i < |attempts| :: attempts[i].request.actor != Actor(InstitutionActor, books.accounts[id].ownerId)
    ensures id in Run(books, attempts).accounts
    ensures books.accounts[id].balance <= Run(books, attempts).accounts[id].balance
  {
    forall i | 0 <= i < |attempts| ensures !MaySpend(attempts[i].request.actor, books.accounts[id]) {
    }
    SpendersLowerAnAccount(books, attempts, id);
  }

  /** Money in the hands of agents, companies and governments. */
  predicate External(account: Account) {
    account.ownerKind != BankInternalOwner && account.ownerKind != SystemRowOwner
  }

  function ExternalTotal(accounts: map<string, Account>, ids: seq<string>): int
    requires forall i | 0 <= i < |ids| :: ids[i] in accounts
  {
    if ids == [] then 0
    else (if External(accounts[ids[0]]) then accounts[ids[0]].balance else 0) + ExternalTotal(accounts, ids[1..])
  }

  /** If the internal accounts do not fall, what the others gain is at most what all gain together. */
  lemma {:induction false} ExternalGainIsBounded(
    before: map<string, Account>, after: map<string, Account>, ids: seq<string>
  )
    requires forall i | 0 <= i < |ids| ::
               ids[i] in before && ids[i] in after && SameExceptBalance(before[ids[i]], after[ids[i]])
               && (!External(before[ids[i]]) ==> before[ids[i]].balance <= after[ids[i]].balance)
    ensures ExternalTotal(after, ids) - ExternalTotal(before, ids) <= TotalBalance(after, ids) - TotalBalance(before, ids)
  {
    if ids != [] {
      ExternalGainIsBounded(before, after, ids[1..]);
    }
  }

  /** Agents and institutions cannot bring new money into circulation, whatever they post. */
  lemma OnlyTheSystemIssuesMoney(books: Books, attempts: seq<Transaction>, runId: string, ids: seq<string>)
    requires Lists(ids, books.accounts, runId)
    requires forall i | 0 <= i < |attempts| ::
               attempts[i].request.actor.kind == AgentActor || attempts[i].request.actor.kind == InstitutionActor
    ensures Lists(ids, Run(books, attempts).accounts, runId)
    ensures ExternalTotal(Run(books, attempts).accounts, ids) <= ExternalTotal(books.accounts, ids)
  {
    var after := Run(books, attempts).accounts;
    MoneyIsConserved(books, attempts, runId, ids);
    forall i | 0 <= i < |ids|
      ensures SameExceptBalance(books.accounts[ids[i]], after[ids[i]])
      ensures !External(books.accounts[ids[i]]) ==> books.accounts[ids[i]].balance <= after[ids[i]].balance
    {
      BalancesReconcile(books, attempts, ids[i]);
      if !External(books.accounts[ids[i]]) {
        OnlySpendersLowerAnAccount(books, attempts, ids[i]);
      }
    }
    ExternalGainIsBounded(books.accounts, after, ids);
  }

  /******* Which posts are saved *******/

  function DebitTotal(legs: seq<Leg>): int {
    if legs == [] then 0
    else DebitTotal(legs[..|legs| - 1]) + if legs[|legs| - 1].direction.Debit? then legs[|legs| - 1].amount else 0
  }

  function CreditTotal(legs: seq<Leg>): int {
    if legs == [] then 0
    else CreditTotal(legs[..|legs| - 1]) + if legs[|legs| - 1].direction.Credit? then legs[|legs| - 1].amount else 0
  }

  lemma {:induction false} TotalsDecideBalance(legs: seq<Leg>)
    ensures SignedTotal(legs) == DebitTotal(legs) - CreditTotal(legs)
  {
    if legs != [] {
      TotalsDecideBalance(legs[..|legs| - 1]);
    }
  }

  lemma {:induction false} LegsDecideDelta(legs: seq<Leg>, id: string)
    ensures Delta(legs, id) == DebitTotal(LegsOn(legs, id)) - CreditTotal(LegsOn(legs, id))
  {
    if legs != [] {
      var earlier, last := LegsOn(legs[..|legs| - 1], id), legs[|legs| - 1];
      LegsDecideDelta(legs[..|legs| - 1], id);
      if last.accountId == id {
        assert LegsOn(legs, id) == earlier + [last] && (earlier + [last])[..|earlier|] == earlier;
      } else {
        assert LegsOn(legs, id) == earlier;
      }
    }
  }

  /** The actor is the system, an admin, or the owner of the account in person. */
  predicate Entitled(actor: Actor, account: Account) {
    || actor.kind == SystemActor || actor.kind == AdminActor
    || (account.ownerKind == AgentOwner && actor == Actor(AgentActor, account.ownerId))
    || ((account.ownerKind == CompanyOwner || account.ownerKind == GovernmentOwner)
        && actor == Actor(InstitutionActor, account.ownerId))
  }

  /** New money, loans and settlements with the outside world go through the system and the accounts meant for them. */
  ghost predicate ProperChannel(request: Request, accounts: map<string, Account>)
    requires forall i | 0 <= i < |request.legs| :: request.legs[i].accountId in accounts
  {
    && (request.kind == Mint ==>
          && request.actor.kind == SystemActor
          && exists i | 0 <= i < |request.legs| ::
               && request.legs[i].direction == Credit
               && accounts[request.legs[i].accountId].ownerKind == BankInternalOwner
               && accounts[request.legs[i].accountId].accountType in {Equity, InternalLiability})
    && (request.kind == LoanDisbursement || request.kind == LoanPayment ==>
          && request.actor.kind == SystemActor
          && exists i | 0 <= i < |request.legs| :: accounts[request.legs[i].accountId].ownerKind == BankInternalOwner)
    && (request.kind == RowSettlement ==>
          && request.actor.kind == SystemActor
          && exists i | 0 <= i < |request.legs| :: accounts[request.legs[i].accountId].ownerKind == SystemRowOwner)
  }

  /** Every leg names an active account of the run that issued the request. */
  predicate AccountsUsable(request: Request, accounts: map<string, Account>) {
    forall i | 0 <= i < |request.legs| ::
      && request.legs[i].accountId in accounts
      && accounts[request.legs[i].accountId].runId == request.runId
      && accounts[request.legs[i].accountId].status == Active
  }

  /** The legs name two accounts at least. */
  ghost predicate TwoSided(legs: seq<Leg>) {
    exists i, j | 0 <= i < j < |legs| :: legs[i].accountId != legs[j].accountId
  }

  /** Every credit is the actor's to make. */
  predicate CreditsEntitled(request: Request, accounts: map<string, Account>)
    requires AccountsUsable(request, accounts)
  {
    forall i | 0 <= i < |request.legs| && request.legs[i].direction == Credit ::
      Entitled(request.actor, accounts[request.legs[i].accountId])
  }

  /** No account ends below its floor. */
  predicate FloorsStand(request: Request, accounts: map<string, Account>)
    requires AccountsUsable(request, accounts)
  {
    forall i | 0 <= i < |request.legs| ::
      var id := request.legs[i].accountId;
      accounts[id].floor <=
        accounts[id].balance + DebitTotal(LegsOn(request.legs, id)) - CreditTotal(LegsOn(request.legs, id))
  }

  /** What a request must be like to be carried out. */
  ghost predicate Admissible(request: Request, accounts: map<string, Account>) {
    && TwoSided(request.legs) && AccountsUsable(request, accounts)
    && ProperChannel(request, accounts) && CreditsEntitled(request, accounts)
    && DebitTotal(request.legs) == CreditTotal(request.legs)
    && FloorsStand(request, accounts)
  }

  lemma {:induction false} TwoAccountsAreListed(legs: seq<Leg>)
    ensures |AccountIds(legs)| >= 2 <==> TwoSided(legs)
    ensures legs != [] ==> AccountIds(legs) != [] && AccountIds(legs)[0] == legs[0].accountId
  {
    if legs != [] {
      var shorter, last := legs[..|legs| - 1], |legs| - 1;
      TwoAccountsAreListed(shorter);
      LegsAreListed(shorter);
      if i, j :| 0 <= i < j < |shorter| && shorter[i].accountId != shorter[j].accountId {
        assert legs[i].accountId != legs[j].accountId;
      }
      if |AccountIds(shorter)| == 1 && legs[last].accountId !in AccountIds(shorter) {
        assert legs[0].accountId != legs[last].accountId;
      }
      if i, j :| 0 <= i < j < |legs| && legs[i].accountId != legs[j].accountId {
        if j == last {
          assert shorter[i].accountId in AccountIds(shorter);
        } else {
          assert shorter[i].accountId != shorter[j].accountId;
        }
      }
    }
  }

  lemma UsableAccountsHaveNoProblem(request: Request, accounts: map<string, Account>)
    ensures FirstAccountProblem(accounts, request.runId, AccountIds(request.legs)).None? <==> AccountsUsable(request, accounts)
  {
    LegsAreListed(request.legs);
    var ids := AccountIds(request.legs);
    if FirstAccountProblem(accounts, request.runId, ids).None? {
      forall i | 0 <= i < |request.legs|
        ensures AccountProblem(accounts, request.runId, request.legs[i].accountId).None?
      {
        assert request.legs[i].accountId in ids;
      }
    }
    if AccountsUsable(request, accounts) {
      forall k | 0 <= k < |ids| ensures AccountProblem(accounts, request.runId, ids[k]).None? {
        assert ids[k] in ids;
      }
    }
  }

  lemma FloorsOfLegs(request: Request, accounts: map<string, Account>)
    requires AccountsUsable(request, accounts)
    ensures FloorsHold(AccountIds(request.legs), request.legs, accounts) <==> FloorsStand(request, accounts)
  {
    LegsAreListed(request.legs);
    forall id ensures Delta(request.legs, id) == DebitTotal(LegsOn(request.legs, id)) - CreditTotal(LegsOn(request.legs, id)) {
      LegsDecideDelta(request.legs, id);
    }
  }

  lemma ChannelsAndRights(request: Request, accounts: map<string, Account>)
    requires AccountsUsable(request, accounts)
    ensures MoneyChannelAuthorized(request, accounts) <==> ProperChannel(request, accounts)
    ensures OutboundOwned(request, accounts) <==> CreditsEntitled(request, accounts)
  {
    assert forall account :: MaySpend(request.actor, account) <==> Entitled(request.actor, account);
  }

  /**
   * A request under an unused key is carried out exactly when it is admissible, and otherwise the
   * first thing that is wrong with it decides the error.
   */
  lemma RefusedExactlyWhen(request: Request, accounts: map<string, Account>)
    ensures Refusal(accounts, request).None? <==> Admissible(request, accounts)
    ensures match Refusal(accounts, request)
            case None => true
            case Some(code) =>
              if !TwoSided(request.legs) then code == ValidationFailed
              else if !AccountsUsable(request, accounts) then code == NotFound || code == Conflict
              else if !ProperChannel(request, accounts) || !CreditsEntitled(request, accounts) then code == PermissionDenied
              else if DebitTotal(request.legs) != CreditTotal(request.legs) then code == ValidationFailed
              else code == InsufficientFunds
  {
    TwoAccountsAreListed(request.legs);
    UsableAccountsHaveNoProblem(request, accounts);
    TotalsDecideBalance(request.legs);
    if AccountsUsable(request, accounts) {
      ChannelsAndRights(request, accounts);
      FloorsOfLegs(request, accounts);
    } else {
      ProblemCodes(accounts, request.runId, AccountIds(request.legs));
    }
  }

  lemma {:induction false} ProblemCodes(accounts: map<string, Account>, runId: string, ids: seq<string>)
    ensures FirstAccountProblem(accounts, runId, ids) in {None, Some(NotFound), Some(Conflict)}
  {
    if ids != [] {
      ProblemCodes(accounts, runId, ids[1..]);
    }
  }

  lemma {:induction false} UnusedKey(journal: seq<Transaction>, runId: string, key: string)
    ensures FindByIdempotencyKey(journal, runId, key).None? <==>
            forall i | 0 <= i < |journal| :: journal[i].request.runId != runId || journal[i].idempotencyKey != key
  {
    if journal != [] {
      UnusedKey(journal[1..], runId, key);
    }
  }

  /** A transaction is saved exactly when it is well formed, its key is new in its run and its request is admissible. */
  lemma SavedExactlyWhen(books: Books, tx: Transaction)
    ensures Saves(books, tx) <==>
              WellFormed(tx) && NewKey(books.journal, tx.request.runId, tx.idempotencyKey) && Admissible(tx.request, books.accounts)
  {
    WellFormedMeans(tx);
    UnusedKey(books.journal, tx.request.runId, tx.idempotencyKey);
    RefusedExactlyWhen(tx.request, books.accounts);
  }

  /** At least two legs, of one cent or more each, and no text left empty. */
  ghost predicate WellFormed(tx: Transaction) {
    && 2 <= |tx.request.legs| && (forall leg | leg in tx.request.legs :: 1 <= leg.amount)
    && tx.id != [] && tx.idempotencyKey != [] && tx.request.reason != []
    && tx.request.actor.id != [] && tx.request.correlationId != []
  }

  lemma WellFormedMeans(tx: Transaction)
    ensures SchemaAccepts(tx) <==> WellFormed(tx)
  {
  }

  /** No saved transaction of the run carries the key. */
  ghost predicate NewKey(journal: seq<Transaction>, runId: string, key: string) {
    forall i | 0 <= i < |journal| :: journal[i].request.runId != runId || journal[i].idempotencyKey != key
  }

  /** Saved work changes each account by its debits less its credits and nothing else, and reports the new balances. */
  lemma SavedWorkMoves(books: Books, tx: Transaction, id: string)
    requires Saves(books, tx)
    ensures var resulting := Attempt(books, tx).0.value.resulting;
            && (id in resulting <==> id in books.accounts && exists leg :: leg in tx.request.legs && leg.accountId == id)
            && (id in resulting ==> resulting[id] == Attempt(books, tx).1.accounts[id].balance)
    ensures Attempt(books, tx).1.journal == books.journal + [tx]
    ensures Attempt(books, tx).1.accounts.Keys == books.accounts.Keys
    ensures id in books.accounts ==>
              Attempt(books, tx).1.accounts[id] == books.accounts[id].(balance := books.accounts[id].balance
                + DebitTotal(LegsOn(tx.request.legs, id)) - CreditTotal(LegsOn(tx.request.legs, id)))
  {
    LegsDecideDelta(tx.request.legs, id);
    ListedExactlyWhen(tx.request.legs, id);
  }

  lemma {:induction false} ListedExactlyWhen(legs: seq<Leg>, id: string)
    ensures id in AccountIds(legs) <==> exists leg :: leg in legs && leg.accountId == id
  {
    if legs != [] {
      ListedExactlyWhen(legs[..|legs| - 1], id);
    }
  }

  lemma {:induction false} FindSurvives(journal: seq<Transaction>, later: seq<Transaction>, runId: string, key: string)
    ensures FindByIdempotencyKey(journal, runId, key).Some? ==>
              FindByIdempotencyKey(journal + later, runId, key) == FindByIdempotencyKey(journal, runId, key)
    ensures FindByIdempotencyKey(journal, runId, key).None? ==>
              FindByIdempotencyKey(journal + later, runId, key) == FindByIdempotencyKey(later, runId, key)
  {
    if journal == [] {
      assert journal + later == later;
    } else {
      assert (journal + later)[1..] == journal[1..] + later;
      FindSurvives(journal[1..], later, runId, key);
    }
  }

  /**
   * Once work is saved, every later use of its key, after any attempts in between, changes
   * nothing: it reports the original when the request is the same and a conflict otherwise.
   */
  lemma RetriesAreIdempotent(books: Books, tx: Transaction, between: seq<Transaction>, retry: Transaction)
    requires Saves(books, tx) && SchemaAccepts(retry)
    requires retry.idempotencyKey == tx.idempotencyKey && retry.request.runId == tx.request.runId
    ensures var later := Run(Attempt(books, tx).1, between);
            Attempt(later, retry) ==
            (if retry.request == tx.request then Ok(Duplicate(tx)) else Err(Conflict), later)
  {
    var saved := Attempt(books, tx).1;
    FailedAndRepeatedPostsAreErasable(saved, between);
    FindSurvives(books.journal, [tx], tx.request.runId, tx.idempotencyKey);
    FindSurvives(saved.journal, Effective(saved, between), tx.request.runId, tx.idempotencyKey);
  }
}
