/**
 * Loans: equal-principal 30/360 schedules with rounded interest, and their collection in
 * whole arrears until the loan is paid off or defaults.
 */
module Loans {
  import opened Shared
  import opened Money

  const THIRTY_360_INTEREST_DENOMINATOR: int := 10_000 * 360
  const LOAN_DEFAULT_CONSECUTIVE_MISSES: int := 3

  datatype Terms = Terms(principal: int, annualRateBp: int, termMonths: int, disbursedTick: int)

  datatype Row = Row(number: int, dueTick: int, opening: int, principal: int, interest: int)

  predicate RateAccepted(rate: int) {
    0 <= rate <= 100_000
  }

  predicate TermsAccepted(t: Terms) {
    && 0 < t.principal && 1 <= t.termMonths <= 360
    && 0 <= t.disbursedTick && SafeInteger(t.disbursedTick) && RateAccepted(t.annualRateBp)
  }

  function InterestForThirtyDayPeriod(opening: int, annualRateBp: int): Result<int> {
    if opening < 0 || !RateAccepted(annualRateBp) then Err(ValidationFailed)
    else MulDiv(opening, annualRateBp * 30, THIRTY_360_INTEREST_DENOMINATOR)
  }

  function RoundedInterest(opening: int, annualRateBp: int): int {
    HalfEven(opening * (annualRateBp * 30), THIRTY_360_INTEREST_DENOMINATOR)
  }

  /******* The schedule *******/

  /** What is outstanding before instalment `k`, counted from zero. */
  function Opening(t: Terms, k: nat): int
    requires 0 < t.termMonths
  {
    t.principal - k * (t.principal / t.termMonths)
  }

  function RowAt(t: Terms, k: nat): Row
    requires 0 < t.termMonths
  {
    Row(k + 1, t.disbursedTick + (k + 1) * 30, Opening(t, k),
        if k + 1 == t.termMonths then Opening(t, k) else t.principal / t.termMonths,
        RoundedInterest(Opening(t, k), t.annualRateBp))
  }

  function Rows(t: Terms): seq<Row>
    requires 0 < t.termMonths
  {
    seq(t.termMonths, k requires 0 <= k => RowAt(t, k))
  }

  function Schedule(t: Terms): Result<seq<Row>> {
    if !TermsAccepted(t) then Err(ValidationFailed)
    else if !SafeInteger(t.disbursedTick + t.termMonths * 30) then Err(LimitExceeded)
    else Ok(Rows(t))
  }

  lemma RegularPartFits(t: Terms, k: nat)
    requires TermsAccepted(t) && k <= t.termMonths
    ensures k * (t.principal / t.termMonths) <= t.principal && 0 <= t.principal / t.termMonths
    ensures k < t.termMonths ==> 0 < Opening(t, k)
  {
    var regular := t.principal / t.termMonths;
    DivAtLeast(t.principal, t.termMonths, 0);
    assert t.principal == t.termMonths * regular + t.principal % t.termMonths;
    MulLe(k, t.termMonths, regular);
    if k < t.termMonths {
      assert (k + 1) * regular == k * regular + regular;
      MulLe(k + 1, t.termMonths, regular);
    }
  }

  method GenerateAmortizationSchedule(t: Terms) returns (schedule: Result<seq<Row>>)
    ensures schedule == Schedule(t)
  {
    if !TermsAccepted(t) {
      return Err(ValidationFailed);
    }
    var regular := t.principal / t.termMonths;
    var outstanding := t.principal;
    var rows := [];
    for index := 0 to t.termMonths
      invariant |rows| == index && forall k | 0 <= k < index :: rows[k] == RowAt(t, k)
      invariant outstanding == if index == t.termMonths then 0 else Opening(t, index)
      invariant index == 0 || SafeInteger(t.disbursedTick + index * 30)
    {
      var number := index + 1;
      var dueTick := t.disbursedTick + number * 30;
      if !SafeInteger(dueTick) {
        return Err(LimitExceeded);
      }
      RegularPartFits(t, index);
      var opening := outstanding;
      var principalDue := if number == t.termMonths then outstanding else regular;
      var interest := InterestForThirtyDayPeriod(opening, t.annualRateBp);
      outstanding := outstanding - principalDue;
      assert (index + 1) * regular == index * regular + regular;
      rows := rows + [Row(number, dueTick, opening, principalDue, interest.value)];
    }
    assert rows == Rows(t);
    return Ok(rows);
  }

  function PrincipalSum(rows: seq<Row>): int {
    if rows == [] then 0 else PrincipalSum(rows[..|rows| - 1]) + rows[|rows| - 1].principal
  }

  /** The first `n` rows repay everything, or `n` regular parts. */
  lemma {:induction false} FirstRowsRepay(t: Terms, n: nat)
    requires TermsAccepted(t) && n <= t.termMonths
    ensures PrincipalSum(Rows(t)[..n]) == if n == t.termMonths then t.principal else n * (t.principal / t.termMonths)
  {
    if n != 0 {
      FirstRowsRepay(t, n - 1);
      assert Rows(t)[..n][..n - 1] == Rows(t)[..n - 1];
      OneMore(n, t.principal / t.termMonths);
    }
  }

  lemma OneMore(n: nat, x: int)
    requires 0 < n
    ensures n * x == (n - 1) * x + x
  {
  }

  /** The principal parts of a schedule are nonnegative and sum to the principal. */
  lemma PrincipalPartsSum(t: Terms)
    requires Schedule(t).Ok?
    ensures PrincipalSum(Schedule(t).value) == t.principal
    ensures forall k | 0 <= k < t.termMonths :: 0 <= Schedule(t).value[k].principal <= Schedule(t).value[k].opening
    ensures 0 < Schedule(t).value[t.termMonths - 1].principal
  {
    FirstRowsRepay(t, t.termMonths);
    assert Rows(t)[..t.termMonths] == Rows(t);
    forall k | 0 <= k < t.termMonths ensures 0 <= Rows(t)[k].principal <= Rows(t)[k].opening {
      RegularPartFits(t, k);
      RegularPartFits(t, k + 1);
      assert (k + 1) * (t.principal / t.termMonths) == k * (t.principal / t.termMonths) + t.principal / t.termMonths;
    }
    RegularPartFits(t, t.termMonths - 1);
  }

  /** Interest never rises from one instalment to a later one. */
  lemma InterestNeverRises(t: Terms, j: nat, k: nat)
    requires Schedule(t).Ok? && j <= k < t.termMonths
    ensures 0 <= Schedule(t).value[k].interest <= Schedule(t).value[j].interest
  {
    var rate := t.annualRateBp * 30;
    RegularPartFits(t, k);
    MulLe(j, k, t.principal / t.termMonths);
    MulLe(Opening(t, k), Opening(t, j), rate);
    MulLe(0, Opening(t, k), rate);
    HalfEvenMonotone(Opening(t, k) * rate, Opening(t, j) * rate, THIRTY_360_INTEREST_DENOMINATOR);
    HalfEvenMonotone(0, Opening(t, k) * rate, THIRTY_360_INTEREST_DENOMINATOR);
  }

  function InterestSum(rows: seq<Row>): int {
    if rows == [] then 0 else InterestSum(rows[..|rows| - 1]) + rows[|rows| - 1].interest
  }

  /** The exact interest of the rows in 120000ths of a cent: 10000 basis points times 12 months of 30 days. */
  function ExactInterest(rows: seq<Row>, annualRateBp: int): int {
    if rows == [] then 0 else ExactInterest(rows[..|rows| - 1], annualRateBp) + rows[|rows| - 1].opening * annualRateBp
  }

  /** A row's interest is a twelfth of the yearly interest on its opening balance, to the nearest cent and even on ties. */
  lemma RowInterestIsNearest(t: Terms, k: nat)
    requires TermsAccepted(t) && k < t.termMonths
    ensures var error := Rows(t)[k].interest * 120_000 - Rows(t)[k].opening * t.annualRateBp;
            -120_000 <= 2 * error <= 120_000 && (2 * error in {120_000, -120_000} ==> Rows(t)[k].interest % 2 == 0)
  {
    var opening, rate := Opening(t, k), t.annualRateBp;
    assert opening * (rate * 30) * 120_000 == opening * rate * 3_600_000;
    HalfEvenRatio(opening * (rate * 30), THIRTY_360_INTEREST_DENOMINATOR, opening * rate, 120_000);
    HalfEvenRounds(opening * rate, 120_000);
  }

  /** Thirty days' interest is defined exactly for a balance that is not negative and a rate up to 1000%. */
  lemma InterestExactlyWhen(opening: int, annualRateBp: int)
    ensures InterestForThirtyDayPeriod(opening, annualRateBp) ==
            if 0 <= opening && 0 <= annualRateBp <= 100_000 then Ok(HalfEven(opening * annualRateBp, 120_000))
            else Err(ValidationFailed)
  {
    if 0 <= opening && RateAccepted(annualRateBp) {
      assert opening * (annualRateBp * 30) * 120_000 == opening * annualRateBp * 3_600_000;
      HalfEvenRatio(opening * (annualRateBp * 30), THIRTY_360_INTEREST_DENOMINATOR, opening * annualRateBp, 120_000);
    }
  }

  lemma {:induction false} FirstRowsInterest(t: Terms, n: nat)
    requires TermsAccepted(t) && n <= t.termMonths
    ensures var error := InterestSum(Rows(t)[..n]) * 120_000 - ExactInterest(Rows(t)[..n], t.annualRateBp);
            -120_000 * n <= 2 * error <= 120_000 * n
  {
    if n != 0 {
      FirstRowsInterest(t, n - 1);
      assert Rows(t)[..n][..n - 1] == Rows(t)[..n - 1];
      RowInterestIsNearest(t, n - 1);
    }
  }

  /** Total rounded interest is within half a cent per row of the exact rational interest. */
  lemma InterestErrorIsBounded(t: Terms)
    requires Schedule(t).Ok?
    ensures var rows := Schedule(t).value;
            var error := InterestSum(rows) * 120_000 - ExactInterest(rows, t.annualRateBp);
            -120_000 * t.termMonths <= 2 * error <= 120_000 * t.termMonths
  {
    FirstRowsInterest(t, t.termMonths);
    assert Rows(t)[..t.termMonths] == Rows(t);
  }

  /** One row follows from the one before: thirty days later, on what is left after its principal part. */
  lemma RowsFollowEachOther(t: Terms)
    requires Schedule(t).Ok?
    ensures var rows := Schedule(t).value;
            && |rows| == t.termMonths
            && rows[0].number == 1 && rows[0].dueTick == t.disbursedTick + 30 && rows[0].opening == t.principal
            && (forall k | 0 < k < |rows| ::
                  && rows[k].number == rows[k - 1].number + 1 && rows[k].dueTick == rows[k - 1].dueTick + 30
                  && rows[k].opening == rows[k - 1].opening - rows[k - 1].principal)
            && (forall k | 0 <= k < |rows| - 1 :: rows[k].principal == t.principal / t.termMonths)
  {
    forall k | 0 < k < t.termMonths ensures Opening(t, k) == Opening(t, k - 1) - t.principal / t.termMonths {
      OneMore(k, t.principal / t.termMonths);
    }
  }

  /** A schedule exists exactly for a positive principal over 1 to 360 months, at up to 1000%, due at safe ticks. */
  lemma ScheduledExactlyWhen(t: Terms)
    ensures Schedule(t).Ok? <==>
              && 1 <= t.principal && 1 <= t.termMonths <= 360 && 0 <= t.annualRateBp <= 100_000
              && 0 <= t.disbursedTick && t.disbursedTick + 30 * t.termMonths < 0x20_0000_0000_0000
  {
  }

  /** The closed form the credit score uses for a year's principal. */
  function PrincipalDueWithinYear(amount: int, termMonths: int): Result<int> {
    if amount <= 0 || !(1 <= termMonths <= 360) then Err(ValidationFailed)
    else
      var months := Min(12, termMonths);
      Ok(if months == termMonths then amount else (amount / termMonths) * months)
  }

  /** The closed form agrees with the first year of the schedule that is later generated. */
  lemma YearlyPrincipalMatchesSchedule(t: Terms)
    requires Schedule(t).Ok?
    ensures PrincipalDueWithinYear(t.principal, t.termMonths)
            == Ok(PrincipalSum(Schedule(t).value[..Min(12, t.termMonths)]))
  {
    FirstRowsRepay(t, Min(12, t.termMonths));
  }

  /** The year's principal is defined exactly for a positive amount over 1 to 360 months. */
  lemma YearlyPrincipalExactlyWhen(amount: int, termMonths: int)
    ensures PrincipalDueWithinYear(amount, termMonths).Ok? <==> 1 <= amount && 1 <= termMonths <= 360
  {
  }

  /******* Collections *******/

  datatype Status = Due | Missed | Completed

  datatype Installment = Installment(row: Row, status: Status)

  datatype LoanStatus = Disbursed | Repaying | PaidOff | Defaulted

  datatype Loan = Loan(installments: seq<Installment>, outstanding: int, misses: int, status: LoanStatus)

  datatype Quote = Quote(principal: int, interest: int)

  /** The positions of the missed instalments before `n`. */
  function Arrears(ins: seq<Installment>, n: nat): seq<nat>
    requires n <= |ins|
  {
    if n == 0 then [] else Arrears(ins, n - 1) + (if ins[n - 1].status == Missed then [n - 1] else [])
  }

  lemma {:induction false} ArrearsAreMissed(ins: seq<Installment>, n: nat)
    requires n <= |ins|
    ensures forall k | 0 <= k < |Arrears(ins, n)| :: Arrears(ins, n)[k] < n && ins[Arrears(ins, n)[k]].status == Missed
    ensures forall j | 0 <= j < n && ins[j].status == Missed :: j in Arrears(ins, n)
  {
    if n != 0 {
      ArrearsAreMissed(ins, n - 1);
    }
  }

  function SumOver(ins: seq<Installment>, targets: seq<nat>, f: Row -> int): int
    requires forall k | 0 <= k < |targets| :: targets[k] < |ins|
  {
    if targets == [] then 0
    else SumOver(ins, targets[..|targets| - 1], f) + f(ins[targets[|targets| - 1]].row)
  }

  function PrincipalOf(row: Row): int {
    row.principal
  }

  function InterestOf(row: Row): int {
    row.interest
  }

  /** Sums the complete arrears set; a quote never covers part of an instalment. */
  function QuoteLoanCollection(ins: seq<Installment>, targets: seq<nat>): Result<Quote>
    requires forall k | 0 <= k < |targets| :: targets[k] < |ins|
  {
    if targets == [] then Err(ValidationFailed)
    else
      match FirstRefusal(ins, targets)
      case Some(code) => Err(code)
      case None =>
        var quote := Quote(SumOver(ins, targets, PrincipalOf), SumOver(ins, targets, InterestOf));
        if quote.principal + quote.interest <= 0 then Err(ValidationFailed) else Ok(quote)
  }

  predicate InOrder(ins: seq<Installment>, targets: seq<nat>, k: nat)
    requires k < |targets| && forall k | 0 <= k < |targets| :: targets[k] < |ins|
  {
    (if k == 0 then 0 else ins[targets[k - 1]].row.number) < ins[targets[k]].row.number
  }

  function FirstRefusal(ins: seq<Installment>, targets: seq<nat>): Option<ErrorCode>
    requires forall k | 0 <= k < |targets| :: targets[k] < |ins|
  {
    if targets == [] then None
    else
      var n := |targets| - 1;
      var earlier := FirstRefusal(ins, targets[..n]);
      if earlier.Some? then earlier
      else if ins[targets[n]].status == Completed then Some(Conflict)
      else if !InOrder(ins, targets, n) then Some(ValidationFailed)
      else None
  }

  datatype AfterCollection = AfterCollection(outstanding: int, status: LoanStatus)

  function LoanStateAfterCollection(outstanding: int, collected: int): Result<AfterCollection> {
    if outstanding < 0 || collected < 0 then Err(ValidationFailed)
    else if outstanding < collected then Err(Conflict)
    else Ok(AfterCollection(outstanding - collected, if outstanding == collected then PaidOff else Repaying))
  }

  datatype AfterMiss = AfterMiss(misses: int, status: LoanStatus)

  function LoanStateAfterMiss(misses: int): Result<AfterMiss> {
    if misses < 0 || LOAN_DEFAULT_CONSECUTIVE_MISSES <= misses then Err(ValidationFailed)
    else Ok(AfterMiss(misses + 1, if LOAN_DEFAULT_CONSECUTIVE_MISSES <= misses + 1 then Defaulted else Repaying))
  }

  function Complete(ins: seq<Installment>, targets: seq<nat>): (after: seq<Installment>)
    requires forall k | 0 <= k < |targets| :: targets[k] < |ins|
    ensures |after| == |ins|
  {
    if targets == [] then ins
    else
      var n := |targets| - 1;
      var before := Complete(ins, targets[..n]);
      before[targets[n] := before[targets[n]].(status := Completed)]
  }

  predicate AllCollectible(ins: seq<Installment>, targets: seq<nat>)
    requires forall k | 0 <= k < |targets| :: targets[k] < |ins|
  {
    forall k | 0 <= k < |targets| :: 0 < ins[targets[k]].row.principal
  }

  function Collect(loan: Loan, targets: seq<nat>, quote: Quote): Result<Loan>
    requires forall k | 0 <= k < |targets| :: targets[k] < |loan.installments|
  {
    if !AllCollectible(loan.installments, targets) then Err(Conflict)
    else
      match LoanStateAfterCollection(loan.outstanding, quote.principal)
      case Err(code) => Err(code)
      case Ok(next) => Ok(Loan(Complete(loan.installments, targets), next.outstanding, 0, next.status))
  }

  function Miss(loan: Loan, i: nat): Result<Loan>
    requires i < |loan.installments|
  {
    match LoanStateAfterMiss(loan.misses)
    case Err(code) => Err(code)
    case Ok(next) =>
      var ins := loan.installments[i := loan.installments[i].(status := Missed)];
      if next.status == Defaulted && (|Arrears(ins, |ins|)| < 3 || loan.outstanding <= 0) then Err(Conflict)
      else Ok(Loan(ins, loan.outstanding, next.misses, next.status))
  }

  /** One instalment falls due with `available` cents above the borrower's floor. */
  function ProcessOne(loan: Loan, i: nat, available: nat): Result<Loan>
    requires i < |loan.installments|
  {
    if loan.installments[i].status != Due then Err(Conflict)
    else
      ArrearsAreMissed(loan.installments, i);
      var targets := Arrears(loan.installments, i) + [i];
      match QuoteLoanCollection(loan.installments, targets)
      case Err(code) => Err(code)
      case Ok(quote) =>
        if available < quote.principal + quote.interest then Miss(loan, i) else Collect(loan, targets, quote)
  }

  /** The months from instalment `i` on; a finished loan is left alone, and a failure stops everything. */
  function Collections(loan: Loan, i: nat, cash: seq<nat>): Result<Loan>
    requires i + |cash| <= |loan.installments|
    decreases |cash|
  {
    if cash == [] || loan.status == PaidOff || loan.status == Defaulted then Ok(loan)
    else
      match ProcessOne(loan, i, cash[0])
      case Err(code) => Err(code)
      case Ok(next) =>
        ProcessKeepsLength(loan, i, cash[0]);
        Collections(next, i + 1, cash[1..])
  }

  lemma ProcessKeepsLength(loan: Loan, i: nat, available: nat)
    requires i < |loan.installments| && ProcessOne(loan, i, available).Ok?
    ensures |ProcessOne(loan, i, available).value.installments| == |loan.installments|
  {
  }

  function Originated(rows: seq<Row>, principal: int): Loan {
    Loan(seq(|rows|, k requires 0 <= k < |rows| => Installment(rows[k], Due)), principal, 0, Disbursed)
  }

  class LoanAccount {
    var installments: seq<Installment>
    var outstanding: int
    var misses: int
    var status: LoanStatus

    ghost function View(): Loan
      reads this
    {
      Loan(installments, outstanding, misses, status)
    }

    constructor (rows: seq<Row>, principal: int)
      ensures View() == Originated(rows, principal)
    {
      installments := seq(|rows|, k requires 0 <= k < |rows| => Installment(rows[k], Due));
      outstanding, misses, status := principal, 0, Disbursed;
    }

    method QuoteTargets(targets: seq<nat>) returns (quote: Result<Quote>)
      requires forall k | 0 <= k < |targets| :: targets[k] < |installments|
      ensures quote == QuoteLoanCollection(installments, targets)
    {
      if targets == [] {
        return Err(ValidationFailed);
      }
      var previous, principal, interest := 0, 0, 0;
      var i := 0;
      while i < |targets|
        invariant 0 <= i <= |targets|
        invariant previous == if i == 0 then 0 else installments[targets[i - 1]].row.number
        invariant FirstRefusal(installments, targets[..i]) == None
        invariant principal == SumOver(installments, targets[..i], PrincipalOf)
        invariant interest == SumOver(installments, targets[..i], InterestOf)
      {
        assert targets[..i + 1][..i] == targets[..i];
        var installment := installments[targets[i]];
        if installment.status == Completed {
          RefusalStays(installments, targets, i + 1);
          return Err(Conflict);
        }
        if installment.row.number <= previous {
          RefusalStays(installments, targets, i + 1);
          return Err(ValidationFailed);
        }
        previous := installment.row.number;
        principal := principal + installment.row.principal;
        interest := interest + installment.row.interest;
        i := i + 1;
      }
      assert targets[..|targets|] == targets;
      if principal + interest <= 0 {
        return Err(ValidationFailed);
      }
      return Ok(Quote(principal, interest));
    }

    /** Runs in one database transaction: a failure leaves the loan as it was. */
    method Process(i: nat, available: nat) returns (failure: Option<ErrorCode>)
      requires i < |installments|
      modifies this
      ensures match ProcessOne(old(View()), i, available)
              case Ok(after) => failure == None && View() == after
              case Err(code) => failure == Some(code) && View() == old(View())
    {
      if installments[i].status != Due {
        return Some(Conflict);
      }
      ArrearsAreMissed(installments, i);
      var targets := Arrears(installments, i) + [i];
      var quote := QuoteTargets(targets);
      if quote.Err? {
        return Some(quote.code);
      }
      if available < quote.value.principal + quote.value.interest {
        failure := RecordMiss(i);
      } else {
        failure := CollectTargets(targets, quote.value);
      }
    }

    method RecordMiss(i: nat) returns (failure: Option<ErrorCode>)
      requires i < |installments|
      modifies this
      ensures match Miss(old(View()), i)
              case Ok(after) => failure == None && View() == after
              case Err(code) => failure == Some(code) && View() == old(View())
    {
      var next := LoanStateAfterMiss(misses);
      if next.Err? {
        return Some(next.code);
      }
      var marked := installments[i := installments[i].(status := Missed)];
      if next.value.status == Defaulted && (|Arrears(marked, |marked|)| < 3 || outstanding <= 0) {
        return Some(Conflict);
      }
      installments, misses, status := marked, next.value.misses, next.value.status;
      failure := None;
    }

    method CollectTargets(targets: seq<nat>, quote: Quote) returns (failure: Option<ErrorCode>)
      requires forall k | 0 <= k < |targets| :: targets[k] < |installments|
      modifies this
      ensures match Collect(old(View()), targets, quote)
              case Ok(after) => failure == None && View() == after
              case Err(code) => failure == Some(code) && View() == old(View())
    {
      var completed := installments;
      for k := 0 to |targets|
        invariant completed == Complete(installments, targets[..k])
        invariant AllCollectible(installments, targets[..k])
      {
        if installments[targets[k]].row.principal <= 0 {
          return Some(Conflict);
        }
        assert targets[..k + 1][..k] == targets[..k];
        completed := completed[targets[k] := completed[targets[k]].(status := Completed)];
      }
      assert targets[..|targets|] == targets;
      var next := LoanStateAfterCollection(outstanding, quote.principal);
      if next.Err? {
        return Some(next.code);
      }
      installments, outstanding, misses, status := completed, next.value.outstanding, 0, next.value.status;
      failure := None;
    }
  }

  lemma {:induction false} RefusalStays(ins: seq<Installment>, targets: seq<nat>, n: nat)
    requires n <= |targets| && forall k | 0 <= k < |targets| :: targets[k] < |ins|
    requires FirstRefusal(ins, targets[..n]).Some?
    ensures FirstRefusal(ins, targets) == FirstRefusal(ins, targets[..n])
    decreases |targets| - n
  {
    if n == |targets| {
      assert targets[..n] == targets;
    } else {
      assert targets[..n + 1][..n] == targets[..n];
      RefusalStays(ins, targets, n + 1);
    }
  }

  /**
   * A quote is given exactly for a list of uncollected instalments in strictly increasing order
   * that come to something, and is the sum of their principal and interest.
   */
  lemma {:induction false} QuotedExactlyWhen(ins: seq<Installment>, targets: seq<nat>)
    requires forall k | 0 <= k < |targets| :: targets[k] < |ins|
    ensures var principal, interest := SumOver(ins, targets, PrincipalOf), SumOver(ins, targets, InterestOf);
            && (QuoteLoanCollection(ins, targets).Ok? <==>
                  && targets != [] && 0 < principal + interest && 0 < ins[targets[0]].row.number
                  && (forall k | 0 <= k < |targets| :: ins[targets[k]].status != Completed)
                  && (forall j, k | 0 <= j < k < |targets| :: ins[targets[j]].row.number < ins[targets[k]].row.number))
            && (QuoteLoanCollection(ins, targets).Ok? ==> QuoteLoanCollection(ins, targets).value == Quote(principal, interest))
  {
    NotRefusedExactlyWhen(ins, targets);
  }

  lemma {:induction false} NotRefusedExactlyWhen(ins: seq<Installment>, targets: seq<nat>)
    requires forall k | 0 <= k < |targets| :: targets[k] < |ins|
    ensures FirstRefusal(ins, targets) == None <==>
              && (targets != [] ==> 0 < ins[targets[0]].row.number)
              && (forall k | 0 <= k < |targets| :: ins[targets[k]].status != Completed)
              && (forall j, k | 0 <= j < k < |targets| :: ins[targets[j]].row.number < ins[targets[k]].row.number)
  {
    if targets != [] {
      var n := |targets| - 1;
      NotRefusedExactlyWhen(ins, targets[..n]);
      if FirstRefusal(ins, targets) == None {
        forall j, k | 0 <= j < k < |targets| ensures ins[targets[j]].row.number < ins[targets[k]].row.number {
          if k == n {
            assert j == n - 1 || ins[targets[..n][j]].row.number < ins[targets[..n][n - 1]].row.number;
          } else {
            assert ins[targets[..n][j]].row.number < ins[targets[..n][k]].row.number;
          }
        }
      }
    }
  }

  /** A miss is recorded unless the loan is past its third, or the third has no three misses or no debt to show. */
  lemma MissedExactlyWhen(loan: Loan, i: nat)
    requires i < |loan.installments|
    ensures var marked := loan.installments[i := loan.installments[i].(status := Missed)];
            && (Miss(loan, i).Ok? <==>
                  0 <= loan.misses <= 2 && (loan.misses == 2 ==> 3 <= |Arrears(marked, |marked|)| && 0 < loan.outstanding))
            && (Miss(loan, i).Ok? ==>
                  Miss(loan, i).value ==
                  Loan(marked, loan.outstanding, loan.misses + 1, if loan.misses == 2 then Defaulted else Repaying))
  {
  }

  /******* The life of a loan *******/

  function Range(a: nat, b: nat): (r: seq<nat>)
    requires a <= b
    ensures forall k | 0 <= k < |r| :: r[k] < b
  {
    seq(b - a, k requires 0 <= k < b - a => a + k)
  }

  function PrincipalBetween(rows: seq<Row>, a: nat, b: nat): int
    requires a <= b <= |rows|
  {
    if a == b then 0 else PrincipalBetween(rows, a, b - 1) + rows[b - 1].principal
  }

  lemma {:induction false} BetweenAddsUp(rows: seq<Row>, a: nat, b: nat, c: nat)
    requires a <= b <= c <= |rows|
    ensures PrincipalBetween(rows, a, c) == PrincipalBetween(rows, a, b) + PrincipalBetween(rows, b, c)
    decreases c - b
  {
    if b < c {
      BetweenAddsUp(rows, a, b, c - 1);
    }
  }

  /** The rows of any schedule: numbered, and at the latest the last one repays something. */
  ghost predicate Numbered(rows: seq<Row>) {
    && (forall k | 0 <= k < |rows| :: rows[k].number == k + 1 && 0 <= rows[k].principal && 0 <= rows[k].interest)
    && (rows != [] ==> 0 < rows[|rows| - 1].principal)
  }

  /** Rows a collection can always work with: there is something to repay in each. */
  ghost predicate Collectible(rows: seq<Row>) {
    Numbered(rows) && forall k | 0 <= k < |rows| :: 0 < rows[k].principal
  }

  lemma {:induction false} BetweenIsPositive(rows: seq<Row>, a: nat, b: nat)
    requires Numbered(rows) && a <= b <= |rows|
    ensures 0 <= PrincipalBetween(rows, a, b)
    ensures a < b && 0 < rows[b - 1].principal ==> 0 < PrincipalBetween(rows, a, b)
  {
    if a < b {
      BetweenIsPositive(rows, a, b - 1);
    }
  }

  ghost predicate Has(ins: seq<Installment>, rows: seq<Row>) {
    |ins| == |rows| && forall k | 0 <= k < |rows| :: ins[k].row == rows[k]
  }

  /** The instalments before `a` are completed, those from `a` to `b` missed, the rest not yet due. */
  ghost predicate Phases(ins: seq<Installment>, a: nat, b: nat) {
    a <= b <= |ins| && forall k | 0 <= k < |ins| ::
      ins[k].status == if k < a then Completed else if k < b then Missed else Due
  }

  /** After `i` instalments have fallen due. */
  ghost predicate OnTrack(loan: Loan, rows: seq<Row>, i: nat) {
    && Has(loan.installments, rows)
    && 0 <= loan.misses <= LOAN_DEFAULT_CONSECUTIVE_MISSES && loan.misses <= i <= |rows|
    && Phases(loan.installments, i - loan.misses, i)
    && loan.outstanding == PrincipalBetween(rows, i - loan.misses, |rows|)
    && (loan.status == Defaulted <==> loan.misses == LOAN_DEFAULT_CONSECUTIVE_MISSES)
    && (loan.status == PaidOff <==> i == |rows| && loan.misses == 0)
  }

  lemma RangeGrows(a: nat, n: nat)
    requires a < n
    ensures Range(a, n) == Range(a, n - 1) + [n - 1] && Range(a, a) == []
  {
  }

  lemma {:induction false} ArrearsAreARange(ins: seq<Installment>, a: nat, b: nat, n: nat)
    requires Phases(ins, a, b) && n <= b
    ensures Arrears(ins, n) == if n <= a then [] else Range(a, n)
  {
    if n != 0 {
      ArrearsAreARange(ins, a, b, n - 1);
      if a < n {
        RangeGrows(a, n);
      }
    }
  }

  lemma {:induction false} RangeQuotes(ins: seq<Installment>, rows: seq<Row>, a: nat, b: nat)
    requires Has(ins, rows) && Numbered(rows) && a <= b <= |rows|
    requires forall k | a <= k < b :: ins[k].status != Completed
    ensures SumOver(ins, Range(a, b), PrincipalOf) == PrincipalBetween(rows, a, b)
    ensures 0 <= SumOver(ins, Range(a, b), InterestOf)
    ensures FirstRefusal(ins, Range(a, b)) == None
    decreases b - a
  {
    if a < b {
      RangeQuotes(ins, rows, a, b - 1);
      assert Range(a, b)[..b - a - 1] == Range(a, b - 1);
    }
  }

  lemma {:induction false} RangeCompletes(ins: seq<Installment>, a: nat, b: nat)
    requires a <= b <= |ins|
    ensures forall k | 0 <= k < |ins| ::
              Complete(ins, Range(a, b))[k] == if a <= k < b then ins[k].(status := Completed) else ins[k]
    decreases b - a
  {
    if a < b {
      RangeCompletes(ins, a, b - 1);
      assert Range(a, b)[..b - a - 1] == Range(a, b - 1);
    }
  }

  lemma {:induction false} ArrearsGrow(ins: seq<Installment>, n: nat, m: nat)
    requires n <= m <= |ins|
    ensures |Arrears(ins, n)| <= |Arrears(ins, m)|
    decreases m - n
  {
    if n < m {
      ArrearsGrow(ins, n, m - 1);
    }
  }

  /** A month without enough cash: never refused, and the default guards hold when it is the third. */
  lemma MissStaysOnTrack(loan: Loan, rows: seq<Row>, i: nat)
    requires Numbered(rows) && OnTrack(loan, rows, i) && i < |rows| && loan.status != Defaulted
    ensures Miss(loan, i).Ok? && OnTrack(Miss(loan, i).value, rows, i + 1)
    ensures Miss(loan, i).value.misses == loan.misses + 1
  {
    var a := i - loan.misses;
    var ins := loan.installments[i := loan.installments[i].(status := Missed)];
    assert Phases(ins, a, i + 1);
    ArrearsAreARange(ins, a, i + 1, i + 1);
    ArrearsGrow(ins, i + 1, |ins|);
    BetweenIsPositive(rows, a, |rows|);
  }

  lemma ClearedPhases(ins: seq<Installment>, a: nat, i: nat)
    requires Phases(ins, a, i) && i < |ins|
    ensures Phases(Complete(ins, Range(a, i + 1)), i + 1, i + 1)
  {
    RangeCompletes(ins, a, i + 1);
  }

  lemma CompleteKeepsRows(ins: seq<Installment>, rows: seq<Row>, a: nat, b: nat)
    requires Has(ins, rows) && a <= b <= |ins|
    ensures Has(Complete(ins, Range(a, b)), rows)
  {
    RangeCompletes(ins, a, b);
  }

  /** A month with enough cash clears arrears that can be collected; the over-collection guard does not fire. */
  lemma CollectionStaysOnTrack(loan: Loan, rows: seq<Row>, i: nat, quote: Quote)
    requires Numbered(rows) && OnTrack(loan, rows, i) && i < |rows|
    requires AllCollectible(loan.installments, Range(i - loan.misses, i + 1))
    requires quote.principal == PrincipalBetween(rows, i - loan.misses, i + 1)
    ensures var after := Collect(loan, Range(i - loan.misses, i + 1), quote);
            after.Ok? && OnTrack(after.value, rows, i + 1)
  {
    var a := i - loan.misses;
    CollectRange(loan, rows, a, i + 1, quote);
    ClearedPhases(loan.installments, a, i);
    CompleteKeepsRows(loan.installments, rows, a, i + 1);
    ClearedIsOnTrack(Complete(loan.installments, Range(a, i + 1)), rows, i + 1);
  }

  lemma {:induction false} CollectRange(loan: Loan, rows: seq<Row>, a: nat, b: nat, quote: Quote)
    requires Has(loan.installments, rows) && Numbered(rows) && a < b <= |rows|
    requires AllCollectible(loan.installments, Range(a, b))
    requires forall k | a <= k < b :: loan.installments[k].status != Completed
    requires loan.outstanding == PrincipalBetween(rows, a, |rows|) && quote.principal == PrincipalBetween(rows, a, b)
    ensures Collect(loan, Range(a, b), quote) ==
            Ok(Loan(Complete(loan.installments, Range(a, b)), PrincipalBetween(rows, b, |rows|), 0,
                    if b == |rows| then PaidOff else Repaying))
  {
    assert Range(a, b)[b - a - 1] == b - 1;
    OutstandingAfter(rows, a, b);
  }

  lemma OutstandingAfter(rows: seq<Row>, a: nat, b: nat)
    requires Numbered(rows) && a < b <= |rows| && 0 < rows[b - 1].principal
    ensures LoanStateAfterCollection(PrincipalBetween(rows, a, |rows|), PrincipalBetween(rows, a, b))
            == Ok(AfterCollection(PrincipalBetween(rows, b, |rows|), if b == |rows| then PaidOff else Repaying))
  {
    BetweenAddsUp(rows, a, b, |rows|);
    BetweenIsPositive(rows, a, b);
    BetweenIsPositive(rows, a, |rows|);
    BetweenIsPositive(rows, b, |rows|);
  }

  lemma ClearedIsOnTrack(ins: seq<Installment>, rows: seq<Row>, i: nat)
    requires Has(ins, rows) && Phases(ins, i, i) && i <= |rows|
    ensures OnTrack(Loan(ins, PrincipalBetween(rows, i, |rows|), 0, if i == |rows| then PaidOff else Repaying), rows, i)
  {
  }

  lemma TargetsAreARange(ins: seq<Installment>, a: nat, i: nat)
    requires Phases(ins, a, i) && i < |ins|
    ensures Arrears(ins, i) + [i] == Range(a, i + 1)
    ensures forall k | a <= k < i + 1 :: ins[k].status != Completed
  {
    ArrearsAreARange(ins, a, i, i);
    RangeGrows(a, i + 1);
  }

  /** What falls due is everything missed since the last collection, and its principal is quoted. */
  lemma {:induction false} MonthlyQuote(loan: Loan, rows: seq<Row>, i: nat)
    requires Numbered(rows) && OnTrack(loan, rows, i) && i < |rows|
    ensures Arrears(loan.installments, i) + [i] == Range(i - loan.misses, i + 1)
    ensures var quote := QuoteLoanCollection(loan.installments, Range(i - loan.misses, i + 1));
            && (quote.Ok? ==> quote.value.principal == PrincipalBetween(rows, i - loan.misses, i + 1))
            && (Collectible(rows) ==> quote.Ok?)
  {
    TargetsAreARange(loan.installments, i - loan.misses, i);
    RangeQuote(loan.installments, rows, i - loan.misses, i + 1);
  }

  lemma {:induction false} RangeQuote(ins: seq<Installment>, rows: seq<Row>, a: nat, b: nat)
    requires Has(ins, rows) && Numbered(rows) && a < b <= |rows|
    requires forall k | a <= k < b :: ins[k].status != Completed
    ensures var quote := QuoteLoanCollection(ins, Range(a, b));
            && (quote.Ok? ==> quote.value.principal == PrincipalBetween(rows, a, b))
            && (Collectible(rows) ==> quote.Ok?)
  {
    RangeQuotes(ins, rows, a, b);
    BetweenIsPositive(rows, a, b);
    RangeGrows(a, b);
  }

  /** A month that can be processed keeps the loan on track; where every row repays something, it can be. */
  lemma MonthStaysOnTrack(loan: Loan, rows: seq<Row>, i: nat, available: nat)
    requires Numbered(rows) && OnTrack(loan, rows, i) && i < |rows| && loan.status != Defaulted
    ensures ProcessOne(loan, i, available).Ok? ==> OnTrack(ProcessOne(loan, i, available).value, rows, i + 1)
    ensures Collectible(rows) ==> ProcessOne(loan, i, available).Ok?
  {
    var targets := Range(i - loan.misses, i + 1);
    MonthlyQuote(loan, rows, i);
    var quote := QuoteLoanCollection(loan.installments, targets);
    if quote.Ok? && available < quote.value.principal + quote.value.interest {
      MissStaysOnTrack(loan, rows, i);
    } else if quote.Ok? && AllCollectible(loan.installments, targets) {
      CollectionStaysOnTrack(loan, rows, i, quote.value);
    }
  }

  /** The principal of the instalments not collected yet. */
  function Uncollected(ins: seq<Installment>): int {
    if ins == [] then 0
    else Uncollected(ins[..|ins| - 1]) + (if ins[|ins| - 1].status == Completed then 0 else ins[|ins| - 1].row.principal)
  }

  lemma {:induction false} UncollectedBetween(ins: seq<Installment>, rows: seq<Row>, a: nat, n: nat)
    requires Has(ins, rows) && n <= |ins|
    requires forall k | 0 <= k < |ins| :: ins[k].status == Completed <==> k < a
    ensures Uncollected(ins[..n]) == if n <= a then 0 else PrincipalBetween(rows, a, n)
  {
    if n != 0 {
      UncollectedBetween(ins, rows, a, n - 1);
      assert ins[..n][..n - 1] == ins[..n - 1];
    }
  }

  /** Three instalments in a row were missed. */
  ghost predicate ThreeMissedInARow(ins: seq<Installment>) {
    exists k :: 0 <= k && k + 2 < |ins| && ins[k].status == ins[k + 1].status == ins[k + 2].status == Missed
  }

  /** What a loan that is on track says about itself. */
  lemma OnTrackMeans(loan: Loan, rows: seq<Row>, i: nat)
    requires Numbered(rows) && OnTrack(loan, rows, i)
    ensures loan.outstanding == Uncollected(loan.installments)
    ensures rows != [] ==> (loan.status == PaidOff <==> forall k | 0 <= k < |rows| :: loan.installments[k].status == Completed)
    ensures loan.status == Defaulted <==> ThreeMissedInARow(loan.installments)
  {
    var a := i - loan.misses;
    UncollectedBetween(loan.installments, rows, a, |rows|);
    assert loan.installments[..|rows|] == loan.installments;
    if rows != [] && loan.status != PaidOff {
      assert loan.installments[if a < |rows| then a else |rows| - 1].status != Completed;
    }
    if loan.misses == 3 {
      assert loan.installments[a].status == loan.installments[a + 1].status == loan.installments[a + 2].status == Missed;
    }
  }

  predicate Finished(loan: Loan) {
    loan.status == PaidOff || loan.status == Defaulted
  }

  lemma {:induction false} MonthsStayOnTrack(loan: Loan, rows: seq<Row>, i: nat, cash: seq<nat>) returns (n: nat)
    requires Numbered(rows) && OnTrack(loan, rows, i) && i + |cash| <= |rows|
    ensures Collections(loan, i, cash).Ok? ==>
              var after := Collections(loan, i, cash).value;
              OnTrack(after, rows, n) && (Finished(after) || n == i + |cash|)
    ensures Collectible(rows) ==> Collections(loan, i, cash).Ok?
    decreases |cash|
  {
    n := i;
    if cash != [] && loan.status != PaidOff && loan.status != Defaulted {
      MonthStaysOnTrack(loan, rows, i, cash[0]);
      if ProcessOne(loan, i, cash[0]).Ok? {
        n := MonthsStayOnTrack(ProcessOne(loan, i, cash[0]).value, rows, i + 1, cash[1..]);
      }
    }
  }

  /** Every schedule is numbered; with at least one cent of principal per month it can be collected throughout. */
  lemma SchedulesAreNumbered(t: Terms)
    requires Schedule(t).Ok?
    ensures Numbered(Schedule(t).value)
    ensures t.termMonths <= t.principal ==> Collectible(Schedule(t).value)
  {
    DivAtLeast(t.principal, t.termMonths, 1);
    forall k | 0 <= k < t.termMonths
      ensures 0 <= RowAt(t, k).principal && 0 <= RowAt(t, k).interest
      ensures k == t.termMonths - 1 || t.termMonths <= t.principal ==> 0 < RowAt(t, k).principal
    {
      InterestNeverRises(t, k, k);
      RegularPartFits(t, k);
    }
  }

  lemma {:induction false} FirstRowsBetween(rows: seq<Row>, n: nat)
    requires n <= |rows|
    ensures PrincipalSum(rows[..n]) == PrincipalBetween(rows, 0, n)
  {
    if n != 0 {
      FirstRowsBetween(rows, n - 1);
      assert rows[..n][..n - 1] == rows[..n - 1];
    }
  }

  /** A new loan is on track from its first month on. */
  lemma OriginatedRuns(t: Terms, cash: seq<nat>) returns (n: nat)
    requires Schedule(t).Ok? && |cash| <= t.termMonths
    ensures var run := Collections(Originated(Schedule(t).value, t.principal), 0, cash);
            && (run.Ok? ==> OnTrack(run.value, Schedule(t).value, n) && (Finished(run.value) || n == |cash|))
            && (t.termMonths <= t.principal ==> run.Ok?)
  {
    var rows := Schedule(t).value;
    SchedulesAreNumbered(t);
    PrincipalPartsSum(t);
    FirstRowsBetween(rows, |rows|);
    assert rows[..|rows|] == rows;
    var loan := Originated(rows, t.principal);
    assert OnTrack(loan, rows, 0);
    n := MonthsStayOnTrack(loan, rows, 0, cash);
  }

  /**
   * Whatever the borrower can pay in each month, a loan whose months could be processed owes
   * exactly the principal of the uncollected instalments, is paid off exactly when all are
   * collected, and has defaulted exactly when three in a row were missed.
   */
  lemma LoanLife(t: Terms, cash: seq<nat>)
    requires Schedule(t).Ok? && |cash| <= t.termMonths
    requires Collections(Originated(Schedule(t).value, t.principal), 0, cash).Ok?
    ensures var run := Collections(Originated(Schedule(t).value, t.principal), 0, cash).value;
            && run.outstanding == Uncollected(run.installments)
            && (run.status == PaidOff <==> forall k | 0 <= k < |run.installments| :: run.installments[k].status == Completed)
            && (run.status == Defaulted <==> ThreeMissedInARow(run.installments))
  {
    var n := OriginatedRuns(t, cash);
    SchedulesAreNumbered(t);
    OnTrackMeans(Collections(Originated(Schedule(t).value, t.principal), 0, cash).value, Schedule(t).value, n);
  }

  /** The principal and interest of the instalments before `n` that have not been collected. */
  function Owed(ins: seq<Installment>, n: nat): int
    requires n <= |ins|
  {
    if n == 0 then 0
    else
      var last := ins[n - 1];
      Owed(ins, n - 1) + (if last.status == Completed then 0 else last.row.principal + last.row.interest)
  }

  lemma {:induction false} OwedIsQuoted(ins: seq<Installment>, a: nat, b: nat)
    requires a <= b <= |ins| && forall k | 0 <= k < b :: ins[k].status == Completed <==> k < a
    ensures Owed(ins, b) == SumOver(ins, Range(a, b), PrincipalOf) + SumOver(ins, Range(a, b), InterestOf)
    decreases b
  {
    if a < b {
      OwedIsQuoted(ins, a, b - 1);
      assert Range(a, b)[..b - a - 1] == Range(a, b - 1);
    } else {
      NothingOwed(ins, b);
    }
  }

  lemma {:induction false} NothingOwed(ins: seq<Installment>, n: nat)
    requires n <= |ins| && forall k | 0 <= k < n :: ins[k].status == Completed
    ensures Owed(ins, n) == 0
  {
    if n != 0 {
      NothingOwed(ins, n - 1);
    }
  }

  /** With enough cash for all that is owed everything so far is collected, otherwise the month is missed. */
  ghost predicate DecidedByCash(before: Loan, after: Loan, i: nat, available: nat) {
    && i < |before.installments| == |after.installments|
    && forall j | 0 <= j < |after.installments| ::
         var was, now := before.installments[j], after.installments[j];
         && now.row == was.row
         && now.status == if j <= i && Owed(before.installments, i + 1) <= available then Completed
                          else if j == i then Missed
                          else was.status
  }

  lemma CollectionIsDecided(loan: Loan, i: nat, a: nat, quote: Quote, available: nat)
    requires a <= i < |loan.installments| && Collect(loan, Range(a, i + 1), quote).Ok?
    requires forall k | 0 <= k < a :: loan.installments[k].status == Completed
    requires Owed(loan.installments, i + 1) <= available
    ensures DecidedByCash(loan, Collect(loan, Range(a, i + 1), quote).value, i, available)
  {
    RangeCompletes(loan.installments, a, i + 1);
    assert Collect(loan, Range(a, i + 1), quote).value.installments == Complete(loan.installments, Range(a, i + 1));
  }

  lemma MissIsDecided(loan: Loan, i: nat, available: nat)
    requires i < |loan.installments| && Miss(loan, i).Ok? && available < Owed(loan.installments, i + 1)
    ensures DecidedByCash(loan, Miss(loan, i).value, i, available)
  {
  }

  /** What falls due is all that is owed, so the cash decides between collecting and missing. */
  lemma OwedIsDue(loan: Loan, rows: seq<Row>, i: nat, available: nat) returns (quote: Quote)
    requires Numbered(rows) && OnTrack(loan, rows, i) && i < |rows| && ProcessOne(loan, i, available).Ok?
    ensures ProcessOne(loan, i, available) ==
            if available < Owed(loan.installments, i + 1) then Miss(loan, i)
            else Collect(loan, Range(i - loan.misses, i + 1), quote)
  {
    var a, ins := i - loan.misses, loan.installments;
    TargetsAreARange(ins, a, i);
    OwedIsQuoted(ins, a, i + 1);
    quote := QuoteLoanCollection(ins, Range(a, i + 1)).value;
  }

  lemma MonthIsDecidedByCash(loan: Loan, rows: seq<Row>, i: nat, available: nat)
    requires Numbered(rows) && OnTrack(loan, rows, i) && i < |rows| && ProcessOne(loan, i, available).Ok?
    ensures DecidedByCash(loan, ProcessOne(loan, i, available).value, i, available)
  {
    var quote := OwedIsDue(loan, rows, i, available);
    if available < Owed(loan.installments, i + 1) {
      MissIsDecided(loan, i, available);
    } else {
      CollectionIsDecided(loan, i, i - loan.misses, quote, available);
    }
  }

  /** A run of months `xs` and then `ys` is the run of `ys` on what `xs` left. */
  ghost predicate SplitsAt(loan: Loan, i: nat, xs: seq<nat>, ys: seq<nat>)
    requires i + |xs| + |ys| <= |loan.installments|
  {
    match Collections(loan, i, xs)
    case Err(code) => Collections(loan, i, xs + ys) == Err(code)
    case Ok(after) =>
      && |after.installments| == |loan.installments|
      && Collections(loan, i, xs + ys) == Collections(after, i + |xs|, ys)
  }

  lemma {:induction false} StoppedRunSplits(loan: Loan, i: nat, xs: seq<nat>, ys: seq<nat>)
    requires i + |xs| + |ys| <= |loan.installments|
    requires xs == [] || Finished(loan) || ProcessOne(loan, i, xs[0]).Err?
    ensures SplitsAt(loan, i, xs, ys)
  {
    if xs == [] {
      assert xs + ys == ys;
    } else {
      assert (xs + ys)[0] == xs[0];
    }
  }

  lemma {:induction false} RunningSplits(loan: Loan, i: nat, xs: seq<nat>, ys: seq<nat>, next: Loan)
    requires i + |xs| + |ys| <= |loan.installments| == |next.installments|
    requires xs != [] && !Finished(loan) && ProcessOne(loan, i, xs[0]) == Ok(next)
    requires SplitsAt(next, i + 1, xs[1..], ys)
    ensures SplitsAt(loan, i, xs, ys)
  {
    assert (xs + ys)[0] == xs[0] && (xs + ys)[1..] == xs[1..] + ys;
    assert Collections(loan, i, xs) == Collections(next, i + 1, xs[1..]);
    assert Collections(loan, i, xs + ys) == Collections(next, i + 1, xs[1..] + ys);
  }

  lemma {:induction false} CollectionsSplit(loan: Loan, i: nat, xs: seq<nat>, ys: seq<nat>)
    requires i + |xs| + |ys| <= |loan.installments|
    ensures SplitsAt(loan, i, xs, ys)
    decreases |xs|
  {
    if xs == [] || Finished(loan) || ProcessOne(loan, i, xs[0]).Err? {
      StoppedRunSplits(loan, i, xs, ys);
    } else {
      var next := ProcessOne(loan, i, xs[0]).value;
      ProcessKeepsLength(loan, i, xs[0]);
      CollectionsSplit(next, i + 1, xs[1..], ys);
      RunningSplits(loan, i, xs, ys, next);
    }
  }

  /** A run that can be processed can be processed up to any month. */
  lemma {:induction false} RunReaches(loan: Loan, cash: seq<nat>, k: nat)
    requires k <= |cash| <= |loan.installments| && Collections(loan, 0, cash).Ok?
    ensures Collections(loan, 0, cash[..k]).Ok?
    ensures |Collections(loan, 0, cash[..k]).value.installments| == |loan.installments|
  {
    assert cash == cash[..k] + cash[k..];
    CollectionsSplit(loan, 0, cash[..k], cash[k..]);
  }

  lemma {:induction false} OneMonth(loan: Loan, i: nat, available: nat)
    requires i < |loan.installments|
    ensures Collections(loan, i, [available]) == if Finished(loan) then Ok(loan) else ProcessOne(loan, i, available)
  {
    if !Finished(loan) && ProcessOne(loan, i, available).Ok? {
      ProcessKeepsLength(loan, i, available);
      assert [available][1..] == [];
    }
  }

  /**
   * In every month of a run the cash at hand decides: all that is owed is collected when the
   * borrower can pay it, and otherwise the instalment is missed; a finished loan stays as it is.
   */
  lemma {:induction false} CashDecidesEachMonth(t: Terms, cash: seq<nat>, k: nat)
    requires Schedule(t).Ok? && k < |cash| <= t.termMonths
    requires Collections(Originated(Schedule(t).value, t.principal), 0, cash).Ok?
    ensures var loan := Originated(Schedule(t).value, t.principal);
            var before, after := Collections(loan, 0, cash[..k]), Collections(loan, 0, cash[..k + 1]);
            && before.Ok? && after.Ok?
            && if Finished(before.value) then after == before
               else DecidedByCash(before.value, after.value, k, cash[k])
  {
    var loan := Originated(Schedule(t).value, t.principal);
    RunReaches(loan, cash, k);
    RunReaches(loan, cash, k + 1);
    assert cash[..k + 1] == cash[..k] + [cash[k]];
    CollectionsSplit(loan, 0, cash[..k], [cash[k]]);
    OneMonth(Collections(loan, 0, cash[..k]).value, k, cash[k]);
    var n := OriginatedRuns(t, cash[..k]);
    SchedulesAreNumbered(t);
    var before := Collections(loan, 0, cash[..k]).value;
    if !Finished(before) {
      MonthIsDecidedByCash(before, Schedule(t).value, k, cash[k]);
    }
  }

  /** Every borrower's run can be processed exactly when there is a cent of principal for every month. */
  lemma LoansProcessExactlyWhen(t: Terms)
    requires Schedule(t).Ok?
    ensures (forall cash: seq<nat> | |cash| <= t.termMonths ::
               Collections(Originated(Schedule(t).value, t.principal), 0, cash).Ok?) <==> t.termMonths <= t.principal
  {
    if t.termMonths <= t.principal {
      forall cash: seq<nat> | |cash| <= t.termMonths
        ensures Collections(Originated(Schedule(t).value, t.principal), 0, cash).Ok?
      {
        var _ := OriginatedRuns(t, cash);
      }
    } else {
      DivAtLeast(t.principal, t.termMonths, 1);
      RegularPartFits(t, 0);
      InterestNeverRises(t, 0, 0);
      var loan := Originated(Schedule(t).value, t.principal);
      var interest := loan.installments[0].row.interest;
      var cash: seq<nat> := [interest];
      EmptyRowCannotBeCollected(loan, interest);
      assert Collections(loan, 0, cash).Err?;
    }
  }

  /** A first instalment without principal is refused even by a borrower who can pay its interest. */
  lemma EmptyRowCannotBeCollected(loan: Loan, interest: nat)
    requires loan.installments != [] && loan.installments[0].status == Due
    requires loan.installments[0].row.principal == 0 && loan.installments[0].row.interest == interest
    ensures ProcessOne(loan, 0, interest).Err?
  {
    var targets := Arrears(loan.installments, 0) + [0];
    assert targets == [0] && targets[..0] == [];
    assert SumOver(loan.installments, targets[..0], PrincipalOf) == 0;
    assert SumOver(loan.installments, targets, PrincipalOf) == 0;
    assert SumOver(loan.installments, targets, InterestOf) == interest;
    assert !AllCollectible(loan.installments, targets);
  }
}
