/** The creditor waterfall: a liquidation pool paid out in strict order of seniority. */
module Waterfall {
  import opened Shared
  import opened Ordering

  datatype Claim = Claim(id: string, seniority: int, registeredTick: int, amount: int) {
    predicate Accepted() {
      1 <= seniority && SafeInteger(seniority) && 0 <= registeredTick && SafeInteger(registeredTick) && 0 < amount
    }
  }

  datatype Allocation = Allocation(claimId: string, recovered: int, writtenOff: int)

  function IdOf(claim: Claim): string {
    claim.id
  }

  predicate Before(a: Claim, b: Claim) {
    a.seniority < b.seniority
    || (a.seniority == b.seniority
        && (a.registeredTick < b.registeredTick || (a.registeredTick == b.registeredTick && CodeUnitLe(a.id, b.id))))
  }

  predicate ClaimsAccepted(claims: seq<Claim>) {
    && (forall i | 0 <= i < |claims| :: claims[i].Accepted())
    && (forall i, j | 0 <= i < j < |claims| :: claims[i].id != claims[j].id)
  }

  function Pay(pool: int, ordered: seq<Claim>): seq<Allocation>
    decreases |ordered|
  {
    if ordered == [] then []
    else
      var recovered := if ordered[0].amount < pool then ordered[0].amount else pool;
      [Allocation(ordered[0].id, recovered, ordered[0].amount - recovered)] + Pay(pool - recovered, ordered[1..])
  }

  function AllocateCreditorWaterfall(pool: int, claims: seq<Claim>): Result<seq<Allocation>> {
    if pool < 0 || !ClaimsAccepted(claims) then Err(ValidationFailed) else Ok(Pay(pool, Sort(Before, claims)))
  }

  method Allocate(pool: int, claims: seq<Claim>) returns (result: Result<seq<Allocation>>)
    ensures result == AllocateCreditorWaterfall(pool, claims)
  {
    if pool < 0 {
      return Err(ValidationFailed);
    }
    var accepted := CheckClaims(claims);
    if !accepted {
      return Err(ValidationFailed);
    }
    var allocations := PayOut(pool, Sort(Before, claims));
    return Ok(allocations);
  }

  method CheckClaims(claims: seq<Claim>) returns (accepted: bool)
    ensures accepted == ClaimsAccepted(claims)
  {
    var seen: set<string> := {};
    for i := 0 to |claims|
      invariant ClaimsAccepted(claims[..i])
      invariant forall id :: id in seen <==> exists k | 0 <= k < i :: claims[k].id == id
    {
      if claims[i].id in seen || !claims[i].Accepted() {
        return false;
      }
      seen := seen + {claims[i].id};
    }
    assert claims[..|claims|] == claims;
    return true;
  }

  /** What the loop has paid and what it has left to pay is the whole waterfall. */
  ghost predicate PaidSoFar(pool: int, ordered: seq<Claim>, allocations: seq<Allocation>, remaining: int, i: nat)
    requires i <= |ordered|
  {
    Pay(pool, ordered) == allocations + Pay(remaining, ordered[i..])
  }

  lemma PayNext(pool: int, ordered: seq<Claim>, allocations: seq<Allocation>, remaining: int, i: nat, recovered: int)
    requires i < |ordered| && PaidSoFar(pool, ordered, allocations, remaining, i)
    requires recovered == if ordered[i].amount < remaining then ordered[i].amount else remaining
    ensures PaidSoFar(pool, ordered, allocations + [Allocation(ordered[i].id, recovered, ordered[i].amount - recovered)],
                      remaining - recovered, i + 1)
  {
    assert ordered[i..][0] == ordered[i] && ordered[i..][1..] == ordered[i + 1..];
    var first := [Allocation(ordered[i].id, recovered, ordered[i].amount - recovered)];
    assert Pay(remaining, ordered[i..]) == first + Pay(remaining - recovered, ordered[i + 1..]);
    ConcatAssociates(allocations, first, Pay(remaining - recovered, ordered[i + 1..]));
  }

  method PayOut(pool: int, ordered: seq<Claim>) returns (allocations: seq<Allocation>)
    ensures allocations == Pay(pool, ordered)
  {
    var remaining := pool;
    allocations := [];
    PayStart(pool, ordered);
    var i := 0;
    while i < |ordered|
      invariant 0 <= i <= |ordered| && PaidSoFar(pool, ordered, allocations, remaining, i)
    {
      var recovered := if ordered[i].amount < remaining then ordered[i].amount else remaining;
      PayNext(pool, ordered, allocations, remaining, i, recovered);
      remaining := remaining - recovered;
      allocations := allocations + [Allocation(ordered[i].id, recovered, ordered[i].amount - recovered)];
      i := i + 1;
    }
    PayEnd(pool, ordered, allocations, remaining);
  }

  lemma PayStart(pool: int, ordered: seq<Claim>)
    ensures PaidSoFar(pool, ordered, [], pool, 0)
  {
    assert ordered[0..] == ordered;
  }

  lemma PayEnd(pool: int, ordered: seq<Claim>, allocations: seq<Allocation>, remaining: int)
    requires PaidSoFar(pool, ordered, allocations, remaining, |ordered|)
    ensures allocations == Pay(pool, ordered)
  {
    assert ordered[|ordered|..] == [];
  }

  /******* Conservation and priority *******/

  function Total(claims: seq<Claim>): int {
    if claims == [] then 0 else claims[0].amount + Total(claims[1..])
  }

  function Recovered(allocations: seq<Allocation>): int {
    if allocations == [] then 0 else allocations[0].recovered + Recovered(allocations[1..])
  }

  ghost predicate Positive(claims: seq<Claim>) {
    forall i | 0 <= i < |claims| :: 0 < claims[i].amount
  }

  /** The recoveries sum to what the pool and the claims allow. */
  lemma {:induction false} PaySum(pool: int, ordered: seq<Claim>)
    requires 0 <= pool && Positive(ordered)
    ensures 0 <= Total(ordered) && Recovered(Pay(pool, ordered)) == Min(pool, Total(ordered))
    decreases |ordered|
  {
    if ordered != [] {
      PaySum(pool - Min(pool, ordered[0].amount), ordered[1..]);
    }
  }

  /** Each claim is matched by one allocation, and none recovers anything while one ahead of it is short. */
  lemma {:induction false} PayFacts(pool: int, ordered: seq<Claim>)
    requires 0 <= pool && Positive(ordered)
    ensures |Pay(pool, ordered)| == |ordered|
    ensures forall i | 0 <= i < |ordered| ::
              var a := Pay(pool, ordered)[i];
              a.claimId == ordered[i].id && 0 <= a.recovered && 0 <= a.writtenOff && a.recovered + a.writtenOff == ordered[i].amount
    ensures forall i, j | 0 <= i < j < |ordered| && 0 < Pay(pool, ordered)[j].recovered :: Pay(pool, ordered)[i].writtenOff == 0
    decreases |ordered|
  {
    if ordered != [] {
      var recovered := if ordered[0].amount < pool then ordered[0].amount else pool;
      PayFacts(pool - recovered, ordered[1..]);
      if pool == recovered {
        NothingLeft(ordered[1..]);
      }
    }
  }

  lemma {:induction false} NothingLeft(ordered: seq<Claim>)
    requires Positive(ordered)
    ensures |Pay(0, ordered)| == |ordered| && forall i | 0 <= i < |ordered| :: Pay(0, ordered)[i].recovered == 0
  {
    if ordered != [] {
      NothingLeft(ordered[1..]);
    }
  }

  lemma OrderIsTotal()
    ensures TotalPreorder(Before)
  {
    forall x: Claim, y: Claim ensures Before(x, y) || Before(y, x) {
      CodeUnitTotal(x.id, y.id);
    }
    forall x: Claim, y: Claim, z: Claim | Before(x, y) && Before(y, z) ensures Before(x, z) {
      if x.seniority == z.seniority && x.registeredTick == z.registeredTick {
        CodeUnitTransitive(x.id, y.id, z.id);
      }
    }
  }

  lemma IdsSeparate(claims: seq<Claim>)
    requires KeysDistinct(IdOf, claims)
    ensures Separates(Before, multiset(claims))
  {
    forall x, y | x in multiset(claims) && y in multiset(claims) && Before(x, y) && Before(y, x) ensures x == y {
      CodeUnitTotal(x.id, y.id);
      var i :| 0 <= i < |claims| && claims[i] == x;
      var j :| 0 <= j < |claims| && claims[j] == y;
      assert IdOf(claims[i]) == IdOf(claims[j]);
    }
  }

  lemma AcceptedIdsDistinct(claims: seq<Claim>)
    ensures ClaimsAccepted(claims) <==> KeysDistinct(IdOf, claims) && forall i | 0 <= i < |claims| :: claims[i].Accepted()
  {
    if KeysDistinct(IdOf, claims) {
      forall i, j | 0 <= i < j < |claims| ensures claims[i].id != claims[j].id {
        assert IdOf(claims[i]) != IdOf(claims[j]);
      }
    }
  }

  lemma {:induction false} TotalForgetsOrder(xs: seq<Claim>, ys: seq<Claim>)
    requires multiset(xs) == multiset(ys)
    ensures Total(xs) == Total(ys)
    decreases |xs|
  {
    assert |multiset(xs)| == |multiset(ys)|;
    if xs != [] {
      assert xs[0] in multiset(ys);
      var i :| 0 <= i < |ys| && ys[i] == xs[0];
      WithoutOne(xs, 0);
      WithoutOne(ys, i);
      TotalForgetsOrder(Without(xs, 0), Without(ys, i));
      assert Without(xs, 0) == xs[1..];
      TotalWithout(ys, i);
    }
  }

  lemma {:induction false} TotalWithout(xs: seq<Claim>, i: nat)
    requires i < |xs|
    ensures Total(xs) == Total(Without(xs, i)) + xs[i].amount
  {
    if i == 0 {
      assert Without(xs, 0) == xs[1..];
    } else {
      TotalWithout(xs[1..], i - 1);
      assert Without(xs, i)[1..] == Without(xs[1..], i - 1);
    }
  }

  /**
   * The claims are paid in seniority order: recoveries sum to what the pool and the claims allow,
   * and a claim recovers something only if every claim ahead of it is paid in full.
   */
  lemma WaterfallIsStrict(pool: int, claims: seq<Claim>)
    requires AllocateCreditorWaterfall(pool, claims).Ok?
    ensures var ordered, paid := Sort(Before, claims), AllocateCreditorWaterfall(pool, claims).value;
            && multiset(ordered) == multiset(claims) && Sorted(Before, ordered)
            && |paid| == |claims| == |ordered|
            && Recovered(paid) == Min(pool, Total(claims))
            && (forall i | 0 <= i < |paid| ::
                  paid[i].claimId == ordered[i].id && 0 <= paid[i].recovered && 0 <= paid[i].writtenOff
                  && paid[i].recovered + paid[i].writtenOff == ordered[i].amount)
            && (forall i, j | 0 <= i < j < |paid| && 0 < paid[j].recovered :: paid[i].writtenOff == 0)
  {
    var ordered := Sort(Before, claims);
    SortPermutes(Before, claims);
    OrderIsTotal();
    SortSorts(Before, claims);
    forall i | 0 <= i < |ordered| ensures 0 < ordered[i].amount {
      assert ordered[i] in multiset(claims);
    }
    PayFacts(pool, ordered);
    PaySum(pool, ordered);
    TotalForgetsOrder(ordered, claims);
  }

  /** What one claim got out of a round. */
  function RecoveredBy(allocations: seq<Allocation>, id: string): int {
    if allocations == [] then 0
    else (if allocations[0].claimId == id then allocations[0].recovered else 0) + RecoveredBy(allocations[1..], id)
  }

  lemma {:induction false} NotAmong(paid: seq<Allocation>, id: string)
    requires forall i | 0 <= i < |paid| :: paid[i].claimId != id
    ensures RecoveredBy(paid, id) == 0
  {
    if paid != [] {
      NotAmong(paid[1..], id);
    }
  }

  lemma {:induction false} RecoveredAt(paid: seq<Allocation>, i: nat)
    requires i < |paid| && forall j, k | 0 <= j < k < |paid| :: paid[j].claimId != paid[k].claimId
    ensures RecoveredBy(paid, paid[i].claimId) == paid[i].recovered
  {
    if i == 0 {
      NotAmong(paid[1..], paid[0].claimId);
    } else {
      RecoveredAt(paid[1..], i - 1);
    }
  }

  /** The place of one claim among the allocations: its recovery is the one recorded there. */
  lemma PlaceOf(pool: int, claims: seq<Claim>, a: Claim) returns (i: nat)
    requires AllocateCreditorWaterfall(pool, claims).Ok? && a in claims
    ensures var ordered, paid := Sort(Before, claims), AllocateCreditorWaterfall(pool, claims).value;
            i < |paid| == |ordered| && ordered[i] == a && RecoveredBy(paid, a.id) == paid[i].recovered
  {
    var ordered, paid := Sort(Before, claims), AllocateCreditorWaterfall(pool, claims).value;
    WaterfallIsStrict(pool, claims);
    AcceptedForgetsOrder(claims, ordered);
    assert a in multiset(ordered);
    i :| 0 <= i < |ordered| && ordered[i] == a;
    RecoveredAt(paid, i);
  }

  /** A lower seniority number goes first, then the earlier registration, then the smaller id. */
  ghost predicate Outranks(a: Claim, b: Claim) {
    || a.seniority < b.seniority
    || (a.seniority == b.seniority && a.registeredTick < b.registeredTick)
    || (a.seniority == b.seniority && a.registeredTick == b.registeredTick && a.id != b.id && Dictionary(a.id, b.id))
  }

  /** Of two claims, the one that outranks the other is paid in full before the other gets a cent. */
  lemma SeniorClaimsComeFirst(pool: int, claims: seq<Claim>, a: Claim, b: Claim)
    requires AllocateCreditorWaterfall(pool, claims).Ok? && a in claims && b in claims && Outranks(a, b)
    ensures var paid := AllocateCreditorWaterfall(pool, claims).value;
            && 0 <= RecoveredBy(paid, b.id) <= b.amount
            && (0 < RecoveredBy(paid, b.id) ==> RecoveredBy(paid, a.id) == a.amount)
  {
    WaterfallIsStrict(pool, claims);
    var i := PlaceOf(pool, claims, a);
    var j := PlaceOf(pool, claims, b);
    CodeUnitsCompareAsADictionary(a.id, b.id);
    CodeUnitTotal(a.id, b.id);
    assert Before(a, b) && !Before(b, a);
  }

  /** The waterfall runs exactly for a pool that is not negative and usable claims with different ids. */
  lemma AllocatesExactlyWhen(pool: int, claims: seq<Claim>)
    ensures AllocateCreditorWaterfall(pool, claims).Ok? <==>
              && 0 <= pool
              && (forall c | c in claims ::
                    1 <= c.seniority < 0x20_0000_0000_0000 && 0 <= c.registeredTick < 0x20_0000_0000_0000 && 1 <= c.amount)
              && (forall i, j | 0 <= i < |claims| && 0 <= j < |claims| && claims[i].id == claims[j].id :: i == j)
  {
    if ClaimsAccepted(claims) {
      forall i, j | 0 <= i < |claims| && 0 <= j < |claims| && i != j ensures claims[i].id != claims[j].id {
        if j < i {
          assert claims[j].id != claims[i].id;
        }
      }
    }
  }

  /** The order in which claims are listed does not matter. */
  lemma WaterfallForgetsOrder(pool: int, xs: seq<Claim>, ys: seq<Claim>)
    requires multiset(xs) == multiset(ys)
    ensures AllocateCreditorWaterfall(pool, xs) == AllocateCreditorWaterfall(pool, ys)
  {
    if ClaimsAccepted(ys) {
      AcceptedForgetsOrder(ys, xs);
    }
    if ClaimsAccepted(xs) {
      AcceptedForgetsOrder(xs, ys);
      AcceptedIdsDistinct(xs);
      OrderIsTotal();
      IdsSeparate(xs);
      SortForgetsOrder(Before, xs, ys);
    }
  }

  lemma AcceptedForgetsOrder(xs: seq<Claim>, ys: seq<Claim>)
    requires multiset(xs) == multiset(ys) && ClaimsAccepted(xs)
    ensures ClaimsAccepted(ys)
  {
    AcceptedIdsDistinct(xs);
    KeysDistinctPermute(IdOf, xs, ys);
    AcceptedIdsDistinct(ys);
    forall i | 0 <= i < |ys| ensures ys[i].Accepted() {
      assert ys[i] in multiset(xs);
    }
  }

  /******* Paying in two rounds *******/

  /** The unpaid remainder after a round: fully paid claims are gone, the others keep their place. */
  function Remainder(pool: int, ordered: seq<Claim>): seq<Claim>
    decreases |ordered|
  {
    if ordered == [] then []
    else
      var recovered := if ordered[0].amount < pool then ordered[0].amount else pool;
      var rest := Remainder(pool - recovered, ordered[1..]);
      if recovered == ordered[0].amount then rest else [ordered[0].(amount := ordered[0].amount - recovered)] + rest
  }

  lemma {:induction false} RemainderFacts(pool: int, ordered: seq<Claim>)
    requires 0 <= pool && KeysDistinct(IdOf, ordered) && Sorted(Before, ordered)
    requires forall i | 0 <= i < |ordered| :: ordered[i].Accepted()
    ensures var rest := Remainder(pool, ordered);
            && KeysDistinct(IdOf, rest) && Sorted(Before, rest)
            && (forall i | 0 <= i < |rest| :: rest[i].Accepted())
            && (forall i | 0 <= i < |rest| :: HasPlace(rest[i], ordered))
    decreases |ordered|
  {
    if ordered != [] {
      var recovered := if ordered[0].amount < pool then ordered[0].amount else pool;
      RemainderFacts(pool - recovered, ordered[1..]);
      var tail := Remainder(pool - recovered, ordered[1..]);
      forall i | 0 <= i < |tail| ensures HasPlace(tail[i], ordered) && AllBehind(ordered[0], tail[i]) {
        LaterPlace(tail[i], ordered);
      }
      if recovered != ordered[0].amount {
        var cut := ordered[0].(amount := ordered[0].amount - recovered);
        assert SamePlace(cut, ordered[0]);
        PutInFront(cut, tail);
      }
    }
  }

  /** The claim is one of these, perhaps with a smaller amount. */
  ghost predicate HasPlace(claim: Claim, ordered: seq<Claim>) {
    exists j :: 0 <= j < |ordered| && SamePlace(claim, ordered[j])
  }

  predicate AllBehind(first: Claim, later: Claim) {
    Before(first, later) && first.id != later.id
  }

  lemma LaterPlace(claim: Claim, ordered: seq<Claim>)
    requires ordered != [] && KeysDistinct(IdOf, ordered) && Sorted(Before, ordered) && HasPlace(claim, ordered[1..])
    ensures HasPlace(claim, ordered) && AllBehind(ordered[0], claim)
  {
    var j :| 0 <= j < |ordered[1..]| && SamePlace(claim, ordered[1..][j]);
    assert SamePlace(claim, ordered[j + 1]);
    assert Before(ordered[0], ordered[j + 1]) && IdOf(ordered[0]) != IdOf(ordered[j + 1]);
  }

  lemma PutInFront(first: Claim, tail: seq<Claim>)
    requires KeysDistinct(IdOf, tail) && Sorted(Before, tail)
    requires forall i | 0 <= i < |tail| :: Before(first, tail[i]) && first.id != tail[i].id
    ensures KeysDistinct(IdOf, [first] + tail) && Sorted(Before, [first] + tail)
  {
  }

  /** Equal in everything but the amount. */
  predicate SamePlace(a: Claim, b: Claim) {
    a.id == b.id && a.seniority == b.seniority && a.registeredTick == b.registeredTick
  }

  /** One claim's share of a round, step by step. */
  lemma PayStep(pool: int, ordered: seq<Claim>, id: string)
    requires ordered != []
    ensures var recovered := if ordered[0].amount < pool then ordered[0].amount else pool;
            RecoveredBy(Pay(pool, ordered), id) ==
            (if ordered[0].id == id then recovered else 0) + RecoveredBy(Pay(pool - recovered, ordered[1..]), id)
  {
  }

  /** A claim the first round cuts is topped up by the second before anyone behind it. */
  lemma CutClaim(first: int, second: int, ordered: seq<Claim>, id: string)
    requires ordered != [] && 0 <= first < ordered[0].amount && 0 <= second
    ensures var more := Min(ordered[0].amount - first, second);
            RecoveredBy(Pay(second, Remainder(first, ordered)), id) ==
            (if ordered[0].id == id then more else 0) + RecoveredBy(Pay(second - more, Remainder(0, ordered[1..])), id)
  {
    var rest := [ordered[0].(amount := ordered[0].amount - first)] + Remainder(0, ordered[1..]);
    assert Remainder(first, ordered) == rest && rest[1..] == Remainder(0, ordered[1..]);
    PayStep(second, rest, id);
  }

  lemma PaidInFull(first: int, ordered: seq<Claim>)
    requires ordered != [] && ordered[0].amount <= first
    ensures Remainder(first, ordered) == Remainder(first - ordered[0].amount, ordered[1..])
  {
  }

  /** What one claim gets in all when the pools are paid one after the other. */
  function InTwoRounds(first: int, second: int, ordered: seq<Claim>, id: string): int {
    RecoveredBy(Pay(first, ordered), id) + RecoveredBy(Pay(second, Remainder(first, ordered)), id)
  }

  lemma TwoRoundsStep(first: int, second: int, ordered: seq<Claim>, id: string)
    requires ordered != [] && 0 <= first && 0 <= second && Positive(ordered)
    ensures var amount := ordered[0].amount;
            var got := Min(first + second, amount);
            InTwoRounds(first, second, ordered, id) == (if ordered[0].id == id then got else 0)
              + (if amount <= first then InTwoRounds(first - amount, second, ordered[1..], id)
                 else InTwoRounds(0, first + second - got, ordered[1..], id))
  {
    PayStep(first, ordered, id);
    if ordered[0].amount <= first {
      PaidInFull(first, ordered);
    } else {
      NothingFromNothing(ordered[1..], id);
      CutClaim(first, second, ordered, id);
    }
  }

  /** One claim's recovery, computed claim by claim. */
  function Share(pool: int, ordered: seq<Claim>, id: string): int
    decreases |ordered|
  {
    if ordered == [] then 0
    else
      var got := Min(pool, ordered[0].amount);
      (if ordered[0].id == id then got else 0) + Share(pool - got, ordered[1..], id)
  }

  lemma {:induction false} ShareIsRecovery(pool: int, ordered: seq<Claim>, id: string)
    ensures RecoveredBy(Pay(pool, ordered), id) == Share(pool, ordered, id)
    decreases |ordered|
  {
    if ordered != [] {
      PayStep(pool, ordered, id);
      ShareIsRecovery(pool - Min(pool, ordered[0].amount), ordered[1..], id);
    }
  }

  lemma {:induction false} TwoRoundsShare(first: int, second: int, ordered: seq<Claim>, id: string)
    requires 0 <= first && 0 <= second && Positive(ordered)
    ensures InTwoRounds(first, second, ordered, id) == Share(first + second, ordered, id)
    decreases |ordered|
  {
    if ordered != [] {
      var amount := ordered[0].amount;
      var got := Min(first + second, amount);
      TwoRoundsStep(first, second, ordered, id);
      if amount <= first {
        TwoRoundsShare(first - amount, second, ordered[1..], id);
      } else {
        TwoRoundsShare(0, first + second - got, ordered[1..], id);
      }
    }
  }

  lemma RoundsAddUp(first: int, second: int, ordered: seq<Claim>, id: string)
    requires 0 <= first && 0 <= second && Positive(ordered)
    ensures InTwoRounds(first, second, ordered, id) == RecoveredBy(Pay(first + second, ordered), id)
  {
    TwoRoundsShare(first, second, ordered, id);
    ShareIsRecovery(first + second, ordered, id);
  }

  lemma {:induction false} NothingFromNothing(ordered: seq<Claim>, id: string)
    requires Positive(ordered)
    ensures RecoveredBy(Pay(0, ordered), id) == 0
  {
    if ordered != [] {
      NothingFromNothing(ordered[1..], id);
    }
  }

  /** Paying one pool and then another on the unpaid remainder gives every claim what one joint pool would have. */
  lemma TwoRoundsEqualOne(first: int, second: int, claims: seq<Claim>, id: string)
    requires 0 <= first && 0 <= second && ClaimsAccepted(claims)
    ensures var rest := Remainder(first, Sort(Before, claims));
            && AllocateCreditorWaterfall(second, rest).Ok?
            && RecoveredBy(AllocateCreditorWaterfall(first, claims).value, id)
                 + RecoveredBy(AllocateCreditorWaterfall(second, rest).value, id)
               == RecoveredBy(AllocateCreditorWaterfall(first + second, claims).value, id)
  {
    var ordered := Sort(Before, claims);
    SortPermutes(Before, claims);
    AcceptedForgetsOrder(claims, ordered);
    AcceptedIdsDistinct(ordered);
    OrderIsTotal();
    SortSorts(Before, claims);
    RemainderFacts(first, ordered);
    var rest := Remainder(first, ordered);
    AcceptedIdsDistinct(rest);
    IdsSeparate(rest);
    SortIdempotent(Before, rest);
    RoundsAddUp(first, second, ordered, id);
  }
}
