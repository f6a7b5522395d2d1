/**
 * Daily household settlement: spending is approved category by category, food is bought
 * from an uncooperative local market first, and the rest is settled with the outside world.
 */
module Household {
  import opened Shared
  import opened Money

  /******* Paying from several accounts *******/

  /** One credit leg: the account by position among the household's accounts. */
  datatype Leg = Leg(account: nat, amount: int)

  function LegTotal(legs: seq<Leg>): int {
    if legs == [] then 0 else legs[0].amount + LegTotal(legs[1..])
  }

  /** The credits that pay `remaining`, taking from each account in turn what it has. */
  function PayerLegs(balances: seq<int>, from: nat, remaining: int): seq<Leg>
    requires from <= |balances|
    decreases |balances| - from
  {
    if from == |balances| || remaining == 0 then []
    else
      var contribution := Min(balances[from], remaining);
      if contribution <= 0 then PayerLegs(balances, from + 1, remaining)
      else [Leg(from, contribution)] + PayerLegs(balances, from + 1, remaining - contribution)
  }

  /** What the ledger makes of the legs. */
  function Charged(balances: seq<int>, legs: seq<Leg>): seq<int>
    requires forall i | 0 <= i < |legs| :: legs[i].account < |balances|
    decreases |legs|
  {
    if legs == [] then balances
    else Charged(balances[legs[0].account := balances[legs[0].account] - legs[0].amount], legs[1..])
  }

  function Positive(balances: seq<int>): int {
    if balances == [] then 0 else Max(0, balances[0]) + Positive(balances[1..])
  }

  lemma {:induction false} SumBelowPositive(balances: seq<int>)
    ensures Sum(balances) <= Positive(balances) && 0 <= Positive(balances)
  {
    if balances != [] {
      SumBelowPositive(balances[1..]);
    }
  }

  /** The legs are positive, within their accounts, one per account, and amount to what can be paid. */
  lemma {:induction false} PayerLegsFacts(balances: seq<int>, from: nat, remaining: int)
    requires from <= |balances| && 0 <= remaining
    ensures var legs := PayerLegs(balances, from, remaining);
            && LegTotal(legs) == Min(remaining, Positive(balances[from..]))
            && (forall i | 0 <= i < |legs| ::
                  from <= legs[i].account < |balances| && 0 < legs[i].amount <= balances[legs[i].account])
            && (forall i, j | 0 <= i < j < |legs| :: legs[i].account < legs[j].account)
    decreases |balances| - from
  {
    SumBelowPositive(balances[from..]);
    if from < |balances| && remaining != 0 {
      assert balances[from..][1..] == balances[from + 1..];
      SumBelowPositive(balances[from + 1..]);
      var contribution := Min(balances[from], remaining);
      if contribution <= 0 {
        PayerLegsFacts(balances, from + 1, remaining);
      } else {
        PayerLegsFacts(balances, from + 1, remaining - contribution);
      }
    }
  }

  lemma {:induction false} SumUpdate(xs: seq<int>, i: nat, x: int)
    requires i < |xs|
    ensures Sum(xs[i := x]) == Sum(xs) - xs[i] + x
  {
    if i == 0 {
      assert xs[0 := x][1..] == xs[1..];
    } else {
      assert xs[i := x][1..] == xs[1..][i - 1 := x];
      SumUpdate(xs[1..], i - 1, x);
    }
  }

  /** Every account keeps a balance between zero and what it had, or is left as it was. */
  predicate OnlySpends(before: seq<int>, after: seq<int>) {
    |before| == |after| && forall i | 0 <= i < |before| :: before[i] == after[i] || 0 <= after[i] < before[i]
  }

  lemma {:induction false} ChargedFacts(balances: seq<int>, legs: seq<Leg>)
    requires forall i | 0 <= i < |legs| :: legs[i].account < |balances| && 0 < legs[i].amount <= balances[legs[i].account]
    requires forall i, j | 0 <= i < j < |legs| :: legs[i].account < legs[j].account
    ensures Sum(Charged(balances, legs)) == Sum(balances) - LegTotal(legs)
    ensures OnlySpends(balances, Charged(balances, legs))
    decreases |legs|
  {
    if legs != [] {
      var first := legs[0];
      var next := balances[first.account := balances[first.account] - first.amount];
      SumUpdate(balances, first.account, balances[first.account] - first.amount);
      ChargedFacts(next, legs[1..]);
    }
  }

  /** Paying what the accounts together hold is exact and overdraws none of them. */
  lemma PaymentIsExact(balances: seq<int>, amount: int)
    requires 0 <= amount <= Sum(balances)
    ensures var legs := PayerLegs(balances, 0, amount);
            && LegTotal(legs) == amount
            && (forall i | 0 <= i < |legs| :: legs[i].account < |balances| && 0 < legs[i].amount)
            && Sum(Charged(balances, legs)) == Sum(balances) - amount
            && OnlySpends(balances, Charged(balances, legs))
  {
    PayerLegsFacts(balances, 0, amount);
    assert balances[0..] == balances;
    SumBelowPositive(balances);
    ChargedFacts(balances, PayerLegs(balances, 0, amount));
  }

  /** In general the credits sum to what is asked or, failing that, to all positive balances. */
  lemma LegsSumToWhatIsThere(balances: seq<int>, amount: int)
    requires 0 <= amount
    ensures LegTotal(PayerLegs(balances, 0, amount)) == Min(amount, Positive(balances))
    ensures forall i | 0 <= i < |PayerLegs(balances, 0, amount)| :: PayerLegs(balances, 0, amount)[i].account < |balances|
    ensures OnlySpends(balances, Charged(balances, PayerLegs(balances, 0, amount)))
  {
    PayerLegsFacts(balances, 0, amount);
    assert balances[0..] == balances;
    ChargedFacts(balances, PayerLegs(balances, 0, amount));
  }

  /** An account is drawn on only once every earlier one has been emptied. */
  lemma {:induction false} LegsDrainInOrder(balances: seq<int>, from: nat, remaining: int, k: nat, account: nat)
    requires from <= account < |balances| && 0 <= remaining && k < |PayerLegs(balances, from, remaining)|
    requires account < PayerLegs(balances, from, remaining)[k].account < |balances|
    ensures balances[account] <= 0 || Leg(account, balances[account]) in PayerLegs(balances, from, remaining)
    decreases |balances| - from
  {
    var contribution := Min(balances[from], remaining);
    if account == from {
      assert 0 < contribution ==> Leg(from, contribution) in PayerLegs(balances, from, remaining);
    } else if contribution <= 0 {
      LegsDrainInOrder(balances, from + 1, remaining, k, account);
    } else {
      var rest := PayerLegs(balances, from + 1, remaining - contribution);
      assert PayerLegs(balances, from, remaining) == [Leg(from, contribution)] + rest;
      LegsDrainInOrder(balances, from + 1, remaining - contribution, k - 1, account);
      assert forall leg | leg in rest :: leg in PayerLegs(balances, from, remaining);
    }
  }

  /******* The market, as uncooperative as its rules allow *******/

  datatype Rejection = InvalidBuyer | InactiveOffering | PriceChanged | FundsShort | Stockout

  /** What one call to the market finds: any of this may change between two calls. */
  datatype Finding = Finding(buyerValid: bool, active: bool, priceHolds: bool, inventory: nat)

  /** An offering as quoted, with what placing twice and settling will find. */
  datatype Offer = Offer(price: int, first: Finding, second: Finding, settling: Finding)

  function PostedPriceTotal(price: int, quantity: int): int {
    price * quantity
  }

  function AffordableQuantity(budget: int, price: int): (q: int)
    requires 0 <= budget && 0 < price
    ensures q * price <= budget < (q + 1) * price && 0 <= q
  {
    assert budget == (budget / price) * price + budget % price;
    assert (budget / price + 1) * price == (budget / price) * price + price;
    budget / price
  }

  function PlaceOrder(found: Finding, balances: seq<int>, price: int, quantity: int): Option<Rejection> {
    if !found.buyerValid then Some(InvalidBuyer)
    else if !found.active then Some(InactiveOffering)
    else if !found.priceHolds then Some(PriceChanged)
    else if Sum(balances) < PostedPriceTotal(price, quantity) then Some(FundsShort)
    else if found.inventory < quantity then Some(Stockout)
    else None
  }

  function SettleOrder(found: Finding, balances: seq<int>, price: int, quantity: int): Option<Rejection> {
    if !found.active then Some(InactiveOffering)
    else if !found.priceHolds then Some(PriceChanged)
    else if !found.buyerValid then Some(InvalidBuyer)
    else if Sum(balances) < PostedPriceTotal(price, quantity) then Some(FundsShort)
    else if found.inventory < quantity then Some(Stockout)
    else None
  }

  /******* Buying food locally *******/

  datatype Payment = Payment(total: int, legs: seq<Leg>)

  datatype Purse = Purse(balances: seq<int>, remaining: int, payments: seq<Payment>)

  function Pay(s: Purse, amount: int): Purse
    requires 0 <= amount
  {
    LegsSumToWhatIsThere(s.balances, amount);
    var legs := PayerLegs(s.balances, 0, amount);
    Purse(Charged(s.balances, legs), s.remaining - amount, s.payments + [Payment(amount, legs)])
  }

  function SettlePurchase(offer: Offer, s: Purse, quantity: int): Purse
    requires 0 < offer.price && 0 <= quantity
  {
    if SettleOrder(offer.settling, s.balances, offer.price, quantity).Some? then s
    else
      assert 0 <= offer.price * quantity;
      Pay(s, PostedPriceTotal(offer.price, quantity))
  }

  /** One offering: what the household holds afterwards, and whether it stops shopping. */
  function BuyFrom(offer: Offer, s: Purse): (Purse, bool)
    requires 0 < offer.price && 0 < s.remaining
  {
    var desired := AffordableQuantity(s.remaining, offer.price);
    if desired == 0 then (s, false)
    else
      match PlaceOrder(offer.first, s.balances, offer.price, desired)
      case None => (SettlePurchase(offer, s, desired), false)
      case Some(reason) =>
        if reason != Stockout || offer.first.inventory == 0 then (s, reason == FundsShort || reason == InvalidBuyer)
        else if PlaceOrder(offer.second, s.balances, offer.price, offer.first.inventory).Some? then (s, false)
        else (SettlePurchase(offer, s, offer.first.inventory), false)
  }

  ghost predicate Priced(offers: seq<Offer>) {
    forall i | 0 <= i < |offers| :: 0 < offers[i].price
  }

  function BuyLocally(offers: seq<Offer>, s: Purse): Purse
    requires Priced(offers)
    decreases |offers|
  {
    if offers == [] || s.remaining <= 0 then s
    else
      var (next, stop) := BuyFrom(offers[0], s);
      if stop then next else BuyLocally(offers[1..], next)
  }

  /** Every payment's credits sum to its total, and every credit is positive. */
  ghost predicate Exact(payments: seq<Payment>) {
    forall i | 0 <= i < |payments| ::
      LegTotal(payments[i].legs) == payments[i].total
      && forall j | 0 <= j < |payments[i].legs| :: 0 < payments[i].legs[j].amount
  }

  /** From `s` to `t` money was only spent, payment by payment, and all of it is accounted for. */
  ghost predicate Spends(s: Purse, t: Purse) {
    && 0 <= t.remaining <= s.remaining
    && Sum(t.balances) == Sum(s.balances) - (s.remaining - t.remaining)
    && |t.balances| == |s.balances|
    && (forall i | 0 <= i < |s.balances| ::
          t.balances[i] <= s.balances[i] && (0 <= s.balances[i] ==> 0 <= t.balances[i])
          && (s.balances[i] < 0 ==> t.balances[i] == s.balances[i]))
    && s.payments <= t.payments
    && (Exact(s.payments) ==> Exact(t.payments))
  }

  lemma PaySpends(s: Purse, amount: int)
    requires 0 <= amount <= s.remaining && amount <= Sum(s.balances)
    ensures Spends(s, Pay(s, amount))
  {
    PaymentIsExact(s.balances, amount);
  }

  lemma PurchaseSpends(offer: Offer, s: Purse, quantity: int)
    requires 0 < offer.price && 0 <= quantity <= AffordableQuantity(Max(0, s.remaining), offer.price) && 0 <= s.remaining
    ensures Spends(s, SettlePurchase(offer, s, quantity))
  {
    var most := AffordableQuantity(s.remaining, offer.price);
    assert offer.price * quantity <= most * offer.price by {
      assert 0 <= (most - quantity) * offer.price;
    }
    if SettleOrder(offer.settling, s.balances, offer.price, quantity).None? {
      PaySpends(s, PostedPriceTotal(offer.price, quantity));
    }
  }

  /** Whatever the market does, shopping spends at most what was approved, exactly as paid. */
  lemma {:induction false} ShoppingSpends(offers: seq<Offer>, s: Purse)
    requires Priced(offers) && 0 <= s.remaining
    ensures Spends(s, BuyLocally(offers, s))
    decreases |offers|
  {
    if offers != [] && 0 < s.remaining {
      var desired := AffordableQuantity(s.remaining, offers[0].price);
      var (next, stop) := BuyFrom(offers[0], s);
      PurchaseSpends(offers[0], s, desired);
      if offers[0].first.inventory < desired {
        PurchaseSpends(offers[0], s, offers[0].first.inventory);
      }
      assert Spends(s, next);
      ShoppingSpends(offers[1..], next);
    }
  }

  /******* What a market that does sell can be relied on for *******/

  /** The market would let the household have this quantity at this moment. */
  predicate Sells(found: Finding, balances: seq<int>, price: int, quantity: int) {
    && found.buyerValid && found.active && found.priceHolds
    && price * quantity <= Sum(balances) && quantity <= found.inventory
  }

  /** The largest number of units a budget pays for. */
  predicate Largest(quantity: int, budget: int, price: int) {
    price * quantity <= budget < price * (quantity + 1)
  }

  /** Short of stock, but of nothing else. */
  predicate RunsShort(found: Finding, balances: seq<int>, price: int, quantity: int) {
    && found.buyerValid && found.active && found.priceHolds && price * quantity <= Sum(balances)
    && 0 < found.inventory < quantity
  }

  /** The household may not buy at all, or an active offering at the quoted price costs more than it has. */
  predicate EndsShopping(found: Finding, balances: seq<int>, total: int) {
    !found.buyerValid || (found.active && found.priceHolds && Sum(balances) < total)
  }

  /**
   * What one offering sells: as much as the household can afford if the market lets it both order
   * and settle that much; what was in stock, if only the stock was short and the smaller order
   * goes through; and otherwise nothing. Shopping ends only over the buyer or the funds.
   */
  lemma OfferSells(offer: Offer, s: Purse, desired: int)
    requires 0 < offer.price && 0 < s.remaining && Largest(desired, s.remaining, offer.price)
    ensures var (t, stop) := BuyFrom(offer, s);
            var stock := offer.first.inventory;
            && (if 0 < desired && Sells(offer.first, s.balances, offer.price, desired)
                   && Sells(offer.settling, s.balances, offer.price, desired) then
                  t == Pay(s, offer.price * desired)
                else if RunsShort(offer.first, s.balances, offer.price, desired)
                        && Sells(offer.second, s.balances, offer.price, stock)
                        && Sells(offer.settling, s.balances, offer.price, stock) then
                  t == Pay(s, offer.price * stock)
                else
                  t == s)
            && (stop <==> 0 < desired && EndsShopping(offer.first, s.balances, offer.price * desired))
  {
    LargestIsAffordable(offer.price, s.remaining, desired);
    assert forall q :: PostedPriceTotal(offer.price, q) == offer.price * q;
  }

  lemma LargestIsAffordable(price: int, budget: int, quantity: int)
    requires 0 < price && 0 <= budget && Largest(quantity, budget, price)
    ensures quantity == AffordableQuantity(budget, price) && 0 <= quantity && 0 <= price * quantity
  {
    var q := AffordableQuantity(budget, price);
    if q < quantity {
      MulLe(q + 1, quantity, price);
    }
    if quantity < q {
      MulLe(quantity + 1, q, price);
    }
  }

  /** An offering that sells nothing and does not end the shopping makes no difference. */
  lemma RefusalsAreSkipped(offers: seq<Offer>, s: Purse)
    requires Priced(offers) && offers != [] && 0 < s.remaining && BuyFrom(offers[0], s) == (s, false)
    ensures BuyLocally(offers, s) == BuyLocally(offers[1..], s)
  {
  }

  /** The offering finds the same buyer, price and stock whenever it is asked. */
  predicate Willing(offer: Offer) {
    && 0 < offer.price && offer.first == offer.second == offer.settling
    && offer.first.buyerValid && offer.first.active && offer.first.priceHolds
  }

  /** What a basket of these quantities costs. */
  function Cost(offers: seq<Offer>, bought: seq<nat>): int
    requires |offers| == |bought|
  {
    if offers == [] then 0 else offers[0].price * bought[0] + Cost(offers[1..], bought[1..])
  }

  lemma WillingOfferSells(offer: Offer, s: Purse) returns (quantity: nat)
    requires Willing(offer) && 0 < s.remaining <= Sum(s.balances)
    ensures BuyFrom(offer, s).1 == false
    ensures quantity <= offer.first.inventory && offer.price * quantity <= s.remaining
    ensures quantity == offer.first.inventory || s.remaining < offer.price * (quantity + 1)
    ensures BuyFrom(offer, s).0.remaining == s.remaining - offer.price * quantity
  {
    var desired := AffordableQuantity(s.remaining, offer.price);
    quantity := if desired <= offer.first.inventory then desired else offer.first.inventory;
    MulLe(quantity, desired, offer.price);
    assert offer.price * quantity == quantity * offer.price && offer.price * desired == desired * offer.price;
    assert offer.price * (desired + 1) == (desired + 1) * offer.price;
    OfferSells(offer, s, desired);
  }

  /**
   * In a market where every offering is willing, the household buys until each offering is either
   * sold out or costs more than what is left for the outside world.
   */
  lemma {:induction false} WillingMarketSells(offers: seq<Offer>, s: Purse) returns (bought: seq<nat>)
    requires (forall i | 0 <= i < |offers| :: Willing(offers[i])) && 0 <= s.remaining <= Sum(s.balances)
    ensures |bought| == |offers| && Priced(offers)
    ensures BuyLocally(offers, s).remaining == s.remaining - Cost(offers, bought)
    ensures forall i | 0 <= i < |offers| ::
              && bought[i] <= offers[i].first.inventory
              && (bought[i] == offers[i].first.inventory || BuyLocally(offers, s).remaining < offers[i].price)
    decreases |offers|
  {
    if offers == [] {
      bought := [];
    } else if s.remaining == 0 {
      var rest := WillingMarketSells(offers[1..], s);
      bought := [0] + rest;
      assert bought[1..] == rest && BuyLocally(offers[1..], s) == s;
    } else {
      var offer := offers[0];
      var quantity := WillingOfferSells(offer, s);
      var next := BuyFrom(offer, s).0;
      ShoppingSpends([offer], s);
      assert BuyLocally([offer], s) == next by {
        assert [offer][1..] == [];
      }
      var rest := WillingMarketSells(offers[1..], next);
      ShoppingSpends(offers[1..], next);
      bought := [quantity] + rest;
      assert bought[1..] == rest;
      assert offer.price * (quantity + 1) == offer.price * quantity + offer.price;
    }
  }

  /******* Approving and settling all categories *******/

  datatype Category = Food | Utilities | Rent | Discretionary

  datatype Request = Request(category: Category, requested: int, essential: bool)

  /** A utility bill is approved entirely or not at all, anything else as far as funds go. */
  function Granted(available: int, request: Request): int {
    if request.category == Utilities && available < request.requested then 0
    else if request.requested <= available then request.requested
    else Max(0, available)
  }

  /** Approves in order of priority. */
  function AllocateHouseholdSpending(available: int, requests: seq<Request>): (approved: seq<int>)
    ensures |approved| == |requests|
    decreases |requests|
  {
    if requests == [] then []
    else
      var granted := Granted(available, requests[0]);
      [granted] + AllocateHouseholdSpending(available - granted, requests[1..])
  }

  lemma AllocateNext(approved: seq<int>, remaining: int, requests: seq<Request>, i: nat)
    requires i < |requests|
    ensures var granted := Granted(remaining, requests[i]);
            approved + AllocateHouseholdSpending(remaining, requests[i..]) ==
            approved + [granted] + AllocateHouseholdSpending(remaining - granted, requests[i + 1..])
  {
    var granted := Granted(remaining, requests[i]);
    assert requests[i..][0] == requests[i] && requests[i..][1..] == requests[i + 1..];
    ConcatAssociates(approved, [granted], AllocateHouseholdSpending(remaining - granted, requests[i + 1..]));
  }

  method AllocateSpending(available: int, requests: seq<Request>) returns (approved: seq<int>)
    ensures approved == AllocateHouseholdSpending(available, requests)
  {
    var remaining := available;
    approved := [];
    assert requests[0..] == requests;
    for i := 0 to |requests|
      invariant AllocateHouseholdSpending(available, requests) == approved + AllocateHouseholdSpending(remaining, requests[i..])
    {
      AllocateNext(approved, remaining, requests, i);
      var granted := if requests[i].category == Utilities && remaining < requests[i].requested then 0
                     else if requests[i].requested <= remaining then requests[i].requested
                     else if remaining < 0 then 0
                     else remaining;
      remaining := remaining - granted;
      approved := approved + [granted];
    }
    assert requests[|requests|..] == [];
  }

  /** Approvals never exceed a request or, together, the available funds; utilities are all or nothing. */
  lemma {:induction false} ApprovalsFit(available: int, requests: seq<Request>)
    requires forall i | 0 <= i < |requests| :: 0 <= requests[i].requested
    ensures var approved := AllocateHouseholdSpending(available, requests);
            && Sum(approved) <= Max(0, available)
            && forall i | 0 <= i < |requests| ::
                 && 0 <= approved[i] <= requests[i].requested
                 && (requests[i].category == Utilities ==> approved[i] == 0 || approved[i] == requests[i].requested)
    decreases |requests|
  {
    if requests != [] {
      ApprovalsFit(available - AllocateHouseholdSpending(available, requests)[0], requests[1..]);
    }
  }

  /** A category is cut only when the earlier ones left too little, and then to what they left; utilities to nothing. */
  lemma {:induction false} CutsAreForced(available: int, requests: seq<Request>, i: nat)
    requires i < |requests|
    ensures var approved := AllocateHouseholdSpending(available, requests);
            var left := available - Sum(approved[..i]);
            if requests[i].requested <= left then approved[i] == requests[i].requested
            else approved[i] == if requests[i].category == Utilities then 0 else Max(0, left)
    decreases i
  {
    var approved := AllocateHouseholdSpending(available, requests);
    if i != 0 {
      CutsAreForced(available - approved[0], requests[1..], i - 1);
      assert approved[..i][1..] == approved[1..][..i - 1];
    }
  }

  /** What one category came to. */
  datatype Receipt = Receipt(category: Category, local: int, row: int, billPaid: bool, stressed: bool)

  datatype Settlement = Settlement(balances: seq<int>, payments: seq<Payment>, receipts: seq<Receipt>)

  function SettleCategory(s: Settlement, request: Request, approved: int, offers: seq<Offer>, energy: bool): Settlement
    requires Priced(offers) && 0 <= request.requested
  {
    if request.category == Utilities && energy then
      if Sum(s.balances) < request.requested then
        s.(receipts := s.receipts + [Receipt(Utilities, 0, 0, false, true)])
      else
        var paid := Pay(Purse(s.balances, request.requested, s.payments), request.requested);
        Settlement(paid.balances, paid.payments, s.receipts + [Receipt(Utilities, request.requested, 0, true, false)])
    else
      var stressed := request.essential && approved < request.requested;
      if 0 < approved then
        var start := Purse(s.balances, approved, s.payments);
        var local := if request.category == Food then BuyLocally(offers, start) else start;
        var row := local.remaining;
        var done := if 0 < row then Pay(local, row) else local;
        Settlement(done.balances, done.payments, s.receipts + [Receipt(request.category, approved - row, row, false, stressed)])
      else
        s.(receipts := s.receipts + [Receipt(request.category, 0, 0, false, stressed)])
  }

  function SettleAll(s: Settlement, requests: seq<Request>, approved: seq<int>, offers: seq<Offer>, energy: bool): Settlement
    requires Priced(offers) && |requests| == |approved| && forall i | 0 <= i < |requests| :: 0 <= requests[i].requested
    decreases |requests|
  {
    if requests == [] then s
    else SettleAll(SettleCategory(s, requests[0], approved[0], offers, energy), requests[1..], approved[1..], offers, energy)
  }

  class HouseholdAccounts {
    var balances: seq<int>
    var payments: seq<Payment>

    constructor (balances: seq<int>)
      ensures this.balances == balances && payments == []
    {
      this.balances, this.payments := balances, [];
    }

    method CollectLegs(amount: int) returns (legs: seq<Leg>)
      ensures legs == PayerLegs(balances, 0, amount)
    {
      var remaining := amount;
      legs := [];
      for i := 0 to |balances|
        invariant PayerLegs(balances, 0, amount) == legs + PayerLegs(balances, i, remaining)
      {
        if remaining == 0 {
          return;
        }
        var contribution := if balances[i] < remaining then balances[i] else remaining;
        if contribution <= 0 {
          continue;
        }
        legs := legs + [Leg(i, contribution)];
        remaining := remaining - contribution;
      }
    }

    /** Charges an amount to the household's accounts and posts it. */
    method PostPayment(amount: int)
      requires 0 <= amount
      modifies this
      ensures var paid := Pay(Purse(old(balances), amount, old(payments)), amount);
              balances == paid.balances && payments == paid.payments
    {
      LegsSumToWhatIsThere(balances, amount);
      var legs := CollectLegs(amount);
      payments := payments + [Payment(amount, legs)];
      var i := 0;
      ghost var before := balances;
      assert legs[0..] == legs;
      while i < |legs|
        invariant 0 <= i <= |legs| && |balances| == |before|
        invariant payments == old(payments) + [Payment(amount, legs)]
        invariant forall k | 0 <= k < |legs| :: legs[k].account < |before|
        invariant Charged(before, legs) == Charged(balances, legs[i..])
      {
        assert legs[i..][0] == legs[i] && legs[i..][1..] == legs[i + 1..];
        balances := balances[legs[i].account := balances[legs[i].account] - legs[i].amount];
        i := i + 1;
      }
    }

    /** Shops through the offerings until the budget is used up or the household cannot buy. */
    method SettleLocalFoodPurchases(offers: seq<Offer>, approved: int) returns (remaining: int)
      requires Priced(offers)
      modifies this
      ensures Purse(balances, remaining, payments) == BuyLocally(offers, Purse(old(balances), approved, old(payments)))
    {
      remaining := approved;
      var i := 0;
      assert offers[0..] == offers;
      while i < |offers|
        invariant 0 <= i <= |offers|
        invariant BuyLocally(offers, Purse(old(balances), approved, old(payments)))
                  == BuyLocally(offers[i..], Purse(balances, remaining, payments))
      {
        if remaining <= 0 {
          break;
        }
        var offer := offers[i];
        assert offers[i..][0] == offer && offers[i..][1..] == offers[i + 1..];
        i := i + 1;
        var quantity: int := AffordableQuantity(remaining, offer.price);
        if quantity == 0 {
          continue;
        }
        var rejection := PlaceOrder(offer.first, balances, offer.price, quantity);
        if rejection.Some? {
          if rejection.value != Stockout || offer.first.inventory == 0 {
            if rejection.value == FundsShort || rejection.value == InvalidBuyer {
              break;
            }
            continue;
          }
          quantity := offer.first.inventory;
          rejection := PlaceOrder(offer.second, balances, offer.price, quantity);
          if rejection.Some? {
            continue;
          }
        }
        rejection := SettleOrder(offer.settling, balances, offer.price, quantity);
        if rejection.Some? {
          continue;
        }
        var total := PostedPriceTotal(offer.price, quantity);
        assert 0 <= total;
        PostPayment(total);
        remaining := remaining - total;
      }
    }

    /** One household's day. `energy` says whether utility bills go through the energy system. */
    method RunHouseholdSettlement(requests: seq<Request>, offers: seq<Offer>, energy: bool) returns (receipts: seq<Receipt>)
      requires Priced(offers) && forall i | 0 <= i < |requests| :: 0 <= requests[i].requested
      modifies this
      ensures Settlement(balances, payments, receipts) ==
              SettleAll(Settlement(old(balances), old(payments), []), requests,
                        AllocateHouseholdSpending(Sum(old(balances)), requests), offers, energy)
    {
      var approved := AllocateSpending(Sum(balances), requests);
      receipts := [];
      assert requests[0..] == requests && approved[0..] == approved;
      for i := 0 to |requests|
        invariant |approved| == |requests|
        invariant SettleAll(Settlement(old(balances), old(payments), []), requests, approved, offers, energy)
                  == SettleAll(Settlement(balances, payments, receipts), requests[i..], approved[i..], offers, energy)
      {
        assert requests[i..][0] == requests[i] && requests[i..][1..] == requests[i + 1..];
        assert approved[i..][0] == approved[i] && approved[i..][1..] == approved[i + 1..];
        var receipt := SettleOneCategory(requests[i], approved[i], offers, energy, receipts);
        receipts := receipts + [receipt];
      }
    }

    method SettleOneCategory(request: Request, approved: int, offers: seq<Offer>, energy: bool, ghost earlier: seq<Receipt>)
      returns (receipt: Receipt)
      requires Priced(offers) && 0 <= request.requested
      modifies this
      ensures Settlement(balances, payments, earlier + [receipt]) ==
              SettleCategory(Settlement(old(balances), old(payments), earlier), request, approved, offers, energy)
    {
      if request.category == Utilities && energy {
        if Sum(balances) < request.requested {
          return Receipt(Utilities, 0, 0, false, true);
        }
        PostPayment(request.requested);
        return Receipt(Utilities, request.requested, 0, true, false);
      }
      var stressed := request.essential && approved < request.requested;
      if approved <= 0 {
        return Receipt(request.category, 0, 0, false, stressed);
      }
      var row := approved;
      if request.category == Food {
        row := SettleLocalFoodPurchases(offers, approved);
      }
      receipt := Receipt(request.category, approved - row, row, false, stressed);
      if 0 < row {
        PostPayment(row);
      }
    }
  }

  /******* The day is settled exactly *******/

  /** Between the two states money was only spent, `amount` in all. */
  ghost predicate SpendsAmount(s: Settlement, t: Settlement, amount: int) {
    Spends(Purse(s.balances, amount, s.payments), Purse(t.balances, 0, t.payments))
  }

  lemma CategoryIsExact(s: Settlement, request: Request, offers: seq<Offer>, energy: bool)
    requires Priced(offers) && 0 <= request.requested
    ensures var approved := Granted(Sum(s.balances), request);
            var t := SettleCategory(s, request, approved, offers, energy);
            && SpendsAmount(s, t, approved)
            && Sum(t.balances) == Sum(s.balances) - approved
            && |t.receipts| == |s.receipts| + 1 && s.receipts <= t.receipts
            && var receipt := t.receipts[|s.receipts|];
               && receipt.local + receipt.row == approved && 0 <= receipt.local && 0 <= receipt.row
               && receipt.category == request.category
               && (receipt.billPaid <==> request.category == Utilities && energy && request.requested <= Sum(s.balances))
               && (receipt.stressed <==>
                     if request.category == Utilities && energy then !receipt.billPaid
                     else request.essential && approved < request.requested)
               && (request.category == Food ==> receipt.row == BuyLocally(offers, Purse(s.balances, approved, s.payments)).remaining)
               && (request.category != Food && !receipt.billPaid ==> receipt.local == 0)
  {
    var approved := Granted(Sum(s.balances), request);
    var start := Purse(s.balances, approved, s.payments);
    if request.category == Utilities && energy {
      if request.requested <= Sum(s.balances) {
        PaySpends(start, approved);
      }
    } else if 0 < approved {
      var local := if request.category == Food then BuyLocally(offers, start) else start;
      ShoppingSpends(offers, start);
      if 0 < local.remaining {
        PaySpends(local, local.remaining);
      }
    }
  }

  lemma SpendingAddsUp(s: Settlement, m: Settlement, t: Settlement, first: int, rest: int)
    requires SpendsAmount(s, m, first) && SpendsAmount(m, t, rest)
    ensures SpendsAmount(s, t, first + rest)
  {
  }

  /** The receipts after the first `from` say, category by category, how the approved amounts were spent. */
  ghost predicate Accounts(receipts: seq<Receipt>, from: nat, approved: seq<int>) {
    && |receipts| == from + |approved|
    && forall i | from <= i < |receipts| ::
         receipts[i].local + receipts[i].row == approved[i - from] && 0 <= receipts[i].local && 0 <= receipts[i].row
  }

  lemma AccountsAddUp(early: seq<Receipt>, receipts: seq<Receipt>, from: nat, approved: seq<int>)
    requires approved != [] && Accounts(early, from, approved[..1])
    requires early <= receipts && Accounts(receipts, from + 1, approved[1..])
    ensures Accounts(receipts, from, approved)
  {
    assert receipts[from] == early[from];
    forall i | from <= i < |receipts|
      ensures receipts[i].local + receipts[i].row == approved[i - from] && 0 <= receipts[i].local && 0 <= receipts[i].row
    {
      if from < i {
        assert approved[1..][i - from - 1] == approved[i - from];
      }
    }
  }

  /** The first category settled exactly leaves the funds the allocation reckoned with. */
  lemma FirstCategory(s: Settlement, requests: seq<Request>, offers: seq<Offer>, energy: bool)
    requires Priced(offers) && requests != [] && 0 <= requests[0].requested
    ensures var approved := AllocateHouseholdSpending(Sum(s.balances), requests);
            var next := SettleCategory(s, requests[0], approved[0], offers, energy);
            && SpendsAmount(s, next, approved[0])
            && s.receipts <= next.receipts
            && Accounts(next.receipts, |s.receipts|, approved[..1])
            && AllocateHouseholdSpending(Sum(next.balances), requests[1..]) == approved[1..]
  {
    FirstApproval(Sum(s.balances), requests);
    CategoryIsExact(s, requests[0], offers, energy);
  }

  lemma FirstApproval(available: int, requests: seq<Request>)
    requires requests != []
    ensures var approved := AllocateHouseholdSpending(available, requests);
            approved[0] == Granted(available, requests[0]) && approved[..1] == [approved[0]]
            && approved[1..] == AllocateHouseholdSpending(available - approved[0], requests[1..])
  {
  }

  /**
   * Whatever the market does, every category is settled for exactly what was approved, so each
   * later category is still fully funded; the day costs the sum of the approvals, every posted
   * payment is exact, and no account that was not overdrawn becomes overdrawn.
   */
  lemma {:induction false} HouseholdSettlementIsExact(
    s: Settlement, requests: seq<Request>, offers: seq<Offer>, energy: bool
  )
    requires Priced(offers) && forall i | 0 <= i < |requests| :: 0 <= requests[i].requested
    ensures var approved := AllocateHouseholdSpending(Sum(s.balances), requests);
            var t := SettleAll(s, requests, approved, offers, energy);
            && SpendsAmount(s, t, Sum(approved))
            && s.receipts <= t.receipts
            && Accounts(t.receipts, |s.receipts|, approved)
    decreases |requests|
  {
    if requests != [] {
      var approved := AllocateHouseholdSpending(Sum(s.balances), requests);
      FirstCategory(s, requests, offers, energy);
      var next := SettleCategory(s, requests[0], approved[0], offers, energy);
      HouseholdSettlementIsExact(next, requests[1..], offers, energy);
      var t := SettleAll(next, requests[1..], approved[1..], offers, energy);
      assert t == SettleAll(s, requests, approved, offers, energy);
      SpendingAddsUp(s, next, t, approved[0], Sum(approved[1..]));
      AccountsAddUp(next.receipts, t.receipts, |s.receipts|, approved);
      assert Sum(approved) == approved[0] + Sum(approved[1..]);
    }
  }
}
