/**
 * The rules of a bounded two-party conversation: which messages a speaker is offered,
 * how a provider's answer is matched to that menu, and when the conversation closes.
 */
module ConversationRules {
  import opened Shared
  import opened Money
  import opened Ordering
  import opened Text

  /******* Terms and bounds *******/

  datatype Terms =
    | PurchaseTerms(referenceId: string, quantity: int, unitPriceCents: int)
    | JobTerms(referenceId: string, annualWageCents: int)
    | InvestmentTerms(referenceId: string, amountCents: int, preMoneyValuationCents: int, equityBasisPoints: int)

  datatype Bounds =
    | PurchaseBounds(referenceId: string, minQuantity: int, maxQuantity: int, minUnitPriceCents: int, maxUnitPriceCents: int)
    | JobBounds(referenceId: string, minAnnualWageCents: int, maxAnnualWageCents: int)
    | InvestmentBounds(
        referenceId: string, minAmountCents: int, maxAmountCents: int,
        minPreMoneyValuationCents: int, maxPreMoneyValuationCents: int)

  /** Ownership share of post-money value, in basis points, rounded to nearest. */
  function InvestmentEquityBasisPoints(amountCents: int, preMoneyValuationCents: int): int
    requires 1 <= amountCents && 1 <= preMoneyValuationCents
  {
    var postMoney := preMoneyValuationCents + amountCents;
    (amountCents * 10000 + postMoney / 2) / postMoney
  }

  /** Investment amounts stay within a signed 64-bit column; purchase and job amounts are unbounded text. */
  const MAX_INVESTMENT_CENTS: int := 0x7FFF_FFFF_FFFF_FFFF

  predicate ValidBounds(bounds: Bounds) {
    match bounds
    case PurchaseBounds(_, minQ, maxQ, minP, maxP) => 1 <= minQ <= maxQ <= 1000000 && 1 <= minP <= maxP
    case JobBounds(_, minW, maxW) => 1 <= minW <= maxW
    case InvestmentBounds(_, minA, maxA, minV, maxV) => 
      1 <= minA <= maxA <= MAX_INVESTMENT_CENTS && 1 <= minV <= maxV <= MAX_INVESTMENT_CENTS
  }

  /** The structured-terms schema; a share must round to 1..9999 basis points. */
  predicate ValidTerms(terms: Terms) {
    match terms
    case PurchaseTerms(_, quantity, price) => 1 <= quantity <= 1000000 && 1 <= price
    case JobTerms(_, wage) => 1 <= wage
    case InvestmentTerms(_, amount, preMoney, equity) =>
      && 1 <= amount <= MAX_INVESTMENT_CENTS && 1 <= preMoney <= MAX_INVESTMENT_CENTS && 1 <= equity <= 9999
      && -1 <= equity - InvestmentEquityBasisPoints(amount, preMoney) <= 1
  }

  predicate TermsWithinConversationBounds(bounds: Bounds, terms: Terms) {
    match (bounds, terms)
    case (PurchaseBounds(ref, minQ, maxQ, minP, maxP), PurchaseTerms(ref', quantity, price)) =>
      ref == ref' && minQ <= quantity <= maxQ && minP <= price <= maxP
    case (JobBounds(ref, minW, maxW), JobTerms(ref', wage)) =>
      ref == ref' && minW <= wage <= maxW
    case (InvestmentBounds(ref, minA, maxA, minV, maxV), InvestmentTerms(ref', amount, preMoney, _)) =>
      ref == ref' && minA <= amount <= maxA && minV <= preMoney <= maxV
    case _ => false
  }

  /** Terms are out of bounds when they are of another kind, about another thing, or some amount is too low or too high. */
  lemma OutOfBoundsExactlyWhen(bounds: Bounds, terms: Terms)
    ensures !TermsWithinConversationBounds(bounds, terms) <==>
            match bounds
            case JobBounds(ref, minW, maxW) =>
              terms.PurchaseTerms? || terms.InvestmentTerms? || exists ref', wage ::
                terms == JobTerms(ref', wage) && (ref' != ref || wage < minW || maxW < wage)
            case PurchaseBounds(ref, minQ, maxQ, minP, maxP) =>
              terms.JobTerms? || terms.InvestmentTerms? || exists ref', quantity, price ::
                terms == PurchaseTerms(ref', quantity, price)
                && (ref' != ref || quantity < minQ || maxQ < quantity || price < minP || maxP < price)
            case InvestmentBounds(ref, minA, maxA, minV, maxV) =>
              terms.JobTerms? || terms.PurchaseTerms? || exists ref', amount, preMoney, equity ::
                terms == InvestmentTerms(ref', amount, preMoney, equity)
                && (ref' != ref || amount < minA || maxA < amount || preMoney < minV || maxV < preMoney)
  {
  }

  function Investment(referenceId: string, amount: int, preMoney: int): Terms
    requires 1 <= amount && 1 <= preMoney
  {
    InvestmentTerms(referenceId, amount, preMoney, InvestmentEquityBasisPoints(amount, preMoney))
  }

  /** The low, middle and high terms of the bounds. */
  function RawCandidates(bounds: Bounds): seq<Terms>
    requires ValidBounds(bounds)
  {
    match bounds
    case PurchaseBounds(ref, minQ, maxQ, minP, maxP) =>
      [PurchaseTerms(ref, minQ, minP),
       PurchaseTerms(ref, (minQ + maxQ) / 2, (minP + maxP) / 2),
       PurchaseTerms(ref, maxQ, maxP)]
    case JobBounds(ref, minW, maxW) =>
      [JobTerms(ref, minW), JobTerms(ref, (minW + maxW) / 2), JobTerms(ref, maxW)]
    case InvestmentBounds(ref, minA, maxA, minV, maxV) =>
      [Investment(ref, minA, minV), Investment(ref, (minA + maxA) / 2, (minV + maxV) / 2), Investment(ref, maxA, maxV)]
  }

  /** Canonical text of terms, with keys in order; it decides how candidates are listed. */
  function CanonicalTerms(terms: Terms): string {
    match terms
    case PurchaseTerms(ref, quantity, price) =>
      "{\"kind\":\"purchase\",\"quantity\":" + Cents(quantity) + ",\"referenceId\":\"" + ref +
      "\",\"unitPriceCents\":\"" + Cents(price) + "\"}"
    case JobTerms(ref, wage) =>
      "{\"annualWageCents\":\"" + Cents(wage) + "\",\"kind\":\"job\",\"referenceId\":\"" + ref + "\"}"
    case InvestmentTerms(ref, amount, preMoney, equity) =>
      "{\"amountCents\":\"" + Cents(amount) + "\",\"equityBasisPoints\":" + Cents(equity) +
      ",\"kind\":\"investment\",\"preMoneyValuationCents\":\"" + Cents(preMoney) + "\",\"referenceId\":\"" + ref + "\"}"
  }

  function Cents(n: int): string {
    if n < 0 then "-" + Decimal(-n) else Decimal(n)
  }

  function Distinct<T(==, !new)>(xs: seq<T>): (ys: seq<T>)
    ensures forall x :: x in ys <==> x in xs
  {
    if xs == [] then [] else if xs[0] in xs[1..] then Distinct(xs[1..]) else [xs[0]] + Distinct(xs[1..])
  }

  function ConversationTermCandidates(bounds: Bounds): Result<seq<Terms>> {
    if !ValidBounds(bounds) || exists terms | terms in RawCandidates(bounds) :: !ValidTerms(terms) then
      Err(SchemaInvalid)
    else
      Ok(Sort((a, b) => CodeUnitLe(CanonicalTerms(a), CanonicalTerms(b)), Distinct(RawCandidates(bounds))))
  }

  /** Every listed candidate satisfies the schema and the bounds it was made from. */
  lemma CandidatesWithinBounds(bounds: Bounds, terms: Terms)
    requires ConversationTermCandidates(bounds).Ok?
    requires terms in ConversationTermCandidates(bounds).value
    ensures TermsWithinConversationBounds(bounds, terms) && ValidTerms(terms)
  {
    CandidatesAreRaw(bounds, terms);
    RawCandidatesWithinBounds(bounds, terms);
  }

  lemma CandidatesAreRaw(bounds: Bounds, terms: Terms)
    requires ConversationTermCandidates(bounds).Ok?
    requires terms in ConversationTermCandidates(bounds).value
    ensures terms in RawCandidates(bounds) && ValidTerms(terms)
  {
    var le := (a, b) => CodeUnitLe(CanonicalTerms(a), CanonicalTerms(b));
    SortPermutes(le, Distinct(RawCandidates(bounds)));
    assert terms in multiset(Distinct(RawCandidates(bounds)));
  }

  lemma RawCandidatesWithinBounds(bounds: Bounds, terms: Terms)
    requires ValidBounds(bounds) && terms in RawCandidates(bounds)
    ensures TermsWithinConversationBounds(bounds, terms)
  {
  }

  /** The middle of a range, rounded down. */
  predicate Middle(m: int, lo: int, hi: int) {
    lo + hi - 1 <= 2 * m <= lo + hi
  }

  /** The share of the post-money value in basis points, to the nearest and halves up. */
  predicate NearestShare(equity: int, amountCents: int, preMoneyValuationCents: int) {
    var postMoney := preMoneyValuationCents + amountCents;
    -postMoney < 2 * (equity * postMoney - 10000 * amountCents) <= postMoney
  }

  /** Terms at the lower bounds, at the upper bounds, or in the middle of both ranges. */
  predicate LowMiddleOrHigh(a: int, loA: int, hiA: int, b: int, loB: int, hiB: int) {
    (a == loA && b == loB) || (Middle(a, loA, hiA) && Middle(b, loB, hiB)) || (a == hiA && b == hiB)
  }

  /** The low, middle and high terms of the bounds; an investment's share follows from its amounts. */
  predicate LowMiddleHighTerms(bounds: Bounds, terms: Terms) {
    match (bounds, terms)
    case (PurchaseBounds(ref, minQ, maxQ, minP, maxP), PurchaseTerms(ref', quantity, price)) =>
      ref == ref' && LowMiddleOrHigh(quantity, minQ, maxQ, price, minP, maxP)
    case (JobBounds(ref, minW, maxW), JobTerms(ref', wage)) =>
      ref == ref' && LowMiddleOrHigh(wage, minW, maxW, wage, minW, maxW)
    case (InvestmentBounds(ref, minA, maxA, minV, maxV), InvestmentTerms(ref', amount, preMoney, equity)) =>
      && ref == ref' && LowMiddleOrHigh(amount, minA, maxA, preMoney, minV, maxV)
      && NearestShare(equity, amount, preMoney)
    case _ => false
  }

  /** The listed terms are exactly those. */
  lemma CandidatesAreLowMiddleHigh(bounds: Bounds, terms: Terms)
    requires ConversationTermCandidates(bounds).Ok?
    ensures terms in ConversationTermCandidates(bounds).value <==> LowMiddleHighTerms(bounds, terms)
  {
    ListedAreRaw(bounds, terms);
    if bounds.InvestmentBounds? {
      RawInvestments(bounds, terms);
    } else {
      RawPurchasesAndJobs(bounds, terms);
    }
  }

  lemma ListedAreRaw(bounds: Bounds, terms: Terms)
    requires ConversationTermCandidates(bounds).Ok?
    ensures terms in ConversationTermCandidates(bounds).value <==> terms in RawCandidates(bounds)
  {
    var le := (a, b) => CodeUnitLe(CanonicalTerms(a), CanonicalTerms(b));
    var distinct := Distinct(RawCandidates(bounds));
    SortPermutes(le, distinct);
    assert terms in multiset(Sort(le, distinct)) <==> terms in multiset(distinct);
  }

  lemma RawPurchasesAndJobs(bounds: Bounds, terms: Terms)
    requires ValidBounds(bounds) && !bounds.InvestmentBounds?
    ensures terms in RawCandidates(bounds) <==> LowMiddleHighTerms(bounds, terms)
  {
    var raw := RawCandidates(bounds);
    assert terms in raw <==> terms == raw[0] || terms == raw[1] || terms == raw[2];
  }

  lemma RawInvestments(bounds: Bounds, terms: Terms)
    requires ValidBounds(bounds) && bounds.InvestmentBounds?
    ensures terms in RawCandidates(bounds) <==> LowMiddleHighTerms(bounds, terms)
  {
    var InvestmentBounds(ref, minA, maxA, minV, maxV) := bounds;
    var low, middle, high := Investment(ref, minA, minV), Investment(ref, (minA + maxA) / 2, (minV + maxV) / 2),
                             Investment(ref, maxA, maxV);
    assert RawCandidates(bounds) == [low, middle, high];
    assert terms in [low, middle, high] <==> terms == low || terms == middle || terms == high;
    if terms.InvestmentTerms? {
      MiddleIsHalf(terms.amountCents, minA, maxA);
      MiddleIsHalf(terms.preMoneyValuationCents, minV, maxV);
    }
    InvestmentMatches(ref, minA, minV, terms);
    InvestmentMatches(ref, (minA + maxA) / 2, (minV + maxV) / 2, terms);
    InvestmentMatches(ref, maxA, maxV, terms);
  }

  lemma MiddleIsHalf(m: int, lo: int, hi: int)
    ensures Middle(m, lo, hi) <==> m == (lo + hi) / 2
  {
  }

  lemma InvestmentMatches(referenceId: string, amount: int, preMoney: int, terms: Terms)
    requires 1 <= amount && 1 <= preMoney
    ensures terms == Investment(referenceId, amount, preMoney) <==>
            && terms.InvestmentTerms? && terms.referenceId == referenceId
            && terms.amountCents == amount && terms.preMoneyValuationCents == preMoney
            && NearestShare(terms.equityBasisPoints, amount, preMoney)
  {
    if terms.InvestmentTerms? {
      ShareIsNearest(amount, preMoney, terms.equityBasisPoints);
    }
  }

  lemma ShareIsNearest(amount: int, preMoney: int, equity: int)
    requires 1 <= amount && 1 <= preMoney
    ensures equity == InvestmentEquityBasisPoints(amount, preMoney) <==> NearestShare(equity, amount, preMoney)
  {
    var d := preMoney + amount;
    var n := amount * 10000 + d / 2;
    DivAtLeast(n, d, equity);
    DivAtLeast(n, d, equity + 1);
    assert (equity + 1) * d == equity * d + d;
  }

  lemma ThreeCandidates(bounds: Bounds)
    requires ValidBounds(bounds)
    ensures var raw := RawCandidates(bounds);
            |raw| == 3
            && (ConversationTermCandidates(bounds).Ok? <==> ValidTerms(raw[0]) && ValidTerms(raw[1]) && ValidTerms(raw[2]))
  {
    var raw := RawCandidates(bounds);
    assert raw[0] in raw && raw[1] in raw && raw[2] in raw;
  }

  /**
   * When a menu can be built at all: always for purchases and jobs, and for investments
   * exactly when none of the three candidate shares rounds to nothing or to everything.
   */
  lemma CandidatesExistWhen(bounds: Bounds)
    requires ValidBounds(bounds)
    ensures ConversationTermCandidates(bounds).Ok? <==>
            match bounds
            case InvestmentBounds(_, minA, maxA, minV, maxV) =>
              && ShareInRange(minA, minV)
              && ShareInRange((minA + maxA) / 2, (minV + maxV) / 2)
              && ShareInRange(maxA, maxV)
            case _ => true
  {
    ThreeCandidates(bounds);
    match bounds {
      case InvestmentBounds(ref, minA, maxA, minV, maxV) =>
        InvestmentIsValid(ref, minA, minV);
        InvestmentIsValid(ref, (minA + maxA) / 2, (minV + maxV) / 2);
        InvestmentIsValid(ref, maxA, maxV);
      case _ =>
    }
  }

  /** The stake is at least half a basis point of the post-money value and short of all but half of one. */
  predicate ShareInRange(amountCents: int, preMoneyValuationCents: int) {
    var postMoney := preMoneyValuationCents + amountCents;
    postMoney - postMoney / 2 <= amountCents * 10000 < 10000 * postMoney - postMoney / 2
  }

  lemma InvestmentIsValid(referenceId: string, amount: int, preMoney: int)
    requires 1 <= amount <= MAX_INVESTMENT_CENTS && 1 <= preMoney <= MAX_INVESTMENT_CENTS
    ensures ValidTerms(Investment(referenceId, amount, preMoney)) <==> ShareInRange(amount, preMoney)
  {
    ShareRoundsInRange(amount, preMoney);
  }

  lemma ShareRoundsInRange(amount: int, preMoney: int)
    requires 1 <= amount && 1 <= preMoney
    ensures 1 <= InvestmentEquityBasisPoints(amount, preMoney) <= 9999 <==> ShareInRange(amount, preMoney)
  {
    var d := preMoney + amount;
    var n := amount * 10000 + d / 2;
    DivAtLeast(n, d, 1);
    DivAtLeast(n, d, 10000);
  }

  /** Bounds for a token stake in a valuable company leave the speaker without any menu. */
  lemma TinyStakeHasNoMenu()
    ensures ValidBounds(InvestmentBounds("prop_00000001", 1, 1, 1000000, 1000000))
    ensures ConversationTermCandidates(InvestmentBounds("prop_00000001", 1, 1, 1000000, 1000000)).Err?
  {
    var bounds := InvestmentBounds("prop_00000001", 1, 1, 1000000, 1000000);
    assert RawCandidates(bounds)[0] in RawCandidates(bounds);
    assert !ValidTerms(RawCandidates(bounds)[0]);
  }

  /******* Messages and menus *******/

  datatype MessageKind = OfferKind | CounterKind | AcceptKind | DeclineKind | ClarifyKind

  datatype OutcomeKind = AgreementOutcome | NoAgreementOutcome | EscalateOutcome

  datatype CloseReason =
    | Agreement | Declined | MaxTurns | TokenBudget | NoProgress | ProviderFallback | InvalidProposal

  datatype Message = Message(sender: string, kind: MessageKind, terms: Option<Terms>, outputTokens: int)

  datatype Outcome = Outcome(kind: OutcomeKind, terms: Option<Terms>)

  datatype Conversation = Conversation(
    id: string, participants: (string, string), bounds: Bounds, maxTurns: nat, outputTokenBudget: nat,
    outputTokensUsed: int, turns: nat, closed: Option<(CloseReason, Outcome)>
  )

  datatype ActionId =
    | TermsAction(kind: MessageKind, number: nat)
    | AcceptAction | ClarifyAction | DeclineAction
    | OutcomeAction(outcome: OutcomeKind)
    | OtherAction(text: string)

  datatype Params =
    | MessageParams(conversationId: string, kind: MessageKind, terms: Option<Terms>)
    | OutcomeParams(conversationId: string, outcome: OutcomeKind, terms: Option<Terms>)
    | OtherParams(text: string)

  datatype DecisionOption = DecisionOption(actionId: ActionId, params: Params)

  function NextSpeaker(conversation: Conversation, messages: seq<Message>): string {
    if |messages| % 2 == 0 then conversation.participants.0 else conversation.participants.1
  }

  function NextConversationSpeaker(conversation: Conversation, messages: seq<Message>): Result<string> {
    if conversation.closed.Some? || |messages| != conversation.turns then Err(Conflict)
    else Ok(NextSpeaker(conversation, messages))
  }

  /** The terms last tabled by anyone but `sender`. */
  function TermsFromOther(sender: string, messages: seq<Message>): Option<Terms> {
    if messages == [] then None
    else
      var last := messages[|messages| - 1];
      if last.sender != sender && last.terms.Some? then last.terms
      else TermsFromOther(sender, messages[..|messages| - 1])
  }

  method LastTermsFromOther(sender: string, messages: seq<Message>) returns (terms: Option<Terms>)
    ensures terms == TermsFromOther(sender, messages)
  {
    var index := |messages| - 1;
    assert messages[..index + 1] == messages;
    while 0 <= index
      invariant -1 <= index < |messages|
      invariant TermsFromOther(sender, messages[..index + 1]) == TermsFromOther(sender, messages)
    {
      var message := messages[index];
      assert messages[..index + 1][..index] == messages[..index];
      if message.sender != sender && message.terms.Some? {
        return message.terms;
      }
      index := index - 1;
    }
    return None;
  }

  /** What the latest opposing terms are, without recursion. */
  lemma {:induction false} TermsFromOtherIsLatest(sender: string, messages: seq<Message>)
    ensures match TermsFromOther(sender, messages)
            case None => forall i | 0 <= i < |messages| :: messages[i].sender == sender || messages[i].terms.None?
            case Some(terms) =>
              exists k | 0 <= k < |messages| ::
                && messages[k].sender != sender && messages[k].terms == Some(terms)
                && forall i | k < i < |messages| :: messages[i].sender == sender || messages[i].terms.None?
  {
    if messages != [] {
      var last := |messages| - 1;
      if messages[last].sender == sender || messages[last].terms.None? {
        TermsFromOtherIsLatest(sender, messages[..last]);
      }
    }
  }

  /** The speaker's previous message already tabled exactly these terms. */
  function RepeatsOwnTerms(sender: string, terms: Option<Terms>, messages: seq<Message>): bool {
    if terms.None? || messages == [] then false
    else
      var last := messages[|messages| - 1];
      if last.sender == sender then last.terms == terms
      else RepeatsOwnTerms(sender, terms, messages[..|messages| - 1])
  }

  method ConversationHasNoProgress(sender: string, terms: Option<Terms>, messages: seq<Message>) returns (stuck: bool)
    ensures stuck == RepeatsOwnTerms(sender, terms, messages)
  {
    if terms.None? {
      return false;
    }
    var index := |messages| - 1;
    assert messages[..index + 1] == messages;
    while 0 <= index
      invariant -1 <= index < |messages|
      invariant RepeatsOwnTerms(sender, terms, messages[..index + 1]) == RepeatsOwnTerms(sender, terms, messages)
    {
      assert messages[..index + 1][..index] == messages[..index];
      if messages[index].sender == sender {
        return messages[index].terms == terms;
      }
      index := index - 1;
    }
    return false;
  }

  function TermsOptions(conversationId: string, kind: MessageKind, candidates: seq<Terms>, first: nat): seq<DecisionOption> {
    if candidates == [] then []
    else
      [DecisionOption(TermsAction(kind, first), MessageParams(conversationId, kind, Some(candidates[0])))] +
      TermsOptions(conversationId, kind, candidates[1..], first + 1)
  }

  /** The speaker's menu: bounded terms, the opposing terms to accept if any, clarify and decline. */
  function ConversationMessageOptions(conversation: Conversation, messages: seq<Message>): Result<seq<DecisionOption>> {
    var speaker := NextConversationSpeaker(conversation, messages);
    var candidates := ConversationTermCandidates(conversation.bounds);
    if speaker.Err? then Err(speaker.code)
    else if candidates.Err? then Err(candidates.code)
    else
      var kind := if messages == [] then OfferKind else CounterKind;
      var offered := TermsFromOther(speaker.value, messages);
      var accept := if offered.None? then []
                    else [DecisionOption(AcceptAction, MessageParams(conversation.id, AcceptKind, offered))];
      Ok(TermsOptions(conversation.id, kind, candidates.value, 1) + accept +
         [DecisionOption(ClarifyAction, MessageParams(conversation.id, ClarifyKind, None)),
          DecisionOption(DeclineAction, MessageParams(conversation.id, DeclineKind, None))])
  }

  lemma {:induction false} TermsOptionsMembers(
    conversationId: string, kind: MessageKind, candidates: seq<Terms>, first: nat, option: DecisionOption
  )
    requires option in TermsOptions(conversationId, kind, candidates, first)
    ensures option.params.MessageParams? && option.params.kind == kind && option.params.terms.Some?
    ensures option.params.terms.value in candidates
  {
    var head := DecisionOption(TermsAction(kind, first), MessageParams(conversationId, kind, Some(candidates[0])));
    if option != head {
      TermsOptionsMembers(conversationId, kind, candidates[1..], first + 1, option);
    }
  }

  /** The only terms a menu lets anyone table: bounded candidates, or the opposing terms to accept. */
  lemma MenuIsBounded(conversation: Conversation, messages: seq<Message>, option: DecisionOption)
    requires ConversationMessageOptions(conversation, messages).Ok?
    requires option in ConversationMessageOptions(conversation, messages).value
    ensures option.params.MessageParams?
    ensures match option.params.kind
            case AcceptKind =>
              && option.params.terms.Some?
              && option.params.terms == TermsFromOther(NextSpeaker(conversation, messages), messages)
            case ClarifyKind => option.params.terms.None?
            case DeclineKind => option.params.terms.None?
            case _ => option.params.terms.Some? &&
                      TermsWithinConversationBounds(conversation.bounds, option.params.terms.value)
  {
    var candidates := ConversationTermCandidates(conversation.bounds).value;
    var kind := if messages == [] then OfferKind else CounterKind;
    if option in TermsOptions(conversation.id, kind, candidates, 1) {
      TermsOptionsMembers(conversation.id, kind, candidates, 1, option);
      CandidatesWithinBounds(conversation.bounds, option.params.terms.value);
    }
  }

  lemma {:induction false} TermsOptionsNumber(
    conversationId: string, kind: MessageKind, candidates: seq<Terms>, first: nat, option: DecisionOption
  )
    ensures option in TermsOptions(conversationId, kind, candidates, first) <==>
            exists k | 0 <= k < |candidates| ::
              option == DecisionOption(TermsAction(kind, first + k), MessageParams(conversationId, kind, Some(candidates[k])))
  {
    if candidates != [] {
      var head := DecisionOption(TermsAction(kind, first), MessageParams(conversationId, kind, Some(candidates[0])));
      TermsOptionsNumber(conversationId, kind, candidates[1..], first + 1, option);
      if k :| 0 <= k < |candidates[1..]| &&
              option == DecisionOption(TermsAction(kind, first + 1 + k), MessageParams(conversationId, kind, Some(candidates[1..][k]))) {
        assert candidates[k + 1] == candidates[1..][k] && first + 1 + k == first + (k + 1);
      }
      if k :| 0 < k < |candidates| &&
              option == DecisionOption(TermsAction(kind, first + k), MessageParams(conversationId, kind, Some(candidates[k]))) {
        assert candidates[1..][k - 1] == candidates[k] && first + 1 + (k - 1) == first + k;
      }
      assert candidates[0] == candidates[0 + 0] && first == first + 0;
      assert TermsOptions(conversationId, kind, candidates, first)
             == [head] + TermsOptions(conversationId, kind, candidates[1..], first + 1);
    }
  }

  /**
   * What the rules of a conversation let the speaker say: open with one of the listed terms, or
   * later counter with one, accept the latest terms of the other side if there are any, ask for
   * clarification, or decline.
   */
  ghost predicate Sayable(conversation: Conversation, messages: seq<Message>, option: DecisionOption)
    requires ConversationTermCandidates(conversation.bounds).Ok?
  {
    var candidates := ConversationTermCandidates(conversation.bounds).value;
    && option.params.MessageParams? && option.params.conversationId == conversation.id
    && match option.params.kind
       case OfferKind => messages == [] && OffersCandidate(option, candidates)
       case CounterKind => messages != [] && OffersCandidate(option, candidates)
       case AcceptKind =>
         && option.actionId == AcceptAction && option.params.terms.Some?
         && option.params.terms == TermsFromOther(NextSpeaker(conversation, messages), messages)
       case ClarifyKind => option.actionId == ClarifyAction && option.params.terms == None
       case DeclineKind => option.actionId == DeclineAction && option.params.terms == None
  }

  /** The option tables a candidate under its number in the list. */
  ghost predicate OffersCandidate(option: DecisionOption, candidates: seq<Terms>)
    requires option.params.MessageParams?
  {
    exists k | 0 <= k < |candidates| ::
      option.actionId == TermsAction(option.params.kind, k + 1) && option.params.terms == Some(candidates[k])
  }

  lemma {:induction false} SayingToAccept(conversation: Conversation, messages: seq<Message>, option: DecisionOption)
    requires ConversationTermCandidates(conversation.bounds).Ok?
    ensures var opposing := TermsFromOther(NextSpeaker(conversation, messages), messages);
            && (option.params.MessageParams? && option.params.kind == AcceptKind ==>
                  (Sayable(conversation, messages, option) <==>
                     opposing.Some? && option == DecisionOption(AcceptAction, MessageParams(conversation.id, AcceptKind, opposing))))
            && (Sayable(conversation, messages, option) ==> option.params.MessageParams?)
  {
  }

  lemma {:induction false} ListedOffersCandidates(conversationId: string, kind: MessageKind, candidates: seq<Terms>, option: DecisionOption)
    ensures option in TermsOptions(conversationId, kind, candidates, 1) <==>
            && option.params.MessageParams? && option.params.conversationId == conversationId && option.params.kind == kind
            && OffersCandidate(option, candidates)
  {
    TermsOptionsNumber(conversationId, kind, candidates, 1, option);
    if k :| 0 <= k < |candidates| &&
            option == DecisionOption(TermsAction(kind, 1 + k), MessageParams(conversationId, kind, Some(candidates[k]))) {
      assert option.actionId == TermsAction(kind, k + 1) && option.params.terms == Some(candidates[k]);
    }
    if option.params.MessageParams? && option.params.conversationId == conversationId && option.params.kind == kind
       && OffersCandidate(option, candidates) {
      var k :| 0 <= k < |candidates| && option.actionId == TermsAction(kind, k + 1) && option.params.terms == Some(candidates[k]);
      assert option == DecisionOption(TermsAction(kind, 1 + k), MessageParams(conversationId, kind, Some(candidates[k])));
    }
  }

  lemma {:induction false} MenuParts(conversation: Conversation, messages: seq<Message>, option: DecisionOption)
    requires ConversationMessageOptions(conversation, messages).Ok?
    ensures var opposing := TermsFromOther(NextSpeaker(conversation, messages), messages);
            option in ConversationMessageOptions(conversation, messages).value <==>
              || option in TermsOptions(conversation.id, if messages == [] then OfferKind else CounterKind,
                                        ConversationTermCandidates(conversation.bounds).value, 1)
              || (opposing.Some? && option == DecisionOption(AcceptAction, MessageParams(conversation.id, AcceptKind, opposing)))
              || option == DecisionOption(ClarifyAction, MessageParams(conversation.id, ClarifyKind, None))
              || option == DecisionOption(DeclineAction, MessageParams(conversation.id, DeclineKind, None))
  {
  }

  /** The menu offers exactly that. */
  lemma {:induction false} MenuIsExactly(conversation: Conversation, messages: seq<Message>, option: DecisionOption)
    requires ConversationMessageOptions(conversation, messages).Ok?
    ensures option in ConversationMessageOptions(conversation, messages).value <==> Sayable(conversation, messages, option)
  {
    MenuParts(conversation, messages, option);
    ListedOffersCandidates(conversation.id, if messages == [] then OfferKind else CounterKind,
                           ConversationTermCandidates(conversation.bounds).value, option);
  }

  /******* Matching a proposal to a menu *******/

  /** What a provider returned: anything at all, or a well-formed proposal. */
  datatype RawValue = Unparsable | Proposal(actionId: ActionId, params: Params)

  function Find(actionId: ActionId, params: Params, options: seq<DecisionOption>): Option<DecisionOption> {
    if options == [] then None
    else if options[0] == DecisionOption(actionId, params) then Some(options[0])
    else Find(actionId, params, options[1..])
  }

  lemma {:induction false} FindIsMembership(actionId: ActionId, params: Params, options: seq<DecisionOption>)
    ensures Find(actionId, params, options) ==
            if DecisionOption(actionId, params) in options then Some(DecisionOption(actionId, params)) else None
  {
    if options != [] {
      FindIsMembership(actionId, params, options[1..]);
    }
  }

  datatype Resolved = Resolved(option: DecisionOption, kind: MessageKind, terms: Option<Terms>)

  function ResolveConversationMessageProposal(value: RawValue, options: seq<DecisionOption>): Result<Resolved> {
    match value
    case Unparsable => Err(SchemaInvalid)
    case Proposal(actionId, params) =>
      var option := Find(actionId, params, options);
      if option.None? then Err(PermissionDenied)
      else if !option.value.params.MessageParams? then Err(SchemaInvalid)
      else Ok(Resolved(option.value, option.value.params.kind, option.value.params.terms))
  }

  /** Whatever the provider said, a resolved proposal is one of the offered options. */
  lemma ResolvedIsOffered(value: RawValue, options: seq<DecisionOption>)
    requires ResolveConversationMessageProposal(value, options).Ok?
    ensures var resolved := ResolveConversationMessageProposal(value, options).value;
            && resolved.option in options
            && resolved.option.params.MessageParams?
            && resolved.kind == resolved.option.params.kind && resolved.terms == resolved.option.params.terms
  {
    FindIsMembership(value.actionId, value.params, options);
  }

  /** Exactly what may be said is resolved, and it is resolved to itself. */
  lemma {:induction false} SayableIsResolved(conversation: Conversation, messages: seq<Message>, value: RawValue)
    requires ConversationMessageOptions(conversation, messages).Ok?
    ensures var resolved := ResolveConversationMessageProposal(value, ConversationMessageOptions(conversation, messages).value);
            && (resolved.Ok? <==> value.Proposal? && Sayable(conversation, messages, DecisionOption(value.actionId, value.params)))
            && (resolved.Ok? ==> resolved.value.kind == value.params.kind && resolved.value.terms == value.params.terms)
  {
    if value.Proposal? {
      var option := DecisionOption(value.actionId, value.params);
      FindIsMembership(value.actionId, value.params, ConversationMessageOptions(conversation, messages).value);
      MenuIsExactly(conversation, messages, option);
    }
  }

  /** The speaker's own latest message tabled exactly these terms. */
  ghost predicate SaidBefore(sender: string, terms: Option<Terms>, messages: seq<Message>) {
    terms.Some? && exists k | 0 <= k < |messages| ::
      messages[k].sender == sender && messages[k].terms == terms && forall i | k < i < |messages| :: messages[i].sender != sender
  }

  lemma {:induction false} RepeatingMeansSaidBefore(sender: string, terms: Option<Terms>, messages: seq<Message>)
    ensures RepeatsOwnTerms(sender, terms, messages) <==> SaidBefore(sender, terms, messages)
  {
    if messages != [] {
      var last := |messages| - 1;
      RepeatingMeansSaidBefore(sender, terms, messages[..last]);
      if messages[last].sender != sender && SaidBefore(sender, terms, messages[..last]) {
        var k :| 0 <= k < last && messages[..last][k].sender == sender && messages[..last][k].terms == terms
                 && forall i | k < i < last :: messages[..last][i].sender != sender;
        assert messages[k] == messages[..last][k];
        assert forall i | k < i < last :: messages[i] == messages[..last][i];
      }
      if messages[last].sender != sender && SaidBefore(sender, terms, messages) {
        var k :| 0 <= k < |messages| && messages[k].sender == sender && messages[k].terms == terms
                 && forall i | k < i < |messages| :: messages[i].sender != sender;
        assert messages[..last][k] == messages[k];
      }
    }
  }

  /******* Closing *******/

  datatype ClosePlan = ClosePlan(acceptMessage: bool, closeReason: Option<CloseReason>, acceptedTerms: Option<Terms>)

  function PlanConversationClose(
    conversation: Conversation, messages: seq<Message>, sender: string, proposal: Resolved, outputTokens: int
  ): Result<ClosePlan>
  {
    if !SafeInteger(outputTokens) || outputTokens < 0 then
      Err(SchemaInvalid)
    else if conversation.outputTokenBudget - conversation.outputTokensUsed < outputTokens then
      Ok(ClosePlan(false, Some(TokenBudget), None))
    else if proposal.kind == AcceptKind then
      if TermsFromOther(sender, messages).None? || proposal.terms.None? ||
         TermsFromOther(sender, messages) != proposal.terms then
        Err(PermissionDenied)
      else
        Ok(ClosePlan(true, Some(Agreement), proposal.terms))
    else if proposal.kind == DeclineKind then
      Ok(ClosePlan(true, Some(Declined), None))
    else if RepeatsOwnTerms(sender, proposal.terms, messages) then
      Ok(ClosePlan(true, Some(NoProgress), None))
    else if conversation.maxTurns <= |messages| + 1 then
      Ok(ClosePlan(true, Some(MaxTurns), None))
    else if conversation.outputTokenBudget <= conversation.outputTokensUsed + outputTokens then
      Ok(ClosePlan(true, Some(TokenBudget), None))
    else
      Ok(ClosePlan(true, None, None))
  }

  /** A proposal that accepts, if at all, the opposing terms fails the plan only by a bad token count. */
  lemma PlanFailsOnTokensOnly(
    conversation: Conversation, messages: seq<Message>, sender: string, proposal: Resolved, outputTokens: int
  )
    requires proposal.kind == AcceptKind ==> proposal.terms.Some? && proposal.terms == TermsFromOther(sender, messages)
    ensures var plan := PlanConversationClose(conversation, messages, sender, proposal, outputTokens);
            && (plan.Err? <==> outputTokens < 0 || MAX_SAFE_INTEGER < outputTokens)
            && plan != Err(PermissionDenied)
  {
  }

  /** For a proposal resolved from the current menu, only a bad token count can fail the plan. */
  lemma MenuProposalsNeverFailThePlan(
    conversation: Conversation, messages: seq<Message>, value: RawValue, outputTokens: int
  )
    requires ConversationMessageOptions(conversation, messages).Ok?
    requires ResolveConversationMessageProposal(value, ConversationMessageOptions(conversation, messages).value).Ok?
    ensures
      var resolved := ResolveConversationMessageProposal(value, ConversationMessageOptions(conversation, messages).value).value;
      var plan := PlanConversationClose(conversation, messages, NextSpeaker(conversation, messages), resolved, outputTokens);
      && (plan.Err? <==> outputTokens < 0 || MAX_SAFE_INTEGER < outputTokens)
      && plan != Err(PermissionDenied)
  {
    var options := ConversationMessageOptions(conversation, messages).value;
    var resolved := ResolveConversationMessageProposal(value, options).value;
    ResolvedIsOffered(value, options);
    MenuIsBounded(conversation, messages, resolved.option);
    PlanFailsOnTokensOnly(conversation, messages, NextSpeaker(conversation, messages), resolved, outputTokens);
  }

  /******* Outcomes *******/

  function ConversationOutcomeOptions(
    conversationId: string, closeReason: CloseReason, acceptedTerms: Option<Terms>
  ): seq<DecisionOption>
  {
    if closeReason == Agreement && acceptedTerms.Some? then
      [DecisionOption(OutcomeAction(AgreementOutcome), OutcomeParams(conversationId, AgreementOutcome, acceptedTerms))]
    else
      (if closeReason == MaxTurns || closeReason == NoProgress then
         [DecisionOption(OutcomeAction(EscalateOutcome), OutcomeParams(conversationId, EscalateOutcome, None))]
       else []) +
      [DecisionOption(OutcomeAction(NoAgreementOutcome), OutcomeParams(conversationId, NoAgreementOutcome, None))]
  }

  function ResolveConversationOutcomeProposal(value: RawValue, options: seq<DecisionOption>): Result<Outcome> {
    match value
    case Unparsable => Err(SchemaInvalid)
    case Proposal(actionId, params) =>
      var option := Find(actionId, params, options);
      if option.None? then Err(PermissionDenied)
      else if !option.value.params.OutcomeParams? then Err(SchemaInvalid)
      else Ok(Outcome(option.value.params.outcome, option.value.params.terms))
  }

  function DeterministicConversationOutcome(closeReason: CloseReason, acceptedTerms: Option<Terms>): Outcome {
    if closeReason == Agreement && acceptedTerms.Some? then Outcome(AgreementOutcome, acceptedTerms)
    else Outcome(NoAgreementOutcome, None)
  }

  /** The answer names an outcome that the close reason leaves open, with the terms it must carry. */
  predicate NamesOutcome(
    value: RawValue, conversationId: string, closeReason: CloseReason, acceptedTerms: Option<Terms>, kind: OutcomeKind
  ) {
    && value == Proposal(OutcomeAction(kind), OutcomeParams(conversationId, kind, acceptedTerms))
    && match kind
       case AgreementOutcome => closeReason == Agreement
       case NoAgreementOutcome => closeReason != Agreement
       case EscalateOutcome => closeReason == MaxTurns || closeReason == NoProgress
  }

  /** Exactly such answers are resolved. */
  lemma OutcomesResolveExactly(
    conversationId: string, closeReason: CloseReason, acceptedTerms: Option<Terms>, value: RawValue
  )
    requires closeReason == Agreement <==> acceptedTerms.Some?
    ensures var options := ConversationOutcomeOptions(conversationId, closeReason, acceptedTerms);
            forall kind, terms :: ResolveConversationOutcomeProposal(value, options) == Ok(Outcome(kind, terms)) <==>
              terms == acceptedTerms && NamesOutcome(value, conversationId, closeReason, acceptedTerms, kind)
  {
    var options := ConversationOutcomeOptions(conversationId, closeReason, acceptedTerms);
    if value.Proposal? {
      FindIsMembership(value.actionId, value.params, options);
    }
  }

  /** A resolved outcome never contradicts the close reason, whatever the provider answered. */
  lemma ResolvedOutcomeAgrees(
    conversationId: string, closeReason: CloseReason, acceptedTerms: Option<Terms>, value: RawValue
  )
    requires closeReason == Agreement <==> acceptedTerms.Some?
    requires ResolveConversationOutcomeProposal(value, ConversationOutcomeOptions(conversationId, closeReason, acceptedTerms)).Ok?
    ensures
      var outcome := ResolveConversationOutcomeProposal(value, ConversationOutcomeOptions(conversationId, closeReason, acceptedTerms)).value;
      && (outcome.kind == AgreementOutcome <==> closeReason == Agreement)
      && outcome.terms == acceptedTerms
      && (outcome.kind == EscalateOutcome ==> closeReason == MaxTurns || closeReason == NoProgress)
  {
    FindIsMembership(value.actionId, value.params, ConversationOutcomeOptions(conversationId, closeReason, acceptedTerms));
  }
}
