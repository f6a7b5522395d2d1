/**
 * Driving bounded conversations: one turn is prepared with whatever a provider answers and
 * then applied to the store. The provider is an adversary; safety comes from the rules.
 */
module ConversationPhase {
  import opened Shared
  import opened ConversationRules

  /** One stored conversation with its messages. */
  datatype State = State(conversation: Conversation, messages: seq<Message>)

  /**
   * What one provider call came back with; any failure, thrown or typed, is a fallback.
   * `evidenceFits` says whether what it reports besides the output tokens (model name, input
   * tokens, attempts, latency, cost) fits the record that every call leaves behind.
   */
  datatype ProviderResult =
    | Fallback(evidenceFits: bool)
    | Success(value: RawValue, outputTokens: int, evidenceFits: bool)

  /** The schema of call records takes the answer, whatever became of it. */
  predicate Recordable(result: ProviderResult) {
    result.evidenceFits && (result.Success? ==> 0 <= result.outputTokens && SafeInteger(result.outputTokens))
  }

  /** What a provider answers to the message call and, when asked, to the outcome call. */
  datatype Provider = Provider(message: ProviderResult, outcome: ProviderResult)

  datatype Opportunity = Opportunity(state: State, speaker: string, options: seq<DecisionOption>)

  /** `resolution` is absent when the answer was a fallback, over budget or not in the menu. */
  datatype OutcomeCall = OutcomeCall(result: ProviderResult, resolution: Option<Outcome>)

  /** `rejected` marks an answer that failed validation, even if it was matched to the menu before. */
  datatype PreparedTurn = PreparedTurn(
    opportunity: Opportunity, messageCall: Option<ProviderResult>, resolution: Option<Resolved>, rejected: bool,
    plan: ClosePlan, outcomeCall: Option<OutcomeCall>)

  /******* Preparing a turn *******/

  /** The outcome call of a closing turn; a token allowance that is no exact number is refused. */
  function PrepareOutcomeCall(
    conversationId: string, plan: ClosePlan, remainingTokens: int, result: ProviderResult
  ): Result<Option<OutcomeCall>>
  {
    if plan.closeReason.None? || remainingTokens < 1 then Ok(None)
    else if !SafeInteger(remainingTokens) then Err(LimitExceeded)
    else
      var options := ConversationOutcomeOptions(conversationId, plan.closeReason.value, plan.acceptedTerms);
      var resolution :=
        if result.Fallback? || remainingTokens < result.outputTokens then None
        else match ResolveConversationOutcomeProposal(result.value, options)
             case Ok(outcome) => Some(outcome)
             case Err(_) => None;
      Ok(Some(OutcomeCall(result, resolution)))
  }

  const FAIL_CLOSED := ClosePlan(true, Some(InvalidProposal), None)

  function Remaining(conversation: Conversation): int {
    conversation.outputTokenBudget - conversation.outputTokensUsed
  }

  /** Asks for a message and, if it closes the conversation, for an outcome. */
  function PrepareTurn(opportunity: Opportunity, provider: Option<Provider>): Result<PreparedTurn> {
    var State(conversation, messages) := opportunity.state;
    if provider.None? then
      Ok(PreparedTurn(opportunity, None, None, false, ClosePlan(true, Some(ProviderFallback), None), None))
    else if Remaining(conversation) < 1 then
      Ok(PreparedTurn(opportunity, None, None, false, ClosePlan(false, Some(TokenBudget), None), None))
    else
      var call := provider.value.message;
      match call
      case Fallback(_) =>
        Ok(PreparedTurn(opportunity, Some(call), None, false, ClosePlan(true, Some(ProviderFallback), None), None))
      case Success(value, outputTokens, _) =>
        var resolved := ResolveConversationMessageProposal(value, opportunity.options);
        if resolved.Err? then
          Ok(PreparedTurn(opportunity, Some(call), None, true, FAIL_CLOSED, None))
        else
          // A plan that throws is replaced, but the resolution it was made for stays.
          var planned := PlanConversationClose(conversation, messages, opportunity.speaker, resolved.value, outputTokens);
          var plan := if planned.Ok? then planned.value else FAIL_CLOSED;
          var outcomeCall :=
            if plan.acceptMessage then
              PrepareOutcomeCall(conversation.id, plan, Remaining(conversation) - outputTokens, provider.value.outcome)
            else Ok(None);
          match outcomeCall
          case Err(code) => Err(code)
          case Ok(asked) =>
            Ok(PreparedTurn(opportunity, Some(call), Some(resolved.value), planned.Err?, plan, asked))
  }

  /******* The conversation store *******/

  function Append(state: State, sender: string, kind: MessageKind, terms: Option<Terms>, outputTokens: int): Result<State> {
    var State(conversation, messages) := state;
    var expected := NextConversationSpeaker(conversation, messages);
    if expected.Err? then Err(expected.code)
    else if sender != expected.value then Err(PermissionDenied)
    else if !SafeInteger(outputTokens) || outputTokens < 0 then Err(ValidationFailed)
    else if conversation.maxTurns <= conversation.turns ||
            conversation.outputTokenBudget < conversation.outputTokensUsed + outputTokens then Err(LimitExceeded)
    else if terms.Some? && !TermsWithinConversationBounds(conversation.bounds, terms.value) then Err(PermissionDenied)
    else if terms.Some? != (kind == OfferKind || kind == CounterKind || kind == AcceptKind) then Err(SchemaInvalid)
    else
      Ok(State(conversation.(turns := conversation.turns + 1,
                             outputTokensUsed := conversation.outputTokensUsed + outputTokens),
               messages + [Message(sender, kind, terms, outputTokens)]))
  }

  function Conclude(state: State, reason: CloseReason, outcome: Outcome, outputTokens: int): Result<State> {
    var conversation := state.conversation;
    if conversation.closed.Some? then Err(Conflict)
    else if outcome.terms.Some? != (outcome.kind == AgreementOutcome) then Err(SchemaInvalid)
    else if !SafeInteger(outputTokens) || outputTokens < 0 then Err(ValidationFailed)
    else if conversation.outputTokenBudget < conversation.outputTokensUsed + outputTokens then Err(LimitExceeded)
    else if (reason == Agreement) != (outcome.kind == AgreementOutcome) ||
            (outcome.kind == EscalateOutcome && reason != MaxTurns && reason != NoProgress) then Err(ValidationFailed)
    else if outcome.terms.Some? && !TermsWithinConversationBounds(conversation.bounds, outcome.terms.value) then
      Err(PermissionDenied)
    else
      Ok(state.(conversation := conversation.(closed := Some((reason, outcome)),
                                              outputTokensUsed := conversation.outputTokensUsed + outputTokens)))
  }

  predicate Tokens(n: int) {
    0 <= n < 0x20_0000_0000_0000
  }

  /**
   * The store takes a message exactly from the participant whose turn it is, while the
   * conversation is open and has turns and tokens left, with terms that are within bounds and
   * there exactly for the kinds of message that table or accept terms.
   */
  lemma AppendsExactlyWhen(state: State, sender: string, kind: MessageKind, terms: Option<Terms>, outputTokens: int)
    ensures var State(conversation, messages) := state;
            && (Append(state, sender, kind, terms, outputTokens).Ok? <==>
                  && conversation.closed.None? && conversation.turns == |messages| < conversation.maxTurns
                  && sender == (if |messages| % 2 == 0 then conversation.participants.0 else conversation.participants.1)
                  && Tokens(outputTokens) && outputTokens <= conversation.outputTokenBudget - conversation.outputTokensUsed
                  && (terms.Some? <==> kind in {OfferKind, CounterKind, AcceptKind})
                  && (terms.Some? ==> TermsWithinConversationBounds(conversation.bounds, terms.value)))
            && (Append(state, sender, kind, terms, outputTokens).Ok? ==>
                  var after := Append(state, sender, kind, terms, outputTokens).value;
                  && after.messages == messages + [Message(sender, kind, terms, outputTokens)]
                  && after.conversation == conversation.(turns := |messages| + 1,
                                                         outputTokensUsed := conversation.outputTokensUsed + outputTokens))
  {
  }

  /**
   * The store closes an open conversation exactly with an outcome that goes with its reason:
   * agreement on terms within bounds for an agreement, escalation only for want of turns or
   * progress, at a cost that is left.
   */
  lemma ConcludesExactlyWhen(state: State, reason: CloseReason, outcome: Outcome, outputTokens: int)
    ensures var conversation := state.conversation;
            && (Conclude(state, reason, outcome, outputTokens).Ok? <==>
                  && conversation.closed.None?
                  && Tokens(outputTokens) && outputTokens <= conversation.outputTokenBudget - conversation.outputTokensUsed
                  && match outcome.kind
                     case AgreementOutcome =>
                       reason == Agreement && outcome.terms.Some?
                       && TermsWithinConversationBounds(conversation.bounds, outcome.terms.value)
                     case NoAgreementOutcome => reason != Agreement && outcome.terms.None?
                     case EscalateOutcome => reason in {MaxTurns, NoProgress} && outcome.terms.None?)
            && (Conclude(state, reason, outcome, outputTokens).Ok? ==>
                  var after := Conclude(state, reason, outcome, outputTokens).value;
                  && after.messages == state.messages
                  && after.conversation == conversation.(closed := Some((reason, outcome)),
                                                         outputTokensUsed := conversation.outputTokensUsed + outputTokens))
  {
  }

  function IsLive(entry: PreparedTurn): bool {
    && entry.messageCall.Some? && entry.messageCall.value.Success? && entry.resolution.Some?
    && entry.plan.acceptMessage && !entry.rejected
  }

  function ApplyMessage(state: State, entry: PreparedTurn): Result<State> {
    if IsLive(entry) then
      Append(state, entry.opportunity.speaker, entry.resolution.value.kind, entry.resolution.value.terms,
             entry.messageCall.value.outputTokens)
    else if entry.plan.acceptMessage then
      Append(state, entry.opportunity.speaker, DeclineKind, None, 0)
    else
      Ok(state)
  }

  function ApplyOutcome(state: State, entry: PreparedTurn): Result<State>
    requires entry.plan.closeReason.Some?
  {
    var reason := entry.plan.closeReason.value;
    if entry.outcomeCall.Some? && entry.outcomeCall.value.result.Success? && entry.outcomeCall.value.resolution.Some? then
      Conclude(state, reason, entry.outcomeCall.value.resolution.value, entry.outcomeCall.value.result.outputTokens)
    else
      Conclude(state, reason, DeterministicConversationOutcome(reason, entry.plan.acceptedTerms), 0)
  }

  /** Applies a prepared turn, recording its calls on the way; an error aborts the tick that contains it. */
  function ApplyTurn(state: State, entry: PreparedTurn): Result<State> {
    if state != entry.opportunity.state then Err(Conflict)
    else if entry.messageCall.Some? && !Recordable(entry.messageCall.value) then Err(SchemaInvalid)
    else
      var after := ApplyMessage(state, entry);
      if after.Err? || entry.plan.closeReason.None? then after
      else if entry.outcomeCall.Some? && !Recordable(entry.outcomeCall.value.result) then Err(SchemaInvalid)
      else ApplyOutcome(after.value, entry)
  }

  /******* Finding and applying a tick's turns *******/

  /** The due conversations taken in order, skipping any whose participant is already busy. */
  function Selected(due: seq<State>, busy: set<string>): seq<State> {
    if due == [] then []
    else
      var (first, second) := due[0].conversation.participants;
      if first in busy || second in busy then Selected(due[1..], busy)
      else [due[0]] + Selected(due[1..], busy + {first, second})
  }

  function Participants(state: State): set<string> {
    {state.conversation.participants.0, state.conversation.participants.1}
  }

  /** No agent takes part in two selected turns, and none that was busy takes part in any. */
  lemma {:induction false} OneTurnPerAgent(due: seq<State>, busy: set<string>)
    ensures forall state | state in Selected(due, busy) :: Participants(state) !! busy
    ensures forall i, j | 0 <= i < j < |Selected(due, busy)| ::
              Participants(Selected(due, busy)[i]) !! Participants(Selected(due, busy)[j])
  {
    if due != [] {
      var taken := Participants(due[0]);
      if taken !! busy {
        OneTurnPerAgent(due[1..], busy + taken);
      } else {
        OneTurnPerAgent(due[1..], busy);
      }
    }
  }

  /** A due conversation is deferred only because one of its participants is already talking. */
  lemma {:induction false} DeferredOnlyWhenBusy(due: seq<State>, busy: set<string>, state: State)
    requires state in due
    ensures || state in Selected(due, busy)
            || !(Participants(state) !! busy)
            || exists other :: other in Selected(due, busy) && !(Participants(state) !! Participants(other))
  {
    var taken := Participants(due[0]);
    if state != due[0] {
      if taken !! busy {
        DeferredOnlyWhenBusy(due[1..], busy + taken, state);
        assert Selected(due, busy)[0] == due[0];
        assert forall other | other in Selected(due[1..], busy + taken) :: other in Selected(due, busy);
      } else {
        DeferredOnlyWhenBusy(due[1..], busy, state);
      }
    }
  }

  /** One step of the selection, from `rest` on. */
  lemma {:induction false} SelectionContinues(all: seq<State>, n: nat, rest: seq<State>, busy: set<string>)
    requires n <= |all| && rest != [] && all[n..] == Selected(rest, busy)
    ensures if !(Participants(rest[0]) !! busy) then all[n..] == Selected(rest[1..], busy)
            else n < |all| && all[n] == rest[0] && all[n + 1..] == Selected(rest[1..], busy + Participants(rest[0]))
  {
    if Participants(rest[0]) !! busy {
      assert all[n..][0] == all[n] && all[n..][1..] == all[n + 1..];
    }
  }

  /** The speaker and the menu of one conversation, if it has them. */
  method FindTurn(state: State) returns (found: Result<Opportunity>)
    ensures found.Ok? ==> found.value.state == state && IsOpportunity(found.value)
    ensures found.Err? <==> ConversationMessageOptions(state.conversation, state.messages).Err?
  {
    var speaker := NextConversationSpeaker(state.conversation, state.messages);
    var options := ConversationMessageOptions(state.conversation, state.messages);
    if speaker.Err? || options.Err? {
      return Err(Conflict);
    }
    return Ok(Opportunity(state, speaker.value, options.value));
  }

  /** Finds the turns of a tick; one selected conversation without a menu fails them all. */
  method DiscoverConversationTurnOpportunities(due: seq<State>) returns (found: Result<seq<Opportunity>>)
    ensures found.Ok? ==>
              && |found.value| == |Selected(due, {})|
              && forall i | 0 <= i < |found.value| ::
                   && found.value[i].state == Selected(due, {})[i]
                   && IsOpportunity(found.value[i])
    ensures found.Err? <==>
              exists state :: state in Selected(due, {}) && ConversationMessageOptions(state.conversation, state.messages).Err?
  {
    var busyAgents: set<string> := {};
    var opportunities: seq<Opportunity> := [];
    ghost var selected := Selected(due, {});
    var k := 0;
    while k < |due|
      invariant 0 <= k <= |due|
      invariant |opportunities| <= |selected|
      invariant selected[|opportunities|..] == Selected(due[k..], busyAgents)
      invariant forall i | 0 <= i < |opportunities| ::
                  opportunities[i].state == selected[i] && IsOpportunity(opportunities[i])
    {
      var (first, second) := due[k].conversation.participants;
      assert due[k..][0] == due[k] && due[k..][1..] == due[k + 1..];
      SelectionContinues(selected, |opportunities|, due[k..], busyAgents);
      if !(first in busyAgents || second in busyAgents) {
        var opportunity := FindTurn(due[k]);
        if opportunity.Err? {
          assert selected[|opportunities|] == due[k];
          return Err(opportunity.code);
        }
        opportunities := opportunities + [opportunity.value];
        busyAgents := busyAgents + {first, second};
      }
      k := k + 1;
    }
    assert |opportunities| == |selected|;
    return Ok(opportunities);
  }

  /** The opportunity offers the current speaker the current menu. */
  ghost predicate IsOpportunity(opportunity: Opportunity) {
    var State(conversation, messages) := opportunity.state;
    && conversation.closed.None?
    && opportunity.speaker == NextSpeaker(conversation, messages)
    && ConversationMessageOptions(conversation, messages) == Ok(opportunity.options)
  }

  /** Prepares every turn of a tick, or none when one of them is refused. */
  method PrepareConversationBatch(opportunities: seq<Opportunity>, providers: seq<Option<Provider>>)
    returns (prepared: Result<seq<PreparedTurn>>)
    requires |providers| == |opportunities|
    ensures prepared.Ok? ==>
              && |prepared.value| == |opportunities|
              && forall i | 0 <= i < |opportunities| ::
                   PrepareTurn(opportunities[i], providers[i]) == Ok(prepared.value[i])
    ensures prepared.Err? <==> exists i | 0 <= i < |opportunities| :: PrepareTurn(opportunities[i], providers[i]).Err?
  {
    var entries: seq<PreparedTurn> := [];
    for k := 0 to |opportunities|
      invariant |entries| == k
      invariant forall i | 0 <= i < k :: PrepareTurn(opportunities[i], providers[i]) == Ok(entries[i])
    {
      var entry := PrepareTurn(opportunities[k], providers[k]);
      if entry.Err? {
        return Err(entry.code);
      }
      entries := entries + [entry.value];
    }
    return Ok(entries);
  }

  /** The store's states after a batch, entry by entry. */
  function ApplyAll(states: map<string, State>, entries: seq<PreparedTurn>): Result<map<string, State>> {
    if entries == [] then Ok(states)
    else
      var id := entries[0].opportunity.state.conversation.id;
      if id !in states then Err(NotFound)
      else match ApplyTurn(states[id], entries[0])
           case Err(code) => Err(code)
           case Ok(state) => ApplyAll(states[id := state], entries[1..])
  }

  class ConversationStore {
    var states: map<string, State>

    constructor (states: map<string, State>)
      ensures this.states == states
    {
      this.states := states;
    }

    method AppendMessage(id: string, sender: string, kind: MessageKind, terms: Option<Terms>, outputTokens: int)
      returns (result: Result<State>)
      requires id in states
      modifies this
      ensures result == Append(old(states[id]), sender, kind, terms, outputTokens)
      ensures states == if result.Ok? then old(states)[id := result.value] else old(states)
    {
      var State(conversation, messages) := states[id];
      if conversation.closed.Some? {
        return Err(Conflict);
      }
      var expectedSender := NextConversationSpeaker(conversation, messages);
      if expectedSender.Err? {
        return Err(expectedSender.code);
      }
      if sender != expectedSender.value {
        return Err(PermissionDenied);
      }
      if !SafeInteger(outputTokens) || outputTokens < 0 {
        return Err(ValidationFailed);
      }
      if conversation.maxTurns <= conversation.turns ||
         conversation.outputTokenBudget < conversation.outputTokensUsed + outputTokens {
        return Err(LimitExceeded);
      }
      if terms.Some? && !TermsWithinConversationBounds(conversation.bounds, terms.value) {
        return Err(PermissionDenied);
      }
      var requiresTerms := kind == OfferKind || kind == CounterKind || kind == AcceptKind;
      if requiresTerms != terms.Some? {
        return Err(SchemaInvalid);
      }
      var message := Message(sender, kind, terms, outputTokens);
      conversation := conversation.(turns := conversation.turns + 1,
                                    outputTokensUsed := conversation.outputTokensUsed + outputTokens);
      states := states[id := State(conversation, messages + [message])];
      return Ok(states[id]);
    }

    method Close(id: string, reason: CloseReason, outcome: Outcome, outputTokens: int) returns (result: Result<State>)
      requires id in states
      modifies this
      ensures result == Conclude(old(states[id]), reason, outcome, outputTokens)
      ensures states == if result.Ok? then old(states)[id := result.value] else old(states)
    {
      var State(conversation, messages) := states[id];
      if conversation.closed.Some? {
        return Err(Conflict);
      }
      if outcome.terms.Some? != (outcome.kind == AgreementOutcome) {
        return Err(SchemaInvalid);
      }
      if !SafeInteger(outputTokens) || outputTokens < 0 {
        return Err(ValidationFailed);
      }
      if conversation.outputTokenBudget < conversation.outputTokensUsed + outputTokens {
        return Err(LimitExceeded);
      }
      if (reason == Agreement) != (outcome.kind == AgreementOutcome) {
        return Err(ValidationFailed);
      }
      if outcome.kind == EscalateOutcome && reason != MaxTurns && reason != NoProgress {
        return Err(ValidationFailed);
      }
      if outcome.terms.Some? && !TermsWithinConversationBounds(conversation.bounds, outcome.terms.value) {
        return Err(PermissionDenied);
      }
      conversation := conversation.(closed := Some((reason, outcome)),
                                    outputTokensUsed := conversation.outputTokensUsed + outputTokens);
      states := states[id := State(conversation, messages)];
      return Ok(states[id]);
    }

    /** One entry of the phase handler: an append, then a close when the plan says so. */
    method ApplyEntry(entry: PreparedTurn) returns (result: Result<State>)
      requires entry.opportunity.state.conversation.id in states
      modifies this
      ensures var id := entry.opportunity.state.conversation.id;
              && result == ApplyTurn(old(states[id]), entry)
              && (result.Ok? ==> states == old(states)[id := result.value])
    {
      var id := entry.opportunity.state.conversation.id;
      var before := states[id];
      if before != entry.opportunity.state {
        return Err(Conflict);
      }
      if entry.messageCall.Some? && !Recordable(entry.messageCall.value) {
        return Err(SchemaInvalid);
      }
      result := Ok(before);
      if IsLive(entry) {
        result := AppendMessage(id, entry.opportunity.speaker, entry.resolution.value.kind,
                                entry.resolution.value.terms, entry.messageCall.value.outputTokens);
      } else if entry.plan.acceptMessage {
        result := AppendMessage(id, entry.opportunity.speaker, DeclineKind, None, 0);
      }
      assert result.Ok? ==> states == old(states)[id := result.value];
      if result.Err? || entry.plan.closeReason.None? {
        return;
      }
      var reason := entry.plan.closeReason.value;
      var call := entry.outcomeCall;
      if call.Some? && !Recordable(call.value.result) {
        return Err(SchemaInvalid);
      }
      if call.Some? && call.value.result.Success? && call.value.resolution.Some? {
        result := Close(id, reason, call.value.resolution.value, call.value.result.outputTokens);
      } else {
        result := Close(id, reason, DeterministicConversationOutcome(reason, entry.plan.acceptedTerms), 0);
      }
    }

    /** The phase handler inside its tick transaction: all entries apply or none does. */
    method ApplyBatch(entries: seq<PreparedTurn>) returns (result: Result<()>)
      modifies this
      ensures match ApplyAll(old(states), entries)
              case Ok(after) => result == Ok(()) && states == after
              case Err(_) => result.Err? && states == old(states)
    {
      var checkpoint := states;
      var k := 0;
      while k < |entries|
        invariant 0 <= k <= |entries|
        invariant ApplyAll(states, entries[k..]) == ApplyAll(old(states), entries)
      {
        var id := entries[k].opportunity.state.conversation.id;
        assert entries[k..][0] == entries[k] && entries[k..][1..] == entries[k + 1..];
        if id !in states {
          states := checkpoint;
          return Err(NotFound);
        }
        var applied := ApplyEntry(entries[k]);
        if applied.Err? {
          states := checkpoint;
          return Err(applied.code);
        }
        k := k + 1;
      }
      assert entries[k..] == [];
      return Ok(());
    }
  }

  /******* Safety under any provider *******/

  function TokensOf(messages: seq<Message>): int {
    if messages == [] then 0
    else TokensOf(messages[..|messages| - 1]) + messages[|messages| - 1].outputTokens
  }

  /** The last message accepts exactly the terms the other party last tabled. */
  ghost predicate EndsInAcceptance(messages: seq<Message>) {
    && messages != []
    && var last := messages[|messages| - 1];
       && last.kind == AcceptKind
       && last.terms.Some?
       && last.terms == TermsFromOther(last.sender, messages[..|messages| - 1])
  }

  /**
   * What the schema and the opening command guarantee of a fresh conversation. Neither asks
   * whether terms can be offered at all within the bounds.
   */
  ghost predicate Opened(conversation: Conversation) {
    && ValidBounds(conversation.bounds)
    && conversation.participants.0 != conversation.participants.1
    && 1 <= conversation.maxTurns <= 6
    && 1 <= conversation.outputTokenBudget <= 4096
  }

  /** What every stored conversation keeps. */
  ghost predicate Sound(state: State) {
    var State(conversation, messages) := state;
    && conversation.turns == |messages| <= conversation.maxTurns
    && (forall i | 0 <= i < |messages| ::
          messages[i].sender == if i % 2 == 0 then conversation.participants.0 else conversation.participants.1)
    && (forall i | 0 <= i < |messages| && messages[i].terms.Some? ::
          && TermsWithinConversationBounds(conversation.bounds, messages[i].terms.value)
          && LowMiddleHighTerms(conversation.bounds, messages[i].terms.value))
    && (forall i | 0 <= i < |messages| - 1 :: messages[i].kind != AcceptKind && messages[i].kind != DeclineKind)
    && 0 <= TokensOf(messages) <= conversation.outputTokensUsed <= conversation.outputTokenBudget <= 4096
    && match conversation.closed
       case None =>
         && |messages| < conversation.maxTurns
         && TokensOf(messages) == conversation.outputTokensUsed < conversation.outputTokenBudget
         && (forall i | 0 <= i < |messages| :: messages[i].kind != AcceptKind && messages[i].kind != DeclineKind)
       case Some((reason, outcome)) =>
         && (outcome.kind == AgreementOutcome <==> EndsInAcceptance(messages))
         && (outcome.kind == AgreementOutcome <==> reason == Agreement)
         && outcome.terms == if EndsInAcceptance(messages) then messages[|messages| - 1].terms else None
  }

  /** The safety invariant of a stored conversation. */
  ghost predicate Safe(state: State) {
    Opened(state.conversation) && Sound(state)
  }

  function OpportunityOf(state: State): Opportunity
    requires ConversationMessageOptions(state.conversation, state.messages).Ok?
  {
    Opportunity(state, NextSpeaker(state.conversation, state.messages),
                ConversationMessageOptions(state.conversation, state.messages).value)
  }

  /** A closing message with tokens left over is followed by an outcome call. */
  predicate OutcomeAsked(opportunity: Opportunity, message: ProviderResult) {
    && message.Success?
    && var State(conversation, messages) := opportunity.state;
       var resolved := ResolveConversationMessageProposal(message.value, opportunity.options);
       && resolved.Ok?
       && var plan := PlanConversationClose(conversation, messages, opportunity.speaker, resolved.value, message.outputTokens);
          plan.Ok? && plan.value.acceptMessage && plan.value.closeReason.Some?
          && message.outputTokens < Remaining(conversation)
  }

  /** Some answer the turn asks for cannot be recorded: the condition under which its tick aborts. */
  predicate AbortsOn(opportunity: Opportunity, provider: Option<Provider>) {
    && provider.Some? && 1 <= Remaining(opportunity.state.conversation)
    && (|| !Recordable(provider.value.message)
        || (OutcomeAsked(opportunity, provider.value.message) && !Recordable(provider.value.outcome)))
  }

  /** One whole turn: prepared, then applied. */
  function TakeTurn(state: State, provider: Option<Provider>): Result<State>
    requires ConversationMessageOptions(state.conversation, state.messages).Ok?
  {
    match PrepareTurn(OpportunityOf(state), provider)
    case Err(code) => Err(code)
    case Ok(entry) => ApplyTurn(state, entry)
  }

  lemma OpposingTermsAreBounded(state: State, sender: string)
    requires Sound(state)
    ensures TermsFromOther(sender, state.messages).Some? ==>
              && TermsWithinConversationBounds(state.conversation.bounds, TermsFromOther(sender, state.messages).value)
              && LowMiddleHighTerms(state.conversation.bounds, TermsFromOther(sender, state.messages).value)
  {
    TermsFromOtherIsLatest(sender, state.messages);
  }

  /** The message half of a prepared turn: what is sent fits the rules, and the plan fits what is sent. */
  ghost predicate MessageFits(state: State, entry: PreparedTurn) {
    var State(conversation, messages) := state;
    var plan := entry.plan;
    && entry.opportunity.state == state
    && entry.opportunity.speaker == NextSpeaker(conversation, messages)
    && (plan.acceptedTerms.Some? <==> plan.closeReason == Some(Agreement))
    && if IsLive(entry) then
         var Resolved(_, kind, terms) := entry.resolution.value;
         var tokens := entry.messageCall.value.outputTokens;
         && 0 <= tokens <= conversation.outputTokenBudget - conversation.outputTokensUsed
         && (terms.Some? <==> kind == OfferKind || kind == CounterKind || kind == AcceptKind)
         && (terms.Some? ==> TermsWithinConversationBounds(conversation.bounds, terms.value)
                             && LowMiddleHighTerms(conversation.bounds, terms.value))
         && (kind == AcceptKind <==> plan.closeReason == Some(Agreement))
         && (kind == AcceptKind ==> terms == TermsFromOther(entry.opportunity.speaker, messages) == plan.acceptedTerms)
         && (kind == DeclineKind ==> plan.closeReason.Some?)
         && (plan.closeReason.None? ==>
               |messages| + 1 < conversation.maxTurns && conversation.outputTokensUsed + tokens < conversation.outputTokenBudget)
       else
         plan.closeReason.Some? && plan.closeReason != Some(Agreement)
  }

  /** The outcome half: a resolved outcome call answers a live message, agrees with the plan and fits the budget. */
  ghost predicate OutcomeFits(state: State, entry: PreparedTurn) {
    && (entry.outcomeCall.Some? ==> entry.plan.closeReason.Some?)
    && (entry.outcomeCall.Some? && entry.outcomeCall.value.resolution.Some? ==>
      && IsLive(entry) && entry.outcomeCall.value.result.Success?
      && var reason := entry.plan.closeReason.value;
         var outcome := entry.outcomeCall.value.resolution.value;
         && (outcome.kind == AgreementOutcome <==> reason == Agreement)
         && outcome.terms == entry.plan.acceptedTerms
         && (outcome.kind == EscalateOutcome ==> reason == MaxTurns || reason == NoProgress)
         && entry.outcomeCall.value.result.outputTokens <=
              Remaining(state.conversation) - entry.messageCall.value.outputTokens)
  }

  /** The terms a resolved proposal carries suit its kind. */
  ghost predicate Tabled(state: State, resolved: Resolved) {
    var opposing := TermsFromOther(NextSpeaker(state.conversation, state.messages), state.messages);
    && (resolved.terms.Some? <==> resolved.kind == OfferKind || resolved.kind == CounterKind || resolved.kind == AcceptKind)
    && (resolved.terms.Some? ==> TermsWithinConversationBounds(state.conversation.bounds, resolved.terms.value)
                                 && LowMiddleHighTerms(state.conversation.bounds, resolved.terms.value))
    && (resolved.kind == AcceptKind ==> resolved.terms == opposing)
  }

  lemma ResolvedIsTabled(state: State, value: RawValue)
    requires Sound(state)
    requires ConversationMessageOptions(state.conversation, state.messages).Ok?
    requires ResolveConversationMessageProposal(value, OpportunityOf(state).options).Ok?
    ensures Tabled(state, ResolveConversationMessageProposal(value, OpportunityOf(state).options).value)
  {
    var options := OpportunityOf(state).options;
    ResolvedIsOffered(value, options);
    var resolved := ResolveConversationMessageProposal(value, options).value;
    MenuIsBounded(state.conversation, state.messages, resolved.option);
    MenuIsExactly(state.conversation, state.messages, resolved.option);
    OpposingTermsAreBounded(state, NextSpeaker(state.conversation, state.messages));
    if resolved.terms.Some? {
      CandidatesAreLowMiddleHigh(state.conversation.bounds, resolved.terms.value);
    }
  }

  /** An answer to the message call that cannot be recorded aborts the turn, sooner or later. */
  lemma UnrecordableMessageAborts(state: State, provider: Option<Provider>)
    requires ConversationMessageOptions(state.conversation, state.messages).Ok?
    requires provider.Some? && 1 <= Remaining(state.conversation) && !Recordable(provider.value.message)
    ensures TakeTurn(state, provider).Err?
  {
  }

  /** The shape of a prepared turn does not depend on what the menu holds. */
  lemma {:induction false} PreparationFits(state: State, options: seq<DecisionOption>, provider: Option<Provider>)
    requires Sound(state) && state.conversation.closed.None?
    requires provider.Some? ==> Recordable(provider.value.message)
    requires forall value: RawValue | ResolveConversationMessageProposal(value, options).Ok? ::
               Tabled(state, ResolveConversationMessageProposal(value, options).value)
    ensures
      var opportunity := Opportunity(state, NextSpeaker(state.conversation, state.messages), options);
      && PrepareTurn(opportunity, provider).Ok?
      && Fits(opportunity, provider, PrepareTurn(opportunity, provider).value)
  {
    var opportunity := Opportunity(state, NextSpeaker(state.conversation, state.messages), options);
    if provider.Some? && provider.value.message.Success? {
      var resolved := ResolveConversationMessageProposal(provider.value.message.value, options);
      if resolved.Ok? {
        assert Tabled(state, resolved.value);
        var entry := PrepareTurn(opportunity, provider).value;
        if entry.outcomeCall.Some? && entry.outcomeCall.value.resolution.Some? {
          ResolvedOutcomeAgrees(state.conversation.id, entry.plan.closeReason.value, entry.plan.acceptedTerms,
                                provider.value.outcome.value);
        }
      }
    }
  }

  /** The prepared turn keeps the rules and holds exactly the answers that were asked for. */
  ghost predicate Fits(opportunity: Opportunity, provider: Option<Provider>, entry: PreparedTurn) {
    && MessageFits(opportunity.state, entry)
    && OutcomeFits(opportunity.state, entry)
    && entry.messageCall == (if provider.Some? then Some(provider.value.message) else None)
    && (entry.outcomeCall.Some? <==> provider.Some? && OutcomeAsked(opportunity, provider.value.message))
    && (entry.outcomeCall.Some? ==> entry.outcomeCall.value.result == provider.value.outcome)
  }

  /** Whatever the provider answers, preparation yields a turn that fits if its message can be recorded. */
  lemma PreparedTurnFits(state: State, provider: Option<Provider>)
    requires Safe(state) && state.conversation.closed.None? && ConversationTermCandidates(state.conversation.bounds).Ok?
    requires provider.Some? ==> Recordable(provider.value.message)
    ensures ConversationMessageOptions(state.conversation, state.messages).Ok?
    ensures PrepareTurn(OpportunityOf(state), provider).Ok?
    ensures Fits(OpportunityOf(state), provider, PrepareTurn(OpportunityOf(state), provider).value)
  {
    var options := OpportunityOf(state).options;
    forall value: RawValue | ResolveConversationMessageProposal(value, options).Ok?
      ensures Tabled(state, ResolveConversationMessageProposal(value, options).value)
    {
      ResolvedIsTabled(state, value);
    }
    PreparationFits(state, options, provider);
  }

  /** The message a prepared turn sends. */
  function SentMessage(entry: PreparedTurn): Message {
    if IsLive(entry) then
      Message(entry.opportunity.speaker, entry.resolution.value.kind, entry.resolution.value.terms,
              entry.messageCall.value.outputTokens)
    else
      Message(entry.opportunity.speaker, DeclineKind, None, 0)
  }

  function Sent(state: State, message: Message): State {
    State(state.conversation.(turns := state.conversation.turns + 1,
                              outputTokensUsed := state.conversation.outputTokensUsed + message.outputTokens),
          state.messages + [message])
  }

  /** A turn that fits sends its message without error. */
  lemma MessageIsAccepted(state: State, entry: PreparedTurn)
    requires Sound(state) && state.conversation.closed.None? && MessageFits(state, entry)
    ensures ApplyMessage(state, entry) ==
            Ok(if entry.plan.acceptMessage then Sent(state, SentMessage(entry)) else state)
  {
  }

  lemma SentEndsInAcceptance(state: State, entry: PreparedTurn)
    requires MessageFits(state, entry)
    ensures var messages := Sent(state, SentMessage(entry)).messages;
            && (EndsInAcceptance(messages) <==> entry.plan.closeReason == Some(Agreement))
            && TokensOf(messages) == TokensOf(state.messages) + SentMessage(entry).outputTokens
  {
    var messages := Sent(state, SentMessage(entry)).messages;
    assert messages[..|messages| - 1] == state.messages;
  }

  /** A turn whose plan leaves the conversation open keeps it sound. */
  lemma {:induction false} OpenTurnIsSound(state: State, entry: PreparedTurn)
    requires Sound(state) && state.conversation.closed.None? && MessageFits(state, entry)
    requires entry.plan.closeReason.None?
    ensures Sound(Sent(state, SentMessage(entry)))
  {
    SentEndsInAcceptance(state, entry);
  }

  /** The outcome of a closing turn that fits. */
  function TurnOutcome(entry: PreparedTurn): Outcome
    requires entry.plan.closeReason.Some?
  {
    if entry.outcomeCall.Some? && entry.outcomeCall.value.result.Success? && entry.outcomeCall.value.resolution.Some? then
      entry.outcomeCall.value.resolution.value
    else
      DeterministicConversationOutcome(entry.plan.closeReason.value, entry.plan.acceptedTerms)
  }

  function OutcomeTokens(entry: PreparedTurn): int {
    if entry.outcomeCall.Some? && entry.outcomeCall.value.result.Success? && entry.outcomeCall.value.resolution.Some? then
      entry.outcomeCall.value.result.outputTokens
    else
      0
  }

  function Concluded(half: State, reason: CloseReason, outcome: Outcome, tokens: int): State {
    half.(conversation := half.conversation.(closed := Some((reason, outcome)),
                                             outputTokensUsed := half.conversation.outputTokensUsed + tokens))
  }

  /** The store takes the outcome of a turn that fits and whose outcome call can be recorded. */
  lemma OutcomeIsAccepted(state: State, entry: PreparedTurn, half: State)
    requires Sound(state) && state.conversation.closed.None?
    requires MessageFits(state, entry) && OutcomeFits(state, entry) && entry.plan.closeReason.Some?
    requires entry.outcomeCall.Some? ==> Recordable(entry.outcomeCall.value.result)
    requires half == if entry.plan.acceptMessage then Sent(state, SentMessage(entry)) else state
    ensures ApplyOutcome(half, entry) ==
            Ok(Concluded(half, entry.plan.closeReason.value, TurnOutcome(entry), OutcomeTokens(entry)))
    ensures 0 <= OutcomeTokens(entry)
    ensures TurnOutcome(entry).terms == entry.plan.acceptedTerms
    ensures TurnOutcome(entry).kind == AgreementOutcome <==> entry.plan.closeReason == Some(Agreement)
    ensures half.conversation.outputTokensUsed + OutcomeTokens(entry) <= half.conversation.outputTokenBudget
  {
    var outcome, tokens := TurnOutcome(entry), OutcomeTokens(entry);
    assert outcome.kind == AgreementOutcome <==> entry.plan.closeReason == Some(Agreement);
    assert outcome.terms == entry.plan.acceptedTerms;
    assert outcome.terms.Some? ==> TermsWithinConversationBounds(state.conversation.bounds, outcome.terms.value);
    assert ApplyOutcome(half, entry) == Conclude(half, entry.plan.closeReason.value, outcome, tokens);
  }

  /** A turn whose plan closes the conversation leaves it sound. */
  lemma ClosingTurnIsSound(state: State, entry: PreparedTurn, half: State)
    requires Sound(state) && state.conversation.closed.None?
    requires MessageFits(state, entry) && OutcomeFits(state, entry) && entry.plan.closeReason.Some?
    requires entry.outcomeCall.Some? ==> Recordable(entry.outcomeCall.value.result)
    requires half == if entry.plan.acceptMessage then Sent(state, SentMessage(entry)) else state
    ensures ApplyOutcome(half, entry).Ok?
    ensures Sound(ApplyOutcome(half, entry).value)
    ensures ApplyOutcome(half, entry).value.messages == half.messages
    ensures SameTerms(state.conversation, ApplyOutcome(half, entry).value.conversation)
    ensures ApplyOutcome(half, entry).value.conversation.closed.Some?
  {
    OutcomeIsAccepted(state, entry, half);
    ConcludedIsSound(state, entry, half, TurnOutcome(entry), OutcomeTokens(entry));
  }

  lemma ConcludedIsSound(state: State, entry: PreparedTurn, half: State, outcome: Outcome, tokens: int)
    requires Sound(state) && state.conversation.closed.None?
    requires MessageFits(state, entry) && entry.plan.closeReason.Some?
    requires half == if entry.plan.acceptMessage then Sent(state, SentMessage(entry)) else state
    requires outcome.terms == entry.plan.acceptedTerms
    requires outcome.kind == AgreementOutcome <==> entry.plan.closeReason == Some(Agreement)
    requires 0 <= tokens <= half.conversation.outputTokenBudget - half.conversation.outputTokensUsed
    ensures Sound(Concluded(half, entry.plan.closeReason.value, outcome, tokens))
  {
    if entry.plan.acceptMessage {
      ConcludedAfterMessage(state, entry, outcome, tokens);
    } else {
      assert !EndsInAcceptance(state.messages);
    }
  }

  lemma {:induction false} ConcludedAfterMessage(state: State, entry: PreparedTurn, outcome: Outcome, tokens: int)
    requires Sound(state) && state.conversation.closed.None?
    requires MessageFits(state, entry) && entry.plan.closeReason.Some? && entry.plan.acceptMessage
    requires outcome.terms == entry.plan.acceptedTerms
    requires outcome.kind == AgreementOutcome <==> entry.plan.closeReason == Some(Agreement)
    requires var half := Sent(state, SentMessage(entry)).conversation;
             0 <= tokens <= half.outputTokenBudget - half.outputTokensUsed
    ensures Sound(Concluded(Sent(state, SentMessage(entry)), entry.plan.closeReason.value, outcome, tokens))
  {
    SentEndsInAcceptance(state, entry);
  }

  /**
   * One turn: it aborts its tick exactly when some answer it asked for cannot be recorded,
   * because of a token count that is negative or inexact or of other evidence; otherwise it
   * keeps the conversation safe and adds a message or closes.
   */
  lemma TurnIsSafe(state: State, provider: Option<Provider>)
    requires Safe(state) && state.conversation.closed.None? && ConversationTermCandidates(state.conversation.bounds).Ok?
    ensures ConversationMessageOptions(state.conversation, state.messages).Ok?
    ensures
      var result := TakeTurn(state, provider);
      && (result.Err? <==> AbortsOn(OpportunityOf(state), provider))
      && (result.Ok? ==>
            && Safe(result.value)
            && SameTerms(state.conversation, result.value.conversation)
            && state.messages <= result.value.messages
            && (result.value.conversation.closed.Some? || |result.value.messages| == |state.messages| + 1))
  {
    if provider.Some? && !Recordable(provider.value.message) {
      UnrecordableMessageAborts(state, provider);
    } else {
      PreparedTurnFits(state, provider);
      TurnThatFitsIsSound(state, PrepareTurn(OpportunityOf(state), provider).value);
    }
  }

  lemma TurnThatFitsIsSound(state: State, entry: PreparedTurn)
    requires Sound(state) && state.conversation.closed.None?
    requires MessageFits(state, entry) && OutcomeFits(state, entry)
    requires entry.messageCall.Some? ==> Recordable(entry.messageCall.value)
    ensures
      var result := ApplyTurn(state, entry);
      && (result.Err? <==> entry.outcomeCall.Some? && !Recordable(entry.outcomeCall.value.result))
      && (result.Ok? ==>
            && Sound(result.value)
            && SameTerms(state.conversation, result.value.conversation)
            && state.messages <= result.value.messages
            && (result.value.conversation.closed.Some? || |result.value.messages| == |state.messages| + 1))
  {
    MessageIsAccepted(state, entry);
    if entry.plan.closeReason.None? {
      OpenTurnIsSound(state, entry);
    } else if entry.outcomeCall.Some? ==> Recordable(entry.outcomeCall.value.result) {
      ClosingTurnIsSound(state, entry, ApplyMessage(state, entry).value);
    }
  }

  /******* What a turn does with an answer, told without the menu and the plan *******/

  /** The answer says something that may be said. */
  ghost predicate Says(state: State, message: ProviderResult)
    requires ConversationTermCandidates(state.conversation.bounds).Ok?
  {
    && message.Success? && message.value.Proposal?
    && Sayable(state.conversation, state.messages, DecisionOption(message.value.actionId, message.value.params))
  }

  /** A provider that says something it has the tokens for is heard. */
  ghost predicate Heard(state: State, provider: Option<Provider>)
    requires ConversationTermCandidates(state.conversation.bounds).Ok?
  {
    && provider.Some? && Says(state, provider.value.message)
    && provider.value.message.outputTokens <= Remaining(state.conversation)
  }

  /** What is added: what was said; nothing, if it was too long; and a refusal in place of anything else. */
  ghost function Added(state: State, provider: Option<Provider>): seq<Message>
    requires ConversationTermCandidates(state.conversation.bounds).Ok?
  {
    var speaker := NextSpeaker(state.conversation, state.messages);
    if Heard(state, provider) then
      var said := provider.value.message;
      [Message(speaker, said.value.params.kind, said.value.params.terms, said.outputTokens)]
    else if provider.Some? && Says(state, provider.value.message) then []
    else [Message(speaker, DeclineKind, None, 0)]
  }

  /** Why the conversation ends with this turn, if it does. */
  ghost function Ending(state: State, provider: Option<Provider>): Option<CloseReason>
    requires ConversationTermCandidates(state.conversation.bounds).Ok?
  {
    var State(conversation, messages) := state;
    if Heard(state, provider) then
      var Message(speaker, kind, terms, tokens) := Added(state, provider)[0];
      if kind == AcceptKind then Some(Agreement)
      else if kind == DeclineKind then Some(Declined)
      else if SaidBefore(speaker, terms, messages) then Some(NoProgress)
      else if |messages| + 1 == conversation.maxTurns then Some(MaxTurns)
      else if tokens == Remaining(conversation) then Some(TokenBudget)
      else None
    else if provider.None? || provider.value.message.Fallback? then Some(ProviderFallback)
    else if Says(state, provider.value.message) then Some(TokenBudget)
    else Some(InvalidProposal)
  }

  /** The terms that are agreed on when the turn ends the conversation in agreement. */
  ghost function Agreed(state: State, provider: Option<Provider>): Option<Terms>
    requires ConversationTermCandidates(state.conversation.bounds).Ok?
  {
    if Ending(state, provider) == Some(Agreement) then provider.value.message.value.params.terms else None
  }

  /** The provider was asked for an outcome, had the tokens for its answer, and named a fitting one. */
  ghost predicate Names(state: State, provider: Option<Provider>, kind: OutcomeKind)
    requires ConversationTermCandidates(state.conversation.bounds).Ok?
  {
    && Heard(state, provider) && Ending(state, provider).Some? && provider.value.outcome.Success?
    && var left := Remaining(state.conversation) - provider.value.message.outputTokens;
       && 1 <= left && provider.value.outcome.outputTokens <= left
       && NamesOutcome(provider.value.outcome.value, state.conversation.id, Ending(state, provider).value,
                       Agreed(state, provider), kind)
  }

  /** What the answer to the outcome call decides: whether to escalate, and the tokens it took. */
  ghost function Upshot(state: State, provider: Option<Provider>): Outcome
    requires ConversationTermCandidates(state.conversation.bounds).Ok?
  {
    if Ending(state, provider) == Some(Agreement) then Outcome(AgreementOutcome, Agreed(state, provider))
    else if Names(state, provider, EscalateOutcome) then Outcome(EscalateOutcome, None)
    else Outcome(NoAgreementOutcome, None)
  }

  ghost function Spent(state: State, provider: Option<Provider>): int
    requires ConversationTermCandidates(state.conversation.bounds).Ok?
  {
    TokensOf(Added(state, provider)) + if exists kind :: Names(state, provider, kind) then provider.value.outcome.outputTokens else 0
  }

  /** The plan of the prepared turn is the one told by what was said. */
  ghost predicate Planned(state: State, provider: Option<Provider>, entry: PreparedTurn)
    requires ConversationTermCandidates(state.conversation.bounds).Ok?
  {
    && entry.plan.closeReason == Ending(state, provider)
    && entry.plan.acceptedTerms == Agreed(state, provider)
    && (IsLive(entry) <==> Heard(state, provider))
    && Added(state, provider) == if entry.plan.acceptMessage then [SentMessage(entry)] else []
  }

  /** The plan for something that may be said, in terms of what was said before. */
  lemma {:induction false} PlanForSaying(state: State, proposal: Resolved, outputTokens: int)
    requires Sound(state) && state.conversation.closed.None? && 0 <= outputTokens && SafeInteger(outputTokens)
    requires Tabled(state, proposal)
    ensures
      var State(conversation, messages) := state;
      var speaker := NextSpeaker(conversation, messages);
      PlanConversationClose(conversation, messages, speaker, proposal, outputTokens) == Ok(
        if Remaining(conversation) < outputTokens then ClosePlan(false, Some(TokenBudget), None)
        else if proposal.kind == AcceptKind then ClosePlan(true, Some(Agreement), proposal.terms)
        else if proposal.kind == DeclineKind then ClosePlan(true, Some(Declined), None)
        else if SaidBefore(speaker, proposal.terms, messages) then ClosePlan(true, Some(NoProgress), None)
        else if |messages| + 1 == conversation.maxTurns then ClosePlan(true, Some(MaxTurns), None)
        else if outputTokens == Remaining(conversation) then ClosePlan(true, Some(TokenBudget), None)
        else ClosePlan(true, None, None))
  {
    RepeatingMeansSaidBefore(NextSpeaker(state.conversation, state.messages), proposal.terms, state.messages);
  }

  lemma {:induction false} PlanFollowsAnswer(state: State, provider: Option<Provider>)
    requires Safe(state) && state.conversation.closed.None? && ConversationTermCandidates(state.conversation.bounds).Ok?
    requires ConversationMessageOptions(state.conversation, state.messages).Ok?
    requires provider.Some? ==> Recordable(provider.value.message)
    requires PrepareTurn(OpportunityOf(state), provider).Ok?
    ensures Planned(state, provider, PrepareTurn(OpportunityOf(state), provider).value)
  {
    if provider.Some? && provider.value.message.Success? {
      var value := provider.value.message.value;
      SayableIsResolved(state.conversation, state.messages, value);
      var resolved := ResolveConversationMessageProposal(value, OpportunityOf(state).options);
      if resolved.Ok? {
        ResolvedIsTabled(state, value);
        PlanForSaying(state, resolved.value, provider.value.message.outputTokens);
      }
    }
  }

  /** What became of an outcome call: nothing, or the outcome that the answer names within its tokens. */
  lemma CallsNameOutcomes(conversationId: string, plan: ClosePlan, left: int, result: ProviderResult)
    requires plan.closeReason.Some? && (plan.acceptedTerms.Some? <==> plan.closeReason == Some(Agreement))
    requires PrepareOutcomeCall(conversationId, plan, left, result).Ok?
    ensures var call := PrepareOutcomeCall(conversationId, plan, left, result).value;
            && (call.Some? ==> call.value.result == result)
            && forall kind, terms :: (call.Some? && call.value.resolution == Some(Outcome(kind, terms))) <==>
                 && 1 <= left && result.Success? && result.outputTokens <= left && terms == plan.acceptedTerms
                 && NamesOutcome(result.value, conversationId, plan.closeReason.value, plan.acceptedTerms, kind)
  {
    if result.Success? {
      OutcomesResolveExactly(conversationId, plan.closeReason.value, plan.acceptedTerms, result.value);
    }
  }

  lemma {:induction false} LiveOutcomeCall(opportunity: Opportunity, provider: Option<Provider>, entry: PreparedTurn)
    requires PrepareTurn(opportunity, provider) == Ok(entry) && IsLive(entry)
    ensures provider.Some? && entry.messageCall == Some(provider.value.message)
    ensures PrepareOutcomeCall(opportunity.state.conversation.id, entry.plan,
                               Remaining(opportunity.state.conversation) - provider.value.message.outputTokens,
                               provider.value.outcome) == Ok(entry.outcomeCall)
  {
  }

  /** The entry's outcome call holds this kind of outcome. */
  ghost predicate Holds(entry: PreparedTurn, kind: OutcomeKind) {
    entry.outcomeCall.Some? && entry.outcomeCall.value.resolution == Some(Outcome(kind, entry.plan.acceptedTerms))
  }

  lemma {:induction false} HoldsWhatIsNamed(state: State, provider: Option<Provider>, entry: PreparedTurn, kind: OutcomeKind)
    requires ConversationTermCandidates(state.conversation.bounds).Ok?
    requires ConversationMessageOptions(state.conversation, state.messages).Ok?
    requires PrepareTurn(OpportunityOf(state), provider) == Ok(entry) && Planned(state, provider, entry)
    requires entry.plan.closeReason.Some? && (entry.plan.acceptedTerms.Some? <==> entry.plan.closeReason == Some(Agreement))
    requires IsLive(entry)
    ensures Names(state, provider, kind) <==> Holds(entry, kind)
  {
    LiveOutcomeCall(OpportunityOf(state), provider, entry);
    CallsNameOutcomes(state.conversation.id, entry.plan,
                      Remaining(state.conversation) - provider.value.message.outputTokens, provider.value.outcome);
  }

  /** The outcome of the prepared turn is the one told by the answer to the outcome call. */
  lemma {:induction false} OutcomeFollowsAnswer(state: State, provider: Option<Provider>, entry: PreparedTurn)
    requires ConversationTermCandidates(state.conversation.bounds).Ok?
    requires ConversationMessageOptions(state.conversation, state.messages).Ok?
    requires PrepareTurn(OpportunityOf(state), provider) == Ok(entry) && Planned(state, provider, entry)
    requires MessageFits(state, entry) && OutcomeFits(state, entry) && entry.plan.closeReason.Some?
    ensures TurnOutcome(entry) == Upshot(state, provider)
    ensures OutcomeTokens(entry) ==
            if exists kind :: Names(state, provider, kind) then provider.value.outcome.outputTokens else 0
  {
    if IsLive(entry) {
      forall kind ensures Names(state, provider, kind) <==> Holds(entry, kind) {
        HoldsWhatIsNamed(state, provider, entry, kind);
      }
      HeldOutcome(entry);
      LiveAnswer(state, provider, entry);
    }
  }

  lemma {:induction false} LiveAnswer(state: State, provider: Option<Provider>, entry: PreparedTurn)
    requires ConversationMessageOptions(state.conversation, state.messages).Ok?
    requires PrepareTurn(OpportunityOf(state), provider) == Ok(entry) && IsLive(entry)
    ensures provider.Some? && (entry.outcomeCall.Some? ==> entry.outcomeCall.value.result == provider.value.outcome)
  {
  }

  /** The outcome of a turn is what its outcome call holds, or follows from the close reason. */
  lemma HeldOutcome(entry: PreparedTurn)
    requires entry.plan.closeReason.Some? && (entry.plan.acceptedTerms.Some? <==> entry.plan.closeReason == Some(Agreement))
    requires entry.outcomeCall.Some? && entry.outcomeCall.value.resolution.Some? ==>
               && entry.outcomeCall.value.result.Success?
               && entry.outcomeCall.value.resolution.value.terms == entry.plan.acceptedTerms
               && (entry.outcomeCall.value.resolution.value.kind == AgreementOutcome <==> entry.plan.closeReason == Some(Agreement))
    ensures TurnOutcome(entry) ==
            if entry.plan.closeReason == Some(Agreement) then Outcome(AgreementOutcome, entry.plan.acceptedTerms)
            else if Holds(entry, EscalateOutcome) then Outcome(EscalateOutcome, None)
            else Outcome(NoAgreementOutcome, None)
    ensures OutcomeTokens(entry) ==
            if exists kind :: Holds(entry, kind) then entry.outcomeCall.value.result.outputTokens else 0
  {
    if entry.outcomeCall.Some? && entry.outcomeCall.value.resolution.Some? {
      assert Holds(entry, entry.outcomeCall.value.resolution.value.kind);
    }
  }

  /** A turn that fits and is planned as told is applied as told. */
  lemma {:induction false} AppliedFollowsAnswer(state: State, provider: Option<Provider>, entry: PreparedTurn)
    requires Sound(state) && state.conversation.closed.None? && ConversationTermCandidates(state.conversation.bounds).Ok?
    requires MessageFits(state, entry) && OutcomeFits(state, entry) && Planned(state, provider, entry)
    requires entry.messageCall.Some? ==> Recordable(entry.messageCall.value)
    requires entry.outcomeCall.Some? ==> Recordable(entry.outcomeCall.value.result)
    requires entry.plan.closeReason.Some? ==> TurnOutcome(entry) == Upshot(state, provider)
    requires OutcomeTokens(entry) == Spent(state, provider) - TokensOf(Added(state, provider))
    requires entry.plan.closeReason.None? ==> OutcomeTokens(entry) == 0
    ensures ApplyTurn(state, entry).Ok? && Follows(state, provider, ApplyTurn(state, entry).value)
  {
    MessageIsAccepted(state, entry);
    if entry.plan.acceptMessage {
      TokensOfOne(SentMessage(entry));
    }
    if entry.plan.closeReason.Some? {
      OutcomeIsAccepted(state, entry, ApplyMessage(state, entry).value);
    }
  }

  lemma TokensOfOne(message: Message)
    ensures TokensOf([message]) == message.outputTokens
  {
    assert [message][..0] == [];
  }

  /**
   * What one turn does with any answer that can be recorded: what is said, when and why the
   * conversation ends, what comes of it, and what it costs.
   */
  lemma {:induction false} TurnFollowsAnswer(state: State, provider: Option<Provider>)
    requires Safe(state) && state.conversation.closed.None? && ConversationTermCandidates(state.conversation.bounds).Ok?
    requires ConversationMessageOptions(state.conversation, state.messages).Ok?
    requires !AbortsOn(OpportunityOf(state), provider)
    ensures TakeTurn(state, provider).Ok? && Follows(state, provider, TakeTurn(state, provider).value)
  {
    PreparedTurnFits(state, provider);
    PlanFollowsAnswer(state, provider);
    var entry := PrepareTurn(OpportunityOf(state), provider).value;
    if entry.plan.closeReason.Some? {
      OutcomeFollowsAnswer(state, provider, entry);
    }
    AppliedFollowsAnswer(state, provider, entry);
  }

  ghost predicate Follows(state: State, provider: Option<Provider>, after: State)
    requires ConversationTermCandidates(state.conversation.bounds).Ok?
  {
    && after.messages == state.messages + Added(state, provider)
    && after.conversation.outputTokensUsed == state.conversation.outputTokensUsed + Spent(state, provider)
    && after.conversation.closed == match Ending(state, provider)
                                    case None => None
                                    case Some(reason) => Some((reason, Upshot(state, provider)))
  }

  /** The parts of a conversation that are fixed when it opens. */
  predicate SameTerms(before: Conversation, after: Conversation) {
    && after.id == before.id && after.participants == before.participants && after.bounds == before.bounds
    && after.maxTurns == before.maxTurns && after.outputTokenBudget == before.outputTokenBudget
  }

  /** A whole conversation: one provider answer per turn until it closes; an aborted tick changes nothing. */
  function Run(state: State, providers: seq<Option<Provider>>): State
    decreases |providers|
  {
    if providers == [] || state.conversation.closed.Some? ||
       ConversationMessageOptions(state.conversation, state.messages).Err? then state
    else
      var result := TakeTurn(state, providers[0]);
      Run(if result.Ok? then result.value else state, providers[1..])
  }

  /** How many turns of the run take place without aborting their tick. */
  ghost function CompletedTurns(state: State, providers: seq<Option<Provider>>): nat
    decreases |providers|
  {
    if providers == [] || state.conversation.closed.Some? ||
       ConversationMessageOptions(state.conversation, state.messages).Err? then 0
    else if AbortsOn(OpportunityOf(state), providers[0]) then CompletedTurns(state, providers[1..])
    else
      var result := TakeTurn(state, providers[0]);
      1 + CompletedTurns(if result.Ok? then result.value else state, providers[1..])
  }

  /** Every answer the provider would give can be recorded. */
  ghost predicate AllRecordable(providers: seq<Option<Provider>>) {
    forall i | 0 <= i < |providers| && providers[i].Some? ::
      Recordable(providers[i].value.message) && Recordable(providers[i].value.outcome)
  }

  /** The provider accepts the latest terms of the other side, within the tokens that are left. */
  predicate Accepts(state: State, provider: Option<Provider>) {
    var opposing := TermsFromOther(NextSpeaker(state.conversation, state.messages), state.messages);
    && opposing.Some? && provider.Some? && provider.value.message.Success?
    && provider.value.message.value == Proposal(AcceptAction, MessageParams(state.conversation.id, AcceptKind, opposing))
    && provider.value.message.outputTokens <= Remaining(state.conversation)
  }

  /**
   * A turn ends in agreement exactly when the provider accepts the terms on the table; these are
   * the terms agreed on, whatever the outcome call says.
   */
  lemma {:induction false} AgreementExactlyWhenAccepted(state: State, provider: Option<Provider>)
    requires Safe(state) && state.conversation.closed.None? && ConversationTermCandidates(state.conversation.bounds).Ok?
    requires ConversationMessageOptions(state.conversation, state.messages).Ok?
    requires !AbortsOn(OpportunityOf(state), provider)
    ensures TakeTurn(state, provider).Ok?
    ensures var after := TakeTurn(state, provider).value.conversation.closed;
            var opposing := TermsFromOther(NextSpeaker(state.conversation, state.messages), state.messages);
            && (after.Some? && (after.value.0 == Agreement || after.value.1.kind == AgreementOutcome) <==> Accepts(state, provider))
            && (Accepts(state, provider) ==> after == Some((Agreement, Outcome(AgreementOutcome, opposing))))
  {
    TurnFollowsAnswer(state, provider);
    AcceptanceEndsInAgreement(state, provider);
  }

  lemma {:induction false} AcceptanceEndsInAgreement(state: State, provider: Option<Provider>)
    requires ConversationTermCandidates(state.conversation.bounds).Ok?
    ensures Ending(state, provider) == Some(Agreement) <==> Accepts(state, provider)
    ensures Accepts(state, provider) ==>
              Agreed(state, provider) == TermsFromOther(NextSpeaker(state.conversation, state.messages), state.messages)
    ensures Ending(state, provider) == Some(Agreement) <==> Upshot(state, provider).kind == AgreementOutcome
  {
    AcceptingIsSaying(state, provider);
  }

  lemma {:induction false} AcceptingIsSaying(state: State, provider: Option<Provider>)
    requires ConversationTermCandidates(state.conversation.bounds).Ok?
    ensures Accepts(state, provider) <==> Heard(state, provider) && provider.value.message.value.params.kind == AcceptKind
  {
    if provider.Some? && provider.value.message.Success? && provider.value.message.value.Proposal? {
      var value := provider.value.message.value;
      SayingToAccept(state.conversation, state.messages, DecisionOption(value.actionId, value.params));
    }
  }

  /** A provider that proposes this option at no cost, and names no outcome. */
  function Saying(option: DecisionOption): Option<Provider> {
    Some(Provider(Success(Proposal(option.actionId, option.params), 0, true), Fallback(true)))
  }

  /** Whatever may be said can be said: the message goes out as proposed. */
  lemma {:induction false} EveryOptionCanBeChosen(state: State, option: DecisionOption)
    requires Safe(state) && state.conversation.closed.None? && ConversationTermCandidates(state.conversation.bounds).Ok?
    requires Sayable(state.conversation, state.messages, option)
    ensures ConversationMessageOptions(state.conversation, state.messages).Ok? && TakeTurn(state, Saying(option)).Ok?
    ensures var after := TakeTurn(state, Saying(option)).value;
            var speaker := NextSpeaker(state.conversation, state.messages);
            && after.messages == state.messages + [Message(speaker, option.params.kind, option.params.terms, 0)]
            && (after.conversation.closed.Some? <==>
                  || option.params.kind == AcceptKind || option.params.kind == DeclineKind
                  || SaidBefore(speaker, option.params.terms, state.messages)
                  || |state.messages| + 1 == state.conversation.maxTurns)
  {
    assert DecisionOption(option.actionId, option.params) == option;
    TurnFollowsAnswer(state, Saying(option));
  }

  function Offering(conversation: Conversation, k: nat): DecisionOption
    requires ConversationTermCandidates(conversation.bounds).Ok? && k < |ConversationTermCandidates(conversation.bounds).value|
  {
    DecisionOption(TermsAction(OfferKind, k + 1),
                   MessageParams(conversation.id, OfferKind, Some(ConversationTermCandidates(conversation.bounds).value[k])))
  }

  /** The first speaker puts a candidate on the table. */
  lemma {:induction false} OfferIsMade(conversation: Conversation, k: nat) returns (offered: State)
    requires Opened(conversation) && 2 <= conversation.maxTurns
    requires conversation.turns == 0 && conversation.outputTokensUsed == 0 && conversation.closed.None?
    requires ConversationTermCandidates(conversation.bounds).Ok? && k < |ConversationTermCandidates(conversation.bounds).value|
    ensures var state, offer := State(conversation, []), Offering(conversation, k);
            && ConversationMessageOptions(conversation, []).Ok? && TakeTurn(state, Saying(offer)) == Ok(offered)
            && Safe(offered) && offered.conversation.closed.None? && SameTerms(conversation, offered.conversation)
            && offered.messages == [Message(conversation.participants.0, OfferKind, offer.params.terms, 0)]
  {
    var state, offer := State(conversation, []), Offering(conversation, k);
    OpeningIsSafe(conversation);
    assert OffersCandidate(offer, ConversationTermCandidates(conversation.bounds).value);
    EveryOptionCanBeChosen(state, offer);
    TurnIsSafe(state, Saying(offer));
    offered := TakeTurn(state, Saying(offer)).value;
  }

  lemma {:induction false} RunOfTwo(state: State, a: Option<Provider>, b: Option<Provider>, middle: State, last: State)
    requires state.conversation.closed.None? && ConversationMessageOptions(state.conversation, state.messages).Ok?
    requires middle.conversation.closed.None? && ConversationMessageOptions(middle.conversation, middle.messages).Ok?
    requires TakeTurn(state, a) == Ok(middle) && TakeTurn(middle, b) == Ok(last)
    ensures Run(state, [a, b]) == last
  {
    assert [a, b][1..] == [b] && [b][1..] == [];
    assert Run(middle, [b]) == Run(last, []);
  }

  /** Every listed candidate can be what a fresh conversation of two turns or more agrees on. */
  lemma {:induction false} EveryCandidateCanBeAgreed(conversation: Conversation, k: nat) returns (providers: seq<Option<Provider>>)
    requires Opened(conversation) && 2 <= conversation.maxTurns
    requires conversation.turns == 0 && conversation.outputTokensUsed == 0 && conversation.closed.None?
    requires ConversationTermCandidates(conversation.bounds).Ok? && k < |ConversationTermCandidates(conversation.bounds).value|
    ensures |providers| == 2
    ensures Run(State(conversation, []), providers).conversation.closed ==
            Some((Agreement, Outcome(AgreementOutcome, Some(ConversationTermCandidates(conversation.bounds).value[k]))))
  {
    var terms := Some(ConversationTermCandidates(conversation.bounds).value[k]);
    var accept := DecisionOption(AcceptAction, MessageParams(conversation.id, AcceptKind, terms));
    var offered := OfferIsMade(conversation, k);
    SoleOffer(offered, terms);
    AgreementExactlyWhenAccepted(offered, Saying(accept));
    RunOfTwo(State(conversation, []), Saying(Offering(conversation, k)), Saying(accept), offered,
             TakeTurn(offered, Saying(accept)).value);
    providers := [Saying(Offering(conversation, k)), Saying(accept)];
  }

  lemma SoleOffer(state: State, terms: Option<Terms>)
    requires Safe(state) && terms.Some? && state.conversation.closed.None?
    requires state.messages == [Message(state.conversation.participants.0, OfferKind, terms, 0)]
    ensures TermsFromOther(NextSpeaker(state.conversation, state.messages), state.messages) == terms
  {
  }

  /** A newly opened conversation is safe. */
  lemma OpeningIsSafe(conversation: Conversation)
    requires Opened(conversation)
    requires conversation.turns == 0 && conversation.outputTokensUsed == 0 && conversation.closed.None?
    ensures Safe(State(conversation, []))
  {
  }

  /**
   * Under any provider answers a conversation stays safe. While it is open each completed turn
   * has added a message, and there is room for one more: after `maxTurns` of them it is closed.
   */
  lemma {:induction false} ConversationIsSafe(state: State, providers: seq<Option<Provider>>)
    requires Safe(state)
    ensures Safe(Run(state, providers))
    ensures Run(state, providers).conversation.closed.None? ==>
              |Run(state, providers).messages| == |state.messages| + CompletedTurns(state, providers)
              < state.conversation.maxTurns
    ensures Run(state, providers).conversation.closed.None? && AllRecordable(providers) &&
            ConversationTermCandidates(state.conversation.bounds).Ok? ==>
              CompletedTurns(state, providers) == |providers|
    decreases |providers|
  {
    if providers != [] && state.conversation.closed.None? && ConversationTermCandidates(state.conversation.bounds).Ok? {
      TurnIsSafe(state, providers[0]);
      var result := TakeTurn(state, providers[0]);
      assert AllRecordable(providers) ==> AllRecordable(providers[1..]);
      ConversationIsSafe(if result.Ok? then result.value else state, providers[1..]);
    }
  }

  /**
   * An opened conversation is sure to close, in `maxTurns` turns of a provider whose answers can
   * be recorded, exactly when terms exist to be offered; otherwise nothing ever happens to it.
   */
  lemma ClosesExactlyWhenTermsExist(conversation: Conversation)
    requires Opened(conversation)
    requires conversation.turns == 0 && conversation.outputTokensUsed == 0 && conversation.closed.None?
    ensures ConversationTermCandidates(conversation.bounds).Ok? <==>
            forall providers | AllRecordable(providers) && conversation.maxTurns <= |providers| ::
              Run(State(conversation, []), providers).conversation.closed.Some?
    ensures ConversationTermCandidates(conversation.bounds).Err? ==>
              forall providers :: Run(State(conversation, []), providers) == State(conversation, [])
  {
    var state := State(conversation, []);
    if ConversationTermCandidates(conversation.bounds).Ok? {
      forall providers | AllRecordable(providers) && conversation.maxTurns <= |providers|
        ensures Run(state, providers).conversation.closed.Some?
      {
        ConversationIsSafe(state, providers);
      }
    } else {
      var silent := seq(conversation.maxTurns, _ => None);
      assert AllRecordable(silent) && Run(state, silent) == state;
    }
  }
}
