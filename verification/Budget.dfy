/**
 * The LLM budget: a cost ceiling for the run and a daily token allowance per agent,
 * enforced by separate authorize and charge steps around calls that overlap in time.
 */
module Budget {
  import opened Shared

  const WARNING_BASIS_POINTS: int := 8_000
  const FULL_BASIS_POINTS: int := 10_000
  const MICROCENTS_PER_CENT: int := 1_000_000
  const LLM_MODULE_IDS: set<string> := {"agent_decisions", "conversations", "news"}

  datatype Tier = Tier2 | Tier3

  datatype Price = Price(inputPrice: int, cachedInputPrice: Option<int>, outputPrice: int)

  datatype Config = Config(ceilingCents: int, dailyTokens: int, prices: map<string, Price>) {
    predicate Valid() {
      0 < ceilingCents && 1 <= dailyTokens && SafeInteger(dailyTokens)
    }

    function Ceiling(): int {
      ceilingCents * MICROCENTS_PER_CENT
    }
  }

  datatype Request = Request(agentId: Option<string>, tick: int, moduleId: string, tier: Tier) {
    predicate InBounds() {
      0 <= tick && SafeInteger(tick) && moduleId in LLM_MODULE_IDS
    }
  }

  /** What a provider reports about one successful, uncached call. */
  datatype Usage = Usage(requestHash: string, model: string, inputTokens: int, cachedInputTokens: int, outputTokens: int)

  datatype EventType = UsageRecorded | AgentWarning | AgentExhausted | Threshold80 | Threshold100 | AutoPause

  datatype Event = Event(
    eventType: EventType, tick: int, agentId: Option<string>, requestHash: string, cost: nat, runCost: int)

  datatype AgentDay = AgentDay(inputTokens: int, cachedInputTokens: int, outputTokens: int, warning: bool, exhausted: bool) {
    function Tokens(): int {
      inputTokens + outputTokens
    }
  }

  type DayKey = (string, int)

  datatype State = State(
    inputTokens: int, cachedInputTokens: int, outputTokens: int, cost: int,
    warning: bool, exhausted: bool, autoPause: bool,
    agentDays: map<DayKey, AgentDay>, events: seq<Event>)

  datatype Controls = Controls(llmEnabled: bool, frozenModules: set<string>, quarantines: map<string, int>)

  const FRESH := State(0, 0, 0, 0, false, false, false, map[], [])

  /******* Prices and thresholds *******/

  /** The exact price of one call, or nothing when counts or prices are unusable. */
  function LlmCostMicrocents(usage: Usage, price: Price): (r: Option<nat>) {
    if !SafeInteger(usage.inputTokens) || usage.inputTokens < 0 then None
    else if !SafeInteger(usage.outputTokens) || usage.outputTokens < 0 then None
    else if !(0 <= usage.cachedInputTokens <= usage.inputTokens) then None
    else if price.inputPrice < 0 || price.outputPrice < 0 then None
    else if price.cachedInputPrice.Some? && price.cachedInputPrice.value < 0 then None
    else if 0 < usage.cachedInputTokens && price.cachedInputPrice.None? then None
    else
      var cachedPrice := if price.cachedInputPrice.Some? then price.cachedInputPrice.value else 0;
      NonNegative(usage.inputTokens - usage.cachedInputTokens, price.inputPrice);
      NonNegative(usage.cachedInputTokens, cachedPrice);
      NonNegative(usage.outputTokens, price.outputPrice);
      Some((usage.inputTokens - usage.cachedInputTokens) * price.inputPrice
           + usage.cachedInputTokens * cachedPrice
           + usage.outputTokens * price.outputPrice)
  }

  lemma NonNegative(a: int, b: int)
    requires 0 <= a && 0 <= b
    ensures 0 <= a * b
  {
  }

  predicate Reached(numerator: int, denominator: int, basisPoints: int) {
    denominator * basisPoints <= numerator * FULL_BASIS_POINTS
  }

  predicate Warned(config: Config, cost: int) {
    Reached(cost, config.Ceiling(), WARNING_BASIS_POINTS)
  }

  predicate Spent(config: Config, cost: int) {
    Reached(cost, config.Ceiling(), FULL_BASIS_POINTS)
  }

  /******* Authorization *******/

  datatype Reason =
    | LlmDisabled | ModuleFrozen | AgentQuarantined | AgentDailyTokensExhausted | RunCostExhausted
    | AgentDailyTokensWarning | RunCostWarning

  datatype Authorization =
    | Allow(requestedTier: Tier, effectiveTier: Tier, degradation: Option<Reason>)
    | Block(requestedTier: Tier, reason: Reason)

  function AgentTokens(s: State, request: Request): int {
    if request.agentId.Some? && (request.agentId.value, request.tick) in s.agentDays
    then s.agentDays[(request.agentId.value, request.tick)].Tokens()
    else 0
  }

  function Authorize(config: Config, s: State, controls: Controls, request: Request): Result<Authorization> {
    if !request.InBounds() then Err(ValidationFailed)
    else if !controls.llmEnabled then Ok(Block(request.tier, LlmDisabled))
    else if request.moduleId in controls.frozenModules then Ok(Block(request.tier, ModuleFrozen))
    else if request.agentId.Some? && request.agentId.value in controls.quarantines
            && request.tick <= controls.quarantines[request.agentId.value] then
      Ok(Block(request.tier, AgentQuarantined))
    else if Spent(config, s.cost) then Ok(Block(request.tier, RunCostExhausted))
    else if config.dailyTokens <= AgentTokens(s, request) then Ok(Block(request.tier, AgentDailyTokensExhausted))
    else
      var degradation :=
        if Warned(config, s.cost) then Some(RunCostWarning)
        else if Reached(AgentTokens(s, request), config.dailyTokens, WARNING_BASIS_POINTS) then Some(AgentDailyTokensWarning)
        else None;
      var effective := if degradation.Some? && request.tier == Tier3 then Tier2 else request.tier;
      Ok(Allow(request.tier, effective, if effective == request.tier then None else degradation))
  }

  /** Every token costs its price, and a call without tokens costs nothing. */
  lemma EachTokenCostsItsPrice(usage: Usage, price: Price)
    requires LlmCostMicrocents(usage, price).Some?
    ensures var cost := LlmCostMicrocents(usage, price).value;
            && (usage.inputTokens == usage.outputTokens == 0 ==> cost == 0)
            && (usage.cachedInputTokens < usage.inputTokens ==>
                  LlmCostMicrocents(usage.(inputTokens := usage.inputTokens - 1), price) == Some(cost - price.inputPrice))
            && (0 < usage.cachedInputTokens ==>
                  && price.cachedInputPrice.Some?
                  && LlmCostMicrocents(usage.(inputTokens := usage.inputTokens - 1,
                                              cachedInputTokens := usage.cachedInputTokens - 1), price)
                     == Some(cost - price.cachedInputPrice.value))
            && (0 < usage.outputTokens ==>
                  LlmCostMicrocents(usage.(outputTokens := usage.outputTokens - 1), price) == Some(cost - price.outputPrice))
  {
    OneTokenLess(usage.inputTokens - usage.cachedInputTokens, price.inputPrice);
    OneTokenLess(usage.outputTokens, price.outputPrice);
    OneTokenLess(usage.cachedInputTokens, if price.cachedInputPrice.Some? then price.cachedInputPrice.value else 0);
  }

  lemma OneTokenLess(n: int, price: int)
    ensures (n - 1) * price == n * price - price && 0 * price == 0
  {
  }

  /** A call can be priced exactly when counts and prices are not negative and cached input has a price. */
  lemma PricedExactlyWhen(usage: Usage, price: Price)
    ensures LlmCostMicrocents(usage, price).Some? <==>
              && 0 <= usage.cachedInputTokens <= usage.inputTokens < 0x20_0000_0000_0000
              && 0 <= usage.outputTokens < 0x20_0000_0000_0000
              && 0 <= price.inputPrice && 0 <= price.outputPrice
              && match price.cachedInputPrice
                 case None => usage.cachedInputTokens == 0
                 case Some(cached) => 0 <= cached
  {
  }

  /** The tokens counted for an agent on one day. */
  function DayTokens(s: State, agent: string, tick: int): int {
    if (agent, tick) in s.agentDays then s.agentDays[(agent, tick)].inputTokens + s.agentDays[(agent, tick)].outputTokens
    else 0
  }

  /** The request is one the gateway knows how to decide. */
  predicate WellFormed(request: Request) {
    0 <= request.tick < 0x20_0000_0000_0000 && request.moduleId in ["agent_decisions", "conversations", "news"]
  }

  /** Nobody has switched the model, the module or the agent off. */
  predicate Enabled(controls: Controls, request: Request) {
    && controls.llmEnabled && request.moduleId !in controls.frozenModules
    && (request.agentId.Some? && request.agentId.value in controls.quarantines ==>
          controls.quarantines[request.agentId.value] < request.tick)
  }

  /** Run and agent have used less than `percent` of what they may. */
  predicate Below(config: Config, s: State, request: Request, percent: int) {
    && 100 * s.cost < percent * (1_000_000 * config.ceilingCents)
    && (request.agentId.Some? ==> 100 * DayTokens(s, request.agentId.value, request.tick) < percent * config.dailyTokens)
  }

  /**
   * A call is allowed exactly when nothing is switched off and both budgets have something left.
   * From 80% of either on it is served on the lower tier, and only then.
   */
  lemma AllowedExactlyWhen(config: Config, s: State, controls: Controls, request: Request)
    requires config.Valid()
    ensures var r := Authorize(config, s, controls, request);
            && (r.Ok? <==> WellFormed(request))
            && (r.Ok? ==> r.value.requestedTier == request.tier)
            && (r.Ok? && r.value.Allow? <==>
                  WellFormed(request) && Enabled(controls, request) && Below(config, s, request, 100))
            && (r.Ok? && r.value.Allow? ==>
                  && r.value.effectiveTier == (if Below(config, s, request, 80) then request.tier else Tier2)
                  && r.value.degradation ==
                       (if r.value.effectiveTier == request.tier then None
                        else if 100 * s.cost < 80 * (1_000_000 * config.ceilingCents) then Some(AgentDailyTokensWarning)
                        else Some(RunCostWarning)))
  {
  }

  /** A refusal names the first thing in the way: kill switch, module, quarantine, run budget, daily allowance. */
  lemma RefusedBecause(config: Config, s: State, controls: Controls, request: Request)
    requires config.Valid() && Authorize(config, s, controls, request).Ok?
    requires Authorize(config, s, controls, request).value.Block?
    ensures match Authorize(config, s, controls, request).value.reason
            case LlmDisabled => !controls.llmEnabled
            case ModuleFrozen => controls.llmEnabled && request.moduleId in controls.frozenModules
            case AgentQuarantined =>
              controls.llmEnabled && request.moduleId !in controls.frozenModules && !Enabled(controls, request)
            case RunCostExhausted => Enabled(controls, request) && 1_000_000 * config.ceilingCents <= s.cost
            case AgentDailyTokensExhausted =>
              && Enabled(controls, request) && s.cost < 1_000_000 * config.ceilingCents
              && request.agentId.Some? && config.dailyTokens <= DayTokens(s, request.agentId.value, request.tick)
            case _ => false
  {
  }

  /******* Charging *******/

  /**
   * The charge in progress. The event observer returns normally `left` more times and
   * throws on the event after that; a throw abandons the rest of the charge.
   */
  datatype Progress = Progress(state: State, left: nat, threw: bool)

  function Emit(p: Progress, eventType: EventType, request: Request, hash: string, cost: nat): Progress {
    var event := Event(eventType, request.tick, request.agentId, hash, cost, p.state.cost);
    Progress(p.state.(events := p.state.events + [event]), if p.left == 0 then 0 else p.left - 1, p.left == 0)
  }

  function CountRun(s: State, request: Request, usage: Usage, cost: nat, survives: nat): Progress {
    var counted := s.(inputTokens := s.inputTokens + usage.inputTokens,
                      cachedInputTokens := s.cachedInputTokens + usage.cachedInputTokens,
                      outputTokens := s.outputTokens + usage.outputTokens,
                      cost := s.cost + cost);
    Emit(Progress(counted, survives, false), UsageRecorded, request, usage.requestHash, cost)
  }

  const NO_USAGE := AgentDay(0, 0, 0, false, false)

  function Used(day: AgentDay, usage: Usage): AgentDay {
    day.(inputTokens := day.inputTokens + usage.inputTokens,
         cachedInputTokens := day.cachedInputTokens + usage.cachedInputTokens,
         outputTokens := day.outputTokens + usage.outputTokens)
  }

  /** An entry already in the map is changed in place; a new one is stored only at the end. */
  function Touch(p: Progress, key: DayKey, day: AgentDay, known: bool): Progress {
    if known then p.(state := p.state.(agentDays := p.state.agentDays[key := day])) else p
  }

  predicate WarnsAgent(config: Config, day: AgentDay) {
    !day.warning && Reached(day.Tokens(), config.dailyTokens, WARNING_BASIS_POINTS)
  }

  predicate ExhaustsAgent(config: Config, day: AgentDay) {
    !day.exhausted && config.dailyTokens <= day.Tokens()
  }

  /** Stores the day as it now is and, when `notify` says so, announces it. */
  function Note(p: Progress, key: DayKey, day: AgentDay, known: bool, notify: bool, eventType: EventType,
                request: Request, hash: string, cost: nat): Progress
  {
    if notify then Emit(Touch(p, key, day, known), eventType, request, hash, cost) else Touch(p, key, day, known)
  }

  function FinishAgentDay(config: Config, p: Progress, key: DayKey, day: AgentDay, known: bool,
                          request: Request, hash: string, cost: nat): Progress
  {
    if p.threw then p
    else
      var exhaust := ExhaustsAgent(config, day);
      var final := if exhaust then day.(exhausted := true) else day;
      var noted := Note(p, key, final, known, exhaust, AgentExhausted, request, hash, cost);
      if noted.threw then noted else noted.(state := noted.state.(agentDays := noted.state.agentDays[key := final]))
  }

  function CountAgentDay(config: Config, p: Progress, request: Request, usage: Usage, cost: nat): Progress {
    if p.threw || request.agentId.None? then p
    else
      var key, hash := (request.agentId.value, request.tick), usage.requestHash;
      var known := key in p.state.agentDays;
      var day0 := Used(if known then p.state.agentDays[key] else NO_USAGE, usage);
      var warn := WarnsAgent(config, day0);
      var day1 := if warn then day0.(warning := true) else day0;
      FinishAgentDay(config, Note(p, key, day1, known, warn, AgentWarning, request, hash, cost),
                     key, day1, known, request, hash, cost)
  }

  function CheckWarning(config: Config, p: Progress, request: Request, hash: string, cost: nat): Progress {
    if p.threw || p.state.warning || !Warned(config, p.state.cost) then p
    else Emit(p.(state := p.state.(warning := true)), Threshold80, request, hash, cost)
  }

  function CheckCeiling(config: Config, p: Progress, request: Request, hash: string, cost: nat): Progress {
    if p.threw || p.state.exhausted || !Spent(config, p.state.cost) then p
    else
      var p1 := Emit(p.(state := p.state.(exhausted := true, autoPause := true)), Threshold100, request, hash, cost);
      if p1.threw then p1 else Emit(p1, AutoPause, request, hash, cost)
  }

  function Thresholds(config: Config, p: Progress, request: Request, hash: string, cost: nat): Progress {
    CheckCeiling(config, CheckWarning(config, p, request, hash, cost), request, hash, cost)
  }

  function Charge(config: Config, s: State, request: Request, usage: Usage, cost: nat, survives: nat): Progress {
    var counted := CountRun(s, request, usage, cost, survives);
    if counted.threw then counted
    else
      var day := CountAgentDay(config, counted, request, usage, cost);
      if day.threw then day else Thresholds(config, day, request, usage.requestHash, cost)
  }

  /** One charge: nothing changes when the call has no usable price. */
  function RecordSuccess(config: Config, s: State, request: Request, usage: Usage, survives: nat): (Option<nat>, Progress) {
    var cost := if usage.model in config.prices then LlmCostMicrocents(usage, config.prices[usage.model]) else None;
    match cost
    case None => (None, Progress(s, survives, true))
    case Some(c) => (cost, Charge(config, s, request, usage, c, survives))
  }

  class InMemoryLlmBudgetController {
    const config: Config
    var inputTokens: int
    var cachedInputTokens: int
    var outputTokens: int
    var cost: int
    var warning: bool
    var exhausted: bool
    var autoPause: bool
    var agentDays: map<DayKey, AgentDay>
    var events: seq<Event>
    var llmEnabled: bool
    var frozenModules: set<string>
    var quarantines: map<string, int>

    ghost function View(): State
      reads this
    {
      State(inputTokens, cachedInputTokens, outputTokens, cost, warning, exhausted, autoPause, agentDays, events)
    }

    ghost function Settings(): Controls
      reads this
    {
      Controls(llmEnabled, frozenModules, quarantines)
    }

    constructor (config: Config, enabled: bool)
      requires config.Valid()
      ensures this.config == config && View() == FRESH && Settings() == Controls(enabled, {}, map[])
    {
      this.config := config;
      inputTokens, cachedInputTokens, outputTokens, cost := 0, 0, 0, 0;
      warning, exhausted, autoPause := false, false, false;
      agentDays, events := map[], [];
      llmEnabled, frozenModules, quarantines := enabled, {}, map[];
    }

    /** Reads only: deciding changes nothing. */
    method AuthorizeCall(request: Request) returns (r: Result<Authorization>)
      ensures r == Authorize(config, View(), Settings(), request)
    {
      if !request.InBounds() {
        return Err(ValidationFailed);
      }
      if !llmEnabled {
        return Ok(Block(request.tier, LlmDisabled));
      }
      if request.moduleId in frozenModules {
        return Ok(Block(request.tier, ModuleFrozen));
      }
      if request.agentId.Some? && request.agentId.value in quarantines
         && request.tick <= quarantines[request.agentId.value] {
        return Ok(Block(request.tier, AgentQuarantined));
      }
      if Spent(config, cost) {
        return Ok(Block(request.tier, RunCostExhausted));
      }
      var agentTokens := 0;
      if request.agentId.Some? && (request.agentId.value, request.tick) in agentDays {
        agentTokens := agentDays[(request.agentId.value, request.tick)].Tokens();
      }
      if config.dailyTokens <= agentTokens {
        return Ok(Block(request.tier, AgentDailyTokensExhausted));
      }
      var degradation := None;
      if Warned(config, cost) {
        degradation := Some(RunCostWarning);
      } else if Reached(agentTokens, config.dailyTokens, WARNING_BASIS_POINTS) {
        degradation := Some(AgentDailyTokensWarning);
      }
      if degradation.Some? && request.tier == Tier3 {
        return Ok(Allow(request.tier, Tier2, degradation));
      }
      return Ok(Allow(request.tier, request.tier, None));
    }

    /** Pushes one event and shows it to the observer, which may throw. */
    method EmitEvent(eventType: EventType, request: Request, hash: string, cost: nat, left: nat)
      returns (rest: nat, threw: bool)
      modifies this`events
      ensures Progress(View(), rest, threw) == Emit(Progress(old(View()), left, false), eventType, request, hash, cost)
    {
      events := events + [Event(eventType, request.tick, request.agentId, hash, cost, this.cost)];
      if left == 0 {
        return 0, true;
      }
      return left - 1, false;
    }

    /** The agent's day: an entry already known is updated while the events go out. */
    method ChargeAgentDay(request: Request, usage: Usage, cost: nat, left: nat) returns (rest: nat, threw: bool)
      modifies this`events, this`agentDays
      ensures Progress(View(), rest, threw) ==
              CountAgentDay(config, Progress(old(View()), left, false), request, usage, cost)
    {
      rest, threw := left, false;
      if request.agentId.None? {
        return;
      }
      var key := (request.agentId.value, request.tick);
      var known := key in agentDays;
      var day := Used(if known then agentDays[key] else NO_USAGE, usage);
      var warn := WarnsAgent(config, day);
      if warn {
        day := day.(warning := true);
      }
      if known {
        agentDays := agentDays[key := day];
      }
      if warn {
        rest, threw := EmitEvent(AgentWarning, request, usage.requestHash, cost, rest);
        if threw {
          return;
        }
      }
      var exhaust := ExhaustsAgent(config, day);
      if exhaust {
        day := day.(exhausted := true);
      }
      if known {
        agentDays := agentDays[key := day];
      }
      if exhaust {
        rest, threw := EmitEvent(AgentExhausted, request, usage.requestHash, cost, rest);
        if threw {
          return;
        }
      }
      agentDays := agentDays[key := day];
    }

    method CheckThresholds(request: Request, hash: string, cost: nat, left: nat) returns (rest: nat, threw: bool)
      modifies this`events, this`warning, this`exhausted, this`autoPause
      ensures Progress(View(), rest, threw) ==
              Thresholds(config, Progress(old(View()), left, false), request, hash, cost)
    {
      rest, threw := left, false;
      if !warning && Warned(config, this.cost) {
        warning := true;
        rest, threw := EmitEvent(Threshold80, request, hash, cost, rest);
        if threw {
          return;
        }
      }
      if !exhausted && Spent(config, this.cost) {
        exhausted, autoPause := true, true;
        rest, threw := EmitEvent(Threshold100, request, hash, cost, rest);
        if threw {
          return;
        }
        rest, threw := EmitEvent(AutoPause, request, hash, cost, rest);
      }
    }

    /** Charges one successful, uncached call; `charged` is empty when the call could not be priced. */
    method Record(request: Request, usage: Usage, survives: nat) returns (charged: Option<nat>, threw: bool)
      modifies this`inputTokens, this`cachedInputTokens, this`outputTokens, this`cost
      modifies this`events, this`agentDays, this`warning, this`exhausted, this`autoPause
      ensures var (c, p) := RecordSuccess(config, old(View()), request, usage, survives);
              charged == c && threw == p.threw && View() == p.state
    {
      if usage.model !in config.prices {
        return None, true;
      }
      charged := LlmCostMicrocents(usage, config.prices[usage.model]);
      if charged.None? {
        return None, true;
      }
      inputTokens := inputTokens + usage.inputTokens;
      cachedInputTokens := cachedInputTokens + usage.cachedInputTokens;
      outputTokens := outputTokens + usage.outputTokens;
      cost := cost + charged.value;
      var left;
      left, threw := EmitEvent(UsageRecorded, request, usage.requestHash, charged.value, survives);
      if threw {
        return;
      }
      left, threw := ChargeAgentDay(request, usage, charged.value, left);
      if threw {
        return;
      }
      left, threw := CheckThresholds(request, usage.requestHash, charged.value, left);
    }
  }

  /******* What every charge keeps *******/

  function UsageTotal(events: seq<Event>): int {
    if events == [] then 0
    else
      var last := events[|events| - 1];
      UsageTotal(events[..|events| - 1]) + (if last.eventType == UsageRecorded then last.cost else 0)
  }

  /** Every event carries the sum of the usage recorded up to and including it. */
  ghost predicate RunningSums(events: seq<Event>) {
    forall i | 0 <= i < |events| :: events[i].runCost == UsageTotal(events[..i + 1])
  }

  /** The run-level events have a place in the order 80% warning, ceiling, pause request. */
  function Rank(event: Event): nat {
    match event.eventType
    case Threshold80 => 1
    case Threshold100 => 2
    case AutoPause => 3
    case _ => 0
  }

  /** Each run-level event occurs at most once, and in that order. */
  ghost predicate OnceInOrder(events: seq<Event>) {
    forall i, j | 0 <= i < j < |events| && 0 < Rank(events[i]) && 0 < Rank(events[j]) :: Rank(events[i]) < Rank(events[j])
  }

  ghost predicate Emitted(events: seq<Event>, eventType: EventType) {
    exists i | 0 <= i < |events| :: events[i].eventType == eventType
  }

  ghost predicate Sums(s: State) {
    s.cost == UsageTotal(s.events) && RunningSums(s.events)
  }

  ghost predicate Flags(config: Config, s: State) {
    && OnceInOrder(s.events)
    && (s.warning <==> Emitted(s.events, Threshold80))
    && (s.exhausted <==> Emitted(s.events, Threshold100))
    && (Emitted(s.events, AutoPause) ==> s.exhausted)
    && (s.exhausted ==> s.warning)
    && s.autoPause == s.exhausted
    && (s.warning ==> Warned(config, s.cost))
    && (s.exhausted ==> Spent(config, s.cost))
  }

  /** Holds in every reachable state, however the observer behaves. */
  ghost predicate Sound(config: Config, s: State) {
    0 <= s.cost && Sums(s) && Flags(config, s)
  }

  /** The flags say exactly which thresholds the cost, in millionths of a cent, has reached. */
  predicate Exact(config: Config, s: State) {
    && (s.warning <==> 800_000 * config.ceilingCents <= s.cost)
    && (s.exhausted <==> 1_000_000 * config.ceilingCents <= s.cost)
  }

  lemma EmitKeepsSums(p: Progress, eventType: EventType, request: Request, hash: string, cost: nat)
    requires RunningSums(p.state.events)
    requires p.state.cost == UsageTotal(p.state.events) + (if eventType == UsageRecorded then cost else 0)
    ensures Sums(Emit(p, eventType, request, hash, cost).state)
  {
    var after := Emit(p, eventType, request, hash, cost).state.events;
    var n := |p.state.events|;
    assert after[..n] == p.state.events && after[..n + 1] == after;
    forall i | 0 <= i < |after| ensures after[i].runCost == UsageTotal(after[..i + 1]) {
      if i < n {
        assert after[..i + 1] == p.state.events[..i + 1];
      }
    }
  }

  /** A usage or agent event changes no run-level fact. */
  lemma EmitKeepsFlags(config: Config, p: Progress, eventType: EventType, request: Request, hash: string, cost: nat)
    requires Flags(config, p.state) && eventType !in {Threshold80, Threshold100, AutoPause}
    ensures Flags(config, Emit(p, eventType, request, hash, cost).state)
  {
    var before, after := p.state.events, Emit(p, eventType, request, hash, cost).state.events;
    EmittedGrows(before, after[|before|]);
  }

  lemma EmittedGrows(events: seq<Event>, event: Event)
    ensures forall t :: Emitted(events + [event], t) <==> Emitted(events, t) || event.eventType == t
  {
    forall t ensures Emitted(events + [event], t) <==> Emitted(events, t) || event.eventType == t {
      if Emitted(events, t) {
        var i :| 0 <= i < |events| && events[i].eventType == t;
        assert (events + [event])[i].eventType == t;
      }
      assert (events + [event])[|events|] == event;
    }
  }

  lemma CountRunKeepsSound(config: Config, s: State, request: Request, usage: Usage, cost: nat, survives: nat)
    requires config.Valid() && Sound(config, s)
    ensures Sound(config, CountRun(s, request, usage, cost, survives).state)
  {
    var counted := CountRun(s, request, usage, cost, survives).state.(events := s.events);
    EmitKeepsSums(Progress(counted, survives, false), UsageRecorded, request, usage.requestHash, cost);
    EmitKeepsFlags(config, Progress(counted, survives, false), UsageRecorded, request, usage.requestHash, cost);
  }

  /** The two states differ in nothing the run-level checks look at. */
  predicate SameRun(s: State, t: State) {
    s.cost == t.cost && s.warning == t.warning && s.exhausted == t.exhausted
  }

  lemma AgentEventKeepsSound(config: Config, p: Progress, eventType: EventType, request: Request, hash: string, cost: nat)
    requires Sound(config, p.state) && eventType in {AgentWarning, AgentExhausted}
    ensures Sound(config, Emit(p, eventType, request, hash, cost).state)
    ensures SameRun(p.state, Emit(p, eventType, request, hash, cost).state)
  {
    EmitKeepsSums(p, eventType, request, hash, cost);
    EmitKeepsFlags(config, p, eventType, request, hash, cost);
  }

  lemma DaysDoNotMatter(config: Config, s: State, days: map<DayKey, AgentDay>)
    requires Sound(config, s)
    ensures Sound(config, s.(agentDays := days)) && SameRun(s, s.(agentDays := days))
  {
  }

  lemma NoteKeepsSound(config: Config, p: Progress, key: DayKey, day: AgentDay, known: bool, notify: bool,
                       eventType: EventType, request: Request, hash: string, cost: nat)
    requires Sound(config, p.state) && eventType in {AgentWarning, AgentExhausted}
    ensures Sound(config, Note(p, key, day, known, notify, eventType, request, hash, cost).state)
    ensures SameRun(p.state, Note(p, key, day, known, notify, eventType, request, hash, cost).state)
  {
    var touched := Touch(p, key, day, known);
    DaysDoNotMatter(config, p.state, touched.state.agentDays);
    AgentEventKeepsSound(config, touched, eventType, request, hash, cost);
  }

  lemma FinishAgentDayKeepsSound(config: Config, p: Progress, key: DayKey, day: AgentDay, known: bool,
                                 request: Request, hash: string, cost: nat)
    requires Sound(config, p.state)
    ensures Sound(config, FinishAgentDay(config, p, key, day, known, request, hash, cost).state)
    ensures SameRun(p.state, FinishAgentDay(config, p, key, day, known, request, hash, cost).state)
  {
    var exhaust := ExhaustsAgent(config, day);
    var final := if exhaust then day.(exhausted := true) else day;
    NoteKeepsSound(config, p, key, final, known, exhaust, AgentExhausted, request, hash, cost);
    var noted := Note(p, key, final, known, exhaust, AgentExhausted, request, hash, cost).state;
    DaysDoNotMatter(config, noted, noted.agentDays[key := final]);
  }

  lemma CountAgentDayKeepsSound(config: Config, p: Progress, request: Request, usage: Usage, cost: nat)
    requires Sound(config, p.state)
    ensures Sound(config, CountAgentDay(config, p, request, usage, cost).state)
    ensures SameRun(p.state, CountAgentDay(config, p, request, usage, cost).state)
  {
    if !p.threw && request.agentId.Some? {
      var key, hash := (request.agentId.value, request.tick), usage.requestHash;
      var known := key in p.state.agentDays;
      var day0 := Used(if known then p.state.agentDays[key] else NO_USAGE, usage);
      var warn := WarnsAgent(config, day0);
      var day1 := if warn then day0.(warning := true) else day0;
      NoteKeepsSound(config, p, key, day1, known, warn, AgentWarning, request, hash, cost);
      FinishAgentDayKeepsSound(config, Note(p, key, day1, known, warn, AgentWarning, request, hash, cost),
                               key, day1, known, request, hash, cost);
    }
  }

  lemma CheckWarningKeepsSound(config: Config, p: Progress, request: Request, hash: string, cost: nat)
    requires Sound(config, p.state)
    ensures Sound(config, CheckWarning(config, p, request, hash, cost).state)
    ensures CheckWarning(config, p, request, hash, cost).state.cost == p.state.cost
    ensures !p.threw ==> (CheckWarning(config, p, request, hash, cost).state.warning <==> Warned(config, p.state.cost))
    ensures CheckWarning(config, p, request, hash, cost).state.exhausted == p.state.exhausted
  {
    if !p.threw && !p.state.warning && Warned(config, p.state.cost) {
      var marked := p.(state := p.state.(warning := true));
      EmitKeepsSums(marked, Threshold80, request, hash, cost);
      var event := Emit(marked, Threshold80, request, hash, cost).state.events[|p.state.events|];
      EmittedGrows(p.state.events, event);
      NothingRanked(p.state.events);
    }
  }

  /** Without a warning no run-level event has been emitted. */
  lemma NothingRanked(events: seq<Event>)
    requires !Emitted(events, Threshold80) && !Emitted(events, Threshold100) && !Emitted(events, AutoPause)
    ensures forall i | 0 <= i < |events| :: Rank(events[i]) == 0
  {
  }

  /** Before the ceiling is reached only the warning can have been emitted. */
  lemma RanksBeforeCeiling(config: Config, s: State)
    requires Flags(config, s) && !s.exhausted
    ensures forall i | 0 <= i < |s.events| :: Rank(s.events[i]) <= 1
  {
    forall i | 0 <= i < |s.events| ensures Rank(s.events[i]) <= 1 {
      assert Emitted(s.events, s.events[i].eventType);
    }
  }

  lemma OrderedPush(events: seq<Event>, event: Event)
    requires OnceInOrder(events) && forall i | 0 <= i < |events| :: Rank(events[i]) < Rank(event)
    ensures OnceInOrder(events + [event])
  {
  }

  /** The state at the ceiling, with the events emitted there. */
  function AtCeiling(s: State, events: seq<Event>): State {
    s.(exhausted := true, autoPause := true, events := events)
  }

  lemma CeilingFlags(config: Config, s: State, event: Event)
    requires Flags(config, s) && !s.exhausted && s.warning && Spent(config, s.cost) && event.eventType == Threshold100
    ensures Flags(config, AtCeiling(s, s.events + [event]))
    ensures forall i | 0 <= i < |s.events + [event]| :: Rank((s.events + [event])[i]) <= 2
  {
    RanksBeforeCeiling(config, s);
    OrderedPush(s.events, event);
    EmittedGrows(s.events, event);
  }

  lemma PauseFlags(config: Config, s: State, event: Event)
    requires Flags(config, s) && s.exhausted && event.eventType == AutoPause
    requires forall i | 0 <= i < |s.events| :: Rank(s.events[i]) <= 2
    ensures Flags(config, s.(events := s.events + [event]))
  {
    OrderedPush(s.events, event);
    EmittedGrows(s.events, event);
  }

  lemma CheckCeilingKeepsSound(config: Config, p: Progress, request: Request, hash: string, cost: nat)
    requires Sound(config, p.state) && (!p.threw && Spent(config, p.state.cost) ==> p.state.warning)
    ensures Sound(config, CheckCeiling(config, p, request, hash, cost).state)
    ensures CheckCeiling(config, p, request, hash, cost).state.cost == p.state.cost
    ensures CheckCeiling(config, p, request, hash, cost).state.warning == p.state.warning
    ensures !p.threw ==> (CheckCeiling(config, p, request, hash, cost).state.exhausted <==> Spent(config, p.state.cost))
  {
    if !p.threw && !p.state.exhausted && Spent(config, p.state.cost) {
      CeilingCrossed(config, p, request, hash, cost);
    }
  }

  lemma CeilingCrossed(config: Config, p: Progress, request: Request, hash: string, cost: nat)
    requires Sound(config, p.state) && !p.threw && !p.state.exhausted && p.state.warning && Spent(config, p.state.cost)
    ensures Sound(config, CheckCeiling(config, p, request, hash, cost).state)
  {
    var p1 := Emit(p.(state := AtCeiling(p.state, p.state.events)), Threshold100, request, hash, cost);
    CeilingEmitted(config, p, request, hash, cost, p1);
    PauseEmitted(config, p1, request, hash, cost);
    assert CheckCeiling(config, p, request, hash, cost) == if p1.threw then p1 else Emit(p1, AutoPause, request, hash, cost);
  }

  lemma CeilingEmitted(config: Config, p: Progress, request: Request, hash: string, cost: nat, p1: Progress)
    requires Sound(config, p.state) && !p.state.exhausted && p.state.warning && Spent(config, p.state.cost)
    requires p1 == Emit(p.(state := AtCeiling(p.state, p.state.events)), Threshold100, request, hash, cost)
    ensures Sound(config, p1.state) && p1.state.exhausted
    ensures forall i | 0 <= i < |p1.state.events| :: Rank(p1.state.events[i]) <= 2
  {
    EmitKeepsSums(p.(state := AtCeiling(p.state, p.state.events)), Threshold100, request, hash, cost);
    var event := p1.state.events[|p.state.events|];
    CeilingFlags(config, p.state, event);
    assert p1.state == AtCeiling(p.state, p.state.events + [event]);
  }

  lemma PauseEmitted(config: Config, p1: Progress, request: Request, hash: string, cost: nat)
    requires Sound(config, p1.state) && p1.state.exhausted
    requires forall i | 0 <= i < |p1.state.events| :: Rank(p1.state.events[i]) <= 2
    ensures Sound(config, Emit(p1, AutoPause, request, hash, cost).state)
  {
    EmitKeepsSums(p1, AutoPause, request, hash, cost);
    PauseFlags(config, p1.state, Emit(p1, AutoPause, request, hash, cost).state.events[|p1.state.events|]);
  }

  /** Reaching the ceiling is reaching the warning level. */
  lemma SpentIsWarned(config: Config, cost: int)
    requires config.Valid() && Spent(config, cost)
    ensures Warned(config, cost) && config.Ceiling() <= cost
  {
  }

  /**
   * One charge keeps every invariant whatever the observer does, and leaves the flags exact
   * whenever it got through both threshold checks.
   */
  lemma ChargeKeepsSound(config: Config, s: State, request: Request, usage: Usage, survives: nat)
    requires config.Valid() && Sound(config, s)
    ensures var (cost, p) := RecordSuccess(config, s, request, usage, survives);
            && Sound(config, p.state)
            && (cost.None? ==> p.state == s)
            && (cost.Some? ==> p.state.cost == s.cost + cost.value)
            && (cost.Some? && !p.threw ==> Exact(config, p.state))
  {
    var (cost, p) := RecordSuccess(config, s, request, usage, survives);
    if cost.Some? {
      var c, hash := cost.value, usage.requestHash;
      var counted := CountRun(s, request, usage, c, survives);
      CountRunKeepsSound(config, s, request, usage, c, survives);
      CountAgentDayKeepsSound(config, counted, request, usage, c);
      var day := CountAgentDay(config, counted, request, usage, c);
      CheckWarningKeepsSound(config, day, request, hash, c);
      var warned := CheckWarning(config, day, request, hash, c);
      if Spent(config, s.cost + c) {
        SpentIsWarned(config, s.cost + c);
      }
      CheckCeilingKeepsSound(config, warned, request, hash, c);
    }
  }

  /** The usage event, and one for each daily limit of the agent that the charge reaches. */
  function EventsBeforeThresholds(config: Config, s: State, request: Request, usage: Usage): nat {
    if request.agentId.None? then 1
    else
      var key := (request.agentId.value, request.tick);
      var day := Used(if key in s.agentDays then s.agentDays[key] else NO_USAGE, usage);
      1 + (if WarnsAgent(config, day) then 1 else 0) + (if ExhaustsAgent(config, day) then 1 else 0)
  }

  /** The observer is alive after `n` more events if it survives that many. */
  predicate Survives(p: Progress, left: nat, n: nat) {
    (p.threw <==> left < n) && (!p.threw ==> p.left == left - n)
  }

  lemma NoteCounts(p: Progress, left: nat, n: nat, key: DayKey, day: AgentDay, known: bool, notify: bool,
                   eventType: EventType, request: Request, hash: string, cost: nat)
    requires Survives(p, left, n) && !p.threw
    ensures Survives(Note(p, key, day, known, notify, eventType, request, hash, cost), left, if notify then n + 1 else n)
  {
  }

  /** Before the threshold checks the observer has seen exactly these events, if it survives them. */
  lemma DayCounts(config: Config, s: State, request: Request, usage: Usage, cost: nat, survives: nat)
    ensures var day := CountAgentDay(config, CountRun(s, request, usage, cost, survives), request, usage, cost);
            Survives(day, survives, EventsBeforeThresholds(config, s, request, usage))
  {
    var counted := CountRun(s, request, usage, cost, survives);
    assert counted.state.agentDays == s.agentDays && Survives(counted, survives, 1);
    if !counted.threw && request.agentId.Some? {
      var key, hash := (request.agentId.value, request.tick), usage.requestHash;
      var known := key in s.agentDays;
      var day0 := Used(if known then s.agentDays[key] else NO_USAGE, usage);
      var warn := WarnsAgent(config, day0);
      var day1 := if warn then day0.(warning := true) else day0;
      NoteCounts(counted, survives, 1, key, day1, known, warn, AgentWarning, request, hash, cost);
      var noted := Note(counted, key, day1, known, warn, AgentWarning, request, hash, cost);
      if !noted.threw {
        var exhaust := ExhaustsAgent(config, day1);
        var final := if exhaust then day1.(exhausted := true) else day1;
        NoteCounts(noted, survives, if warn then 2 else 1, key, final, known, exhaust, AgentExhausted, request, hash, cost);
      }
    }
  }

  /**
   * Exactly when the flags fall behind: starting from exact flags, a priced charge that crosses
   * a threshold leaves them exact if and only if the observer survives every event that is due
   * before the last flag to be set.
   */
  lemma FlagsLagExactlyWhen(config: Config, s: State, request: Request, usage: Usage, survives: nat)
    requires config.Valid() && Sound(config, s) && Exact(config, s)
    requires RecordSuccess(config, s, request, usage, survives).0.Some?
    ensures var (cost, p) := RecordSuccess(config, s, request, usage, survives);
            var crossesWarning := !s.warning && Warned(config, s.cost + cost.value);
            var crossesCeiling := !s.exhausted && Spent(config, s.cost + cost.value);
            var due := EventsBeforeThresholds(config, s, request, usage) + if crossesWarning && crossesCeiling then 1 else 0;
            Exact(config, p.state) <==> (crossesWarning || crossesCeiling ==> due <= survives)
  {
    var (cost, p) := RecordSuccess(config, s, request, usage, survives);
    var c := cost.value;
    var counted := CountRun(s, request, usage, c, survives);
    var day := CountAgentDay(config, counted, request, usage, c);
    DayCounts(config, s, request, usage, c, survives);
    CountRunKeepsSound(config, s, request, usage, c, survives);
    CountAgentDayKeepsSound(config, counted, request, usage, c);
    ThresholdsLag(config, day, request, usage.requestHash, c);
    ChargeKeepsSound(config, s, request, usage, survives);
  }

  /** The threshold checks get their flags right unless the observer was lost, or is lost between them. */
  lemma ThresholdsLag(config: Config, p: Progress, request: Request, hash: string, cost: nat)
    requires config.Valid() && (p.state.warning ==> Warned(config, p.state.cost))
    requires p.state.exhausted ==> Spent(config, p.state.cost)
    ensures var crossesWarning := !p.state.warning && Warned(config, p.state.cost);
            var crossesCeiling := !p.state.exhausted && Spent(config, p.state.cost);
            Exact(config, Thresholds(config, p, request, hash, cost).state) <==>
              if p.threw then !crossesWarning && !crossesCeiling
              else !(crossesWarning && crossesCeiling && p.left == 0)
  {
  }

  /** One observer failure while the warning level is crossed leaves the warning flag behind. */
  lemma AThrowingObserverHidesTheWarning()
    ensures var config := Config(1, 100, map["m" := Price(1, None, 0)]);
            var request := Request(None, 0, "news", Tier2);
            var (cost, p) := RecordSuccess(config, FRESH, request, Usage("h", "m", 900_000, 0, 0), 0);
            cost == Some(900_000) && p.threw && Warned(config, p.state.cost) && !p.state.warning
  {
  }

  /******* Overlapping calls *******/

  datatype Call = Call(request: Request, effectiveTier: Tier)

  datatype Gateway = Gateway(budget: State, controls: Controls, inFlight: map<nat, Call>, nextId: nat)

  /** Everything that can happen to the gateway; calls finish in any order, at any later time. */
  datatype Step =
    | Begin(request: Request)
    | FinishUncharged(id: nat)
    | FinishCharged(id: nat, usage: Usage, survives: nat)
    | ChangeControls(controls: Controls)

  function Exec(config: Config, g: Gateway, step: Step): Gateway {
    match step
    case Begin(request) =>
      var authorization := Authorize(config, g.budget, g.controls, request);
      if authorization.Ok? && authorization.value.Allow? then
        g.(inFlight := g.inFlight[g.nextId := Call(request, authorization.value.effectiveTier)], nextId := g.nextId + 1)
      else g
    case FinishUncharged(id) => g.(inFlight := g.inFlight - {id})
    case FinishCharged(id, usage, survives) =>
      if id !in g.inFlight then g
      else
        var request := g.inFlight[id].request.(tier := g.inFlight[id].effectiveTier);
        g.(budget := RecordSuccess(config, g.budget, request, usage, survives).1.state, inFlight := g.inFlight - {id})
    case ChangeControls(controls) => g.(controls := controls)
  }

  /** A call goes out exactly when it is allowed, under a number of its own and on the tier it may use. */
  lemma BeginsExactlyWhen(config: Config, g: Gateway, request: Request)
    requires config.Valid()
    ensures Exec(config, g, Begin(request)) ==
            if WellFormed(request) && Enabled(g.controls, request) && Below(config, g.budget, request, 100) then
              var tier := if Below(config, g.budget, request, 80) then request.tier else Tier2;
              g.(inFlight := g.inFlight[g.nextId := Call(request, tier)], nextId := g.nextId + 1)
            else g
  {
    AllowedExactlyWhen(config, g.budget, g.controls, request);
  }

  /** What the step charges, and to which call. */
  function ChargeOf(config: Config, g: Gateway, step: Step): seq<(nat, nat)> {
    if step.FinishCharged? && step.id in g.inFlight then
      var request := g.inFlight[step.id].request.(tier := g.inFlight[step.id].effectiveTier);
      var cost := RecordSuccess(config, g.budget, request, step.usage, step.survives).0;
      if cost.Some? then [(step.id, cost.value)] else []
    else []
  }

  function Run(config: Config, g: Gateway, steps: seq<Step>): Gateway
    decreases |steps|
  {
    if steps == [] then g else Run(config, Exec(config, g, steps[0]), steps[1..])
  }

  function Charges(config: Config, g: Gateway, steps: seq<Step>): seq<(nat, nat)>
    decreases |steps|
  {
    if steps == [] then []
    else ChargeOf(config, g, steps[0]) + Charges(config, Exec(config, g, steps[0]), steps[1..])
  }

  function CostOf(charges: seq<(nat, nat)>): nat {
    if charges == [] then 0 else charges[0].1 + CostOf(charges[1..])
  }

  lemma {:induction false} CostOfConcat(xs: seq<(nat, nat)>, ys: seq<(nat, nat)>)
    ensures CostOf(xs + ys) == CostOf(xs) + CostOf(ys)
  {
    if xs == [] {
      assert xs + ys == ys;
    } else {
      assert (xs + ys)[1..] == xs[1..] + ys;
      CostOfConcat(xs[1..], ys);
    }
  }

  /** The gateway over one controller, split where a call waits for its provider. */
  class BudgetedLlmProvider {
    const controller: InMemoryLlmBudgetController
    var inFlight: map<nat, Call>
    var nextId: nat

    ghost function View(): Gateway
      reads this, controller
    {
      Gateway(controller.View(), controller.Settings(), inFlight, nextId)
    }

    constructor (controller: InMemoryLlmBudgetController)
      ensures this.controller == controller && View() == Gateway(controller.View(), controller.Settings(), map[], 0)
    {
      this.controller := controller;
      inFlight, nextId := map[], 0;
    }

    /** The part of a proposal before the provider is asked. */
    method BeginProposal(request: Request) returns (authorization: Result<Authorization>)
      modifies this
      ensures View() == Exec(controller.config, old(View()), Begin(request))
      ensures authorization == Authorize(controller.config, old(controller.View()), old(controller.Settings()), request)
    {
      authorization := controller.AuthorizeCall(request);
      if authorization.Ok? && authorization.value.Allow? {
        inFlight := inFlight[nextId := Call(request, authorization.value.effectiveTier)];
        nextId := nextId + 1;
      }
    }

    /** A failed or cached answer is passed on without a charge. */
    method FinishWithoutCharge(id: nat)
      modifies this
      ensures View() == Exec(controller.config, old(View()), Step.FinishUncharged(id))
    {
      inFlight := inFlight - {id};
    }

    /** A live answer is charged; a charge that throws turns it into a fallback. */
    method FinishWithCharge(id: nat, usage: Usage, survives: nat) returns (served: bool)
      requires id in inFlight
      modifies this, controller
      ensures View() == Exec(controller.config, old(View()), Step.FinishCharged(id, usage, survives))
    {
      var request := inFlight[id].request.(tier := inFlight[id].effectiveTier);
      inFlight := inFlight - {id};
      var charged, threw := controller.Record(request, usage, survives);
      served := !threw;
    }
  }

  /******* Any run of the gateway *******/

  /** Cost is the sum of the charges, and every reachable state keeps the invariants. */
  lemma {:induction false} EveryRunIsSound(config: Config, g: Gateway, steps: seq<Step>)
    requires config.Valid() && Sound(config, g.budget)
    ensures Sound(config, Run(config, g, steps).budget)
    ensures Run(config, g, steps).budget.cost == g.budget.cost + CostOf(Charges(config, g, steps))
    decreases |steps|
  {
    if steps != [] {
      StepKeepsSound(config, g, steps[0]);
      EveryRunIsSound(config, Exec(config, g, steps[0]), steps[1..]);
      CostOfConcat(ChargeOf(config, g, steps[0]), Charges(config, Exec(config, g, steps[0]), steps[1..]));
    }
  }

  lemma StepKeepsSound(config: Config, g: Gateway, step: Step)
    requires config.Valid() && Sound(config, g.budget)
    ensures Sound(config, Exec(config, g, step).budget)
    ensures Exec(config, g, step).budget.cost == g.budget.cost + CostOf(ChargeOf(config, g, step))
  {
    if step.FinishCharged? && step.id in g.inFlight {
      var request := g.inFlight[step.id].request.(tier := g.inFlight[step.id].effectiveTier);
      ChargeKeepsSound(config, g.budget, request, step.usage, step.survives);
      assert ChargeOf(config, g, step) == [] || ChargeOf(config, g, step)[1..] == [];
    }
  }

  /** The observer never throws during this run: no charge emits more than six events. */
  predicate ObserverReturns(steps: seq<Step>) {
    forall i | 0 <= i < |steps| :: steps[i].FinishCharged? ==> 6 <= steps[i].survives
  }

  lemma QuietChargeCompletes(config: Config, s: State, request: Request, usage: Usage, survives: nat)
    requires 6 <= survives
    ensures RecordSuccess(config, s, request, usage, survives).0.Some? ==>
              !RecordSuccess(config, s, request, usage, survives).1.threw
  {
  }

  /** With an observer that returns, the flags are exact in every reachable state. */
  lemma {:induction false} FlagsAreExact(config: Config, g: Gateway, steps: seq<Step>)
    requires config.Valid() && Sound(config, g.budget) && Exact(config, g.budget) && ObserverReturns(steps)
    ensures Exact(config, Run(config, g, steps).budget)
    decreases |steps|
  {
    if steps != [] {
      var step := steps[0];
      if step.FinishCharged? && step.id in g.inFlight {
        var request := g.inFlight[step.id].request.(tier := g.inFlight[step.id].effectiveTier);
        QuietChargeCompletes(config, g.budget, request, step.usage, step.survives);
        ChargeKeepsSound(config, g.budget, request, step.usage, step.survives);
      }
      StepKeepsSound(config, g, step);
      FlagsAreExact(config, Exec(config, g, step), steps[1..]);
    }
  }

  /******* The daily allowance *******/

  /** What the charge of one call is billed for. */
  datatype Bill = Bill(agentId: Option<string>, tick: int, usage: Usage)

  predicate Priced(config: Config, usage: Usage) {
    usage.model in config.prices && LlmCostMicrocents(usage, config.prices[usage.model]).Some?
  }

  /** Every answer to a call in flight that can be priced is billed to the agent and day of the call. */
  function BillOf(config: Config, g: Gateway, step: Step): seq<Bill> {
    if step.FinishCharged? && step.id in g.inFlight && Priced(config, step.usage) then
      [Bill(g.inFlight[step.id].request.agentId, g.inFlight[step.id].request.tick, step.usage)]
    else []
  }

  function Bills(config: Config, g: Gateway, steps: seq<Step>): seq<Bill>
    decreases |steps|
  {
    if steps == [] then []
    else BillOf(config, g, steps[0]) + Bills(config, Exec(config, g, steps[0]), steps[1..])
  }

  function SumBills(bills: seq<Bill>, f: Bill -> int): int {
    if bills == [] then 0 else f(bills[0]) + SumBills(bills[1..], f)
  }

  lemma {:induction false} SumBillsConcat(xs: seq<Bill>, ys: seq<Bill>, f: Bill -> int)
    ensures SumBills(xs + ys, f) == SumBills(xs, f) + SumBills(ys, f)
  {
    if xs == [] {
      assert xs + ys == ys;
    } else {
      assert (xs + ys)[1..] == xs[1..] + ys;
      SumBillsConcat(xs[1..], ys, f);
    }
  }

  /** The tokens of a bill, if it is for that agent and day. */
  function TokensFor(agent: string, tick: int): Bill -> int {
    (b: Bill) => if b.agentId == Some(agent) && b.tick == tick then b.usage.inputTokens + b.usage.outputTokens else 0
  }

  function CostIn(config: Config): Bill -> int {
    (b: Bill) => if Priced(config, b.usage) then LlmCostMicrocents(b.usage, config.prices[b.usage.model]).value else 0
  }

  /** The run's counters have moved by what the bills say. */
  ghost predicate CountersMoved(config: Config, before: State, after: State, bills: seq<Bill>) {
    && after.inputTokens == before.inputTokens + SumBills(bills, (b: Bill) => b.usage.inputTokens)
    && after.cachedInputTokens == before.cachedInputTokens + SumBills(bills, (b: Bill) => b.usage.cachedInputTokens)
    && after.outputTokens == before.outputTokens + SumBills(bills, (b: Bill) => b.usage.outputTokens)
    && after.cost == before.cost + SumBills(bills, CostIn(config))
  }

  lemma CountersAddUp(config: Config, s: State, t: State, u: State, xs: seq<Bill>, ys: seq<Bill>)
    requires CountersMoved(config, s, t, xs) && CountersMoved(config, t, u, ys)
    ensures CountersMoved(config, s, u, xs + ys)
  {
    SumBillsConcat(xs, ys, (b: Bill) => b.usage.inputTokens);
    SumBillsConcat(xs, ys, (b: Bill) => b.usage.cachedInputTokens);
    SumBillsConcat(xs, ys, (b: Bill) => b.usage.outputTokens);
    SumBillsConcat(xs, ys, CostIn(config));
  }

  /** The two states agree in the run's counters. */
  predicate SameCounters(s: State, t: State) {
    s.inputTokens == t.inputTokens && s.cachedInputTokens == t.cachedInputTokens
    && s.outputTokens == t.outputTokens && s.cost == t.cost
  }

  lemma NoteKeepsCounters(p: Progress, key: DayKey, day: AgentDay, known: bool, notify: bool,
                          eventType: EventType, request: Request, hash: string, cost: nat)
    ensures SameCounters(p.state, Note(p, key, day, known, notify, eventType, request, hash, cost).state)
  {
  }

  lemma DayKeepsCounters(config: Config, p: Progress, request: Request, usage: Usage, cost: nat)
    ensures SameCounters(p.state, CountAgentDay(config, p, request, usage, cost).state)
  {
    if !p.threw && request.agentId.Some? {
      var key, hash := (request.agentId.value, request.tick), usage.requestHash;
      var known := key in p.state.agentDays;
      var day0 := Used(if known then p.state.agentDays[key] else NO_USAGE, usage);
      var warn := WarnsAgent(config, day0);
      var day1 := if warn then day0.(warning := true) else day0;
      NoteKeepsCounters(p, key, day1, known, warn, AgentWarning, request, hash, cost);
      var noted := Note(p, key, day1, known, warn, AgentWarning, request, hash, cost);
      var exhaust := ExhaustsAgent(config, day1);
      var final := if exhaust then day1.(exhausted := true) else day1;
      NoteKeepsCounters(noted, key, final, known, exhaust, AgentExhausted, request, hash, cost);
    }
  }

  lemma ThresholdsKeepCounters(config: Config, p: Progress, request: Request, hash: string, cost: nat)
    ensures SameCounters(p.state, Thresholds(config, p, request, hash, cost).state)
  {
    assert SameCounters(p.state, CheckWarning(config, p, request, hash, cost).state);
  }

  lemma ChargeMovesCounters(config: Config, s: State, request: Request, usage: Usage, cost: nat, survives: nat)
    ensures var after := Charge(config, s, request, usage, cost, survives).state;
            && after.inputTokens == s.inputTokens + usage.inputTokens
            && after.cachedInputTokens == s.cachedInputTokens + usage.cachedInputTokens
            && after.outputTokens == s.outputTokens + usage.outputTokens
            && after.cost == s.cost + cost
  {
    var counted := CountRun(s, request, usage, cost, survives);
    DayKeepsCounters(config, counted, request, usage, cost);
    var day := CountAgentDay(config, counted, request, usage, cost);
    ThresholdsKeepCounters(config, day, request, usage.requestHash, cost);
  }

  lemma StepMovesCounters(config: Config, g: Gateway, step: Step)
    ensures CountersMoved(config, g.budget, Exec(config, g, step).budget, BillOf(config, g, step))
  {
    var bills := BillOf(config, g, step);
    if bills != [] {
      var request := g.inFlight[step.id].request.(tier := g.inFlight[step.id].effectiveTier);
      var cost := LlmCostMicrocents(step.usage, config.prices[step.usage.model]).value;
      ChargeMovesCounters(config, g.budget, request, step.usage, cost, step.survives);
      assert bills[1..] == [];
    }
  }

  /** However calls overlap and whatever the observer does, the run's counters are the sums of the bills. */
  lemma {:induction false} CountersMatchBills(config: Config, g: Gateway, steps: seq<Step>)
    ensures CountersMoved(config, g.budget, Run(config, g, steps).budget, Bills(config, g, steps))
    decreases |steps|
  {
    if steps != [] {
      var next := Exec(config, g, steps[0]);
      StepMovesCounters(config, g, steps[0]);
      CountersMatchBills(config, next, steps[1..]);
      CountersAddUp(config, g.budget, next.budget, Run(config, next, steps[1..]).budget,
                    BillOf(config, g, steps[0]), Bills(config, next, steps[1..]));
    }
  }

  /**
   * The observer lives long enough for the charge to reach the agent's day: past the usage event
   * and, when the day is new, past the events for the limits that the charge reaches.
   */
  predicate ReachesDay(config: Config, s: State, agent: string, tick: int, tokens: int, survives: nat) {
    && 1 <= survives
    && ((agent, tick) in s.agentDays
        || 1 + (if 80 * config.dailyTokens <= 100 * tokens then 1 else 0)
             + (if config.dailyTokens <= tokens then 1 else 0) <= survives)
  }

  lemma NoteKeepsOtherDays(p: Progress, key: DayKey, day: AgentDay, known: bool, notify: bool,
                           eventType: EventType, request: Request, hash: string, cost: nat)
    ensures Note(p, key, day, known, notify, eventType, request, hash, cost).state.agentDays ==
            if known then p.state.agentDays[key := day] else p.state.agentDays
  {
  }

  /** The tokens of a charge are counted for its agent and day exactly when the observer lives long enough. */
  lemma DayIsCountedExactlyWhen(config: Config, s: State, request: Request, usage: Usage, cost: nat, survives: nat,
                                agent: string, tick: int)
    ensures var after := Charge(config, s, request, usage, cost, survives).state;
            var tokens := usage.inputTokens + usage.outputTokens;
            DayTokens(after, agent, tick) == DayTokens(s, agent, tick) +
              if request.agentId == Some(agent) && request.tick == tick && ReachesDay(config, s, agent, tick, tokens, survives)
              then tokens else 0
  {
    var counted := CountRun(s, request, usage, cost, survives);
    assert counted.state.agentDays == s.agentDays;
    ChargeKeepsDay(config, s, request, usage, cost, survives);
    if request.agentId.Some? && !counted.threw {
      OneDay(config, counted, request, usage, cost);
    }
  }

  /** After the agent's day has been counted the charge leaves it alone. */
  lemma ChargeKeepsDay(config: Config, s: State, request: Request, usage: Usage, cost: nat, survives: nat)
    ensures Charge(config, s, request, usage, cost, survives).state.agentDays ==
            CountAgentDay(config, CountRun(s, request, usage, cost, survives), request, usage, cost).state.agentDays
  {
    var day := CountAgentDay(config, CountRun(s, request, usage, cost, survives), request, usage, cost);
    assert Thresholds(config, day, request, usage.requestHash, cost).state.agentDays == day.state.agentDays;
  }

  /** The agent's day after a charge that has got past the usage event. */
  lemma OneDay(config: Config, p: Progress, request: Request, usage: Usage, cost: nat)
    requires !p.threw && request.agentId.Some?
    ensures var key := (request.agentId.value, request.tick);
            var day := Used(if key in p.state.agentDays then p.state.agentDays[key] else NO_USAGE, usage);
            var warn, exhaust := WarnsAgent(config, day), ExhaustsAgent(config, day);
            var after := CountAgentDay(config, p, request, usage, cost);
            && (key in p.state.agentDays || (if warn then 1 else 0) + (if exhaust then 1 else 0) <= p.left ==>
                  && key in after.state.agentDays
                  && after.state.agentDays == p.state.agentDays[key := after.state.agentDays[key]]
                  && after.state.agentDays[key].Tokens() == day.Tokens()
                  && (2 <= p.left ==>
                        after.state.agentDays[key] == day.(warning := day.warning || warn, exhausted := day.exhausted || exhaust)))
            && (key !in p.state.agentDays && p.left < (if warn then 1 else 0) + (if exhaust then 1 else 0) ==>
                  after.state.agentDays == p.state.agentDays)
  {
    var key, hash := (request.agentId.value, request.tick), usage.requestHash;
    var known := key in p.state.agentDays;
    var day0 := Used(if known then p.state.agentDays[key] else NO_USAGE, usage);
    var warn := WarnsAgent(config, day0);
    var day1 := if warn then day0.(warning := true) else day0;
    var noted := Note(p, key, day1, known, warn, AgentWarning, request, hash, cost);
    NoteKeepsOtherDays(p, key, day1, known, warn, AgentWarning, request, hash, cost);
    if !noted.threw {
      var exhaust := ExhaustsAgent(config, day1);
      var final := if exhaust then day1.(exhausted := true) else day1;
      NoteKeepsOtherDays(noted, key, final, known, exhaust, AgentExhausted, request, hash, cost);
    }
  }

  /** With an observer that returns, an agent's day is the sum of the bills for it. */
  lemma {:induction false} DaysMatchBills(config: Config, g: Gateway, steps: seq<Step>, agent: string, tick: int)
    requires ObserverReturns(steps)
    ensures DayTokens(Run(config, g, steps).budget, agent, tick) ==
            DayTokens(g.budget, agent, tick) + SumBills(Bills(config, g, steps), TokensFor(agent, tick))
    decreases |steps|
  {
    if steps != [] {
      var step, next := steps[0], Exec(config, g, steps[0]);
      DaysMatchBills(config, next, steps[1..], agent, tick);
      SumBillsConcat(BillOf(config, g, step), Bills(config, next, steps[1..]), TokensFor(agent, tick));
      StepCountsDay(config, g, step, agent, tick);
    }
  }

  lemma StepCountsDay(config: Config, g: Gateway, step: Step, agent: string, tick: int)
    requires step.FinishCharged? ==> 6 <= step.survives
    ensures DayTokens(Exec(config, g, step).budget, agent, tick) ==
            DayTokens(g.budget, agent, tick) + SumBills(BillOf(config, g, step), TokensFor(agent, tick))
  {
    var bills := BillOf(config, g, step);
    if bills != [] {
      var request := g.inFlight[step.id].request.(tier := g.inFlight[step.id].effectiveTier);
      var cost := LlmCostMicrocents(step.usage, config.prices[step.usage.model]).value;
      DayIsCountedExactlyWhen(config, g.budget, request, step.usage, cost, step.survives, agent, tick);
      assert bills[1..] == [];
    }
  }

  lemma NewDayIsLost(config: Config, s: State, request: Request, usage: Usage, cost: nat)
    requires request.agentId.Some? && (request.agentId.value, request.tick) !in s.agentDays
    requires 80 * config.dailyTokens <= 100 * (usage.inputTokens + usage.outputTokens)
    ensures var p := Charge(config, s, request, usage, cost, 1);
            p.threw && p.state.inputTokens == s.inputTokens + usage.inputTokens
            && DayTokens(p.state, request.agentId.value, request.tick) == 0
  {
    DayIsCountedExactlyWhen(config, s, request, usage, cost, 1, request.agentId.value, request.tick);
    ChargeMovesCounters(config, s, request, usage, cost, 1);
    DayCounts(config, s, request, usage, cost, 1);
  }

  /** An observer that fails at the first event of a new day keeps the tokens off the agent's allowance. */
  lemma AThrowingObserverHidesTheTokens(config: Config, request: Request, usage: Usage)
    requires config == Config(1, 100, map["m" := Price(1, None, 0)])
    requires request == Request(Some("a"), 0, "news", Tier2) && usage == Usage("h", "m", 100, 0, 0)
    ensures var (cost, p) := RecordSuccess(config, FRESH, request, usage, 1);
            cost == Some(100) && p.threw && p.state.inputTokens == 100 && DayTokens(p.state, "a", 0) == 0
  {
    assert LlmCostMicrocents(usage, config.prices["m"]) == Some(100);
    NewDayIsLost(config, FRESH, request, usage, 100);
  }

  /** An agent's tokens never go down, so a day that is used up stays used up. */
  lemma {:induction false} AllowanceIsFinal(config: Config, g: Gateway, steps: seq<Step>, request: Request)
    requires config.Valid() && request.agentId.Some?
    requires config.dailyTokens <= DayTokens(g.budget, request.agentId.value, request.tick)
    ensures var after := Run(config, g, steps);
            var r := Authorize(config, after.budget, after.controls, request);
            r.Ok? ==> r.value.Block?
    decreases |steps|
  {
    if steps == [] {
      AllowedExactlyWhen(config, g.budget, g.controls, request);
    } else {
      var step := steps[0];
      if step.FinishCharged? && step.id in g.inFlight && Priced(config, step.usage) {
        var call := g.inFlight[step.id].request.(tier := g.inFlight[step.id].effectiveTier);
        var cost := LlmCostMicrocents(step.usage, config.prices[step.usage.model]).value;
        DayIsCountedExactlyWhen(config, g.budget, call, step.usage, cost, step.survives, request.agentId.value, request.tick);
      }
      AllowanceIsFinal(config, Exec(config, g, step), steps[1..], request);
    }
  }

  /** How often an agent was told about one of its limits on a day. */
  function Notices(events: seq<Event>, eventType: EventType, agent: string, tick: int): nat {
    if events == [] then 0
    else
      var last := events[|events| - 1];
      Notices(events[..|events| - 1], eventType, agent, tick)
        + (if last.eventType == eventType && last.agentId == Some(agent) && last.tick == tick then 1 else 0)
  }

  lemma {:induction false} EmitNotices(p: Progress, emitted: EventType, request: Request, hash: string, cost: nat,
                                       eventType: EventType, agent: string, tick: int)
    ensures Notices(Emit(p, emitted, request, hash, cost).state.events, eventType, agent, tick) ==
            Notices(p.state.events, eventType, agent, tick)
              + (if emitted == eventType && request.agentId == Some(agent) && request.tick == tick then 1 else 0)
  {
    var after := Emit(p, emitted, request, hash, cost).state.events;
    assert after[..|after| - 1] == p.state.events;
  }

  /** The agent was told about each limit once if it has reached it, and not at all before. */
  ghost predicate ToldOnce(config: Config, s: State, agent: string, tick: int) {
    var tokens := DayTokens(s, agent, tick);
    var day := if (agent, tick) in s.agentDays then s.agentDays[(agent, tick)] else NO_USAGE;
    var warned, exhausted := 80 * config.dailyTokens <= 100 * tokens, config.dailyTokens <= tokens;
    && day.warning == warned && Notices(s.events, AgentWarning, agent, tick) == (if warned then 1 else 0)
    && day.exhausted == exhausted && Notices(s.events, AgentExhausted, agent, tick) == (if exhausted then 1 else 0)
  }

  lemma WarningTellsNobody(config: Config, p: Progress, request: Request, hash: string, cost: nat,
                           eventType: EventType, agent: string, tick: int)
    requires eventType in {AgentWarning, AgentExhausted}
    ensures var after := CheckWarning(config, p, request, hash, cost).state;
            after.agentDays == p.state.agentDays
            && Notices(after.events, eventType, agent, tick) == Notices(p.state.events, eventType, agent, tick)
  {
    EmitNotices(p.(state := p.state.(warning := true)), Threshold80, request, hash, cost, eventType, agent, tick);
  }

  /** The two states tell this agent the same, and count the same days. */
  predicate TellTheSame(s: State, t: State, eventType: EventType, agent: string, tick: int) {
    s.agentDays == t.agentDays && Notices(s.events, eventType, agent, tick) == Notices(t.events, eventType, agent, tick)
  }

  lemma RunEventTellsNobody(p: Progress, emitted: EventType, request: Request, hash: string, cost: nat,
                            eventType: EventType, agent: string, tick: int)
    requires eventType in {AgentWarning, AgentExhausted} && emitted !in {AgentWarning, AgentExhausted}
    ensures TellTheSame(p.state, Emit(p, emitted, request, hash, cost).state, eventType, agent, tick)
  {
    EmitNotices(p, emitted, request, hash, cost, eventType, agent, tick);
  }

  lemma CeilingTellsNobody(config: Config, p: Progress, request: Request, hash: string, cost: nat,
                           eventType: EventType, agent: string, tick: int)
    requires eventType in {AgentWarning, AgentExhausted}
    ensures TellTheSame(p.state, CheckCeiling(config, p, request, hash, cost).state, eventType, agent, tick)
  {
    var marked := p.(state := p.state.(exhausted := true, autoPause := true));
    var p1 := Emit(marked, Threshold100, request, hash, cost);
    var p2 := Emit(p1, AutoPause, request, hash, cost);
    RunEventTellsNobody(marked, Threshold100, request, hash, cost, eventType, agent, tick);
    RunEventTellsNobody(p1, AutoPause, request, hash, cost, eventType, agent, tick);
    assert CheckCeiling(config, p, request, hash, cost) in {p, p1, p2};
  }

  /** The run-level part of a charge tells agents nothing and leaves their days alone. */
  lemma RunEventsTellNobody(config: Config, p: Progress, request: Request, hash: string, cost: nat,
                            eventType: EventType, agent: string, tick: int)
    requires eventType in {AgentWarning, AgentExhausted}
    ensures var after := Thresholds(config, p, request, hash, cost).state;
            after.agentDays == p.state.agentDays
            && Notices(after.events, eventType, agent, tick) == Notices(p.state.events, eventType, agent, tick)
  {
    WarningTellsNobody(config, p, request, hash, cost, eventType, agent, tick);
    CeilingTellsNobody(config, CheckWarning(config, p, request, hash, cost), request, hash, cost, eventType, agent, tick);
  }

  lemma NoteNotices(p: Progress, key: DayKey, day: AgentDay, known: bool, notify: bool, emitted: EventType,
                    request: Request, hash: string, cost: nat, eventType: EventType, agent: string, tick: int)
    ensures Notices(Note(p, key, day, known, notify, emitted, request, hash, cost).state.events, eventType, agent, tick) ==
            Notices(p.state.events, eventType, agent, tick)
              + (if notify && emitted == eventType && request.agentId == Some(agent) && request.tick == tick then 1 else 0)
  {
    EmitNotices(Touch(p, key, day, known), emitted, request, hash, cost, eventType, agent, tick);
  }

  lemma FinishNotices(config: Config, p: Progress, key: DayKey, day: AgentDay, known: bool,
                      request: Request, hash: string, cost: nat, eventType: EventType, agent: string, tick: int)
    requires !p.threw && 1 <= p.left && request.agentId.Some? && key == (request.agentId.value, request.tick)
    ensures Notices(FinishAgentDay(config, p, key, day, known, request, hash, cost).state.events, eventType, agent, tick) ==
            Notices(p.state.events, eventType, agent, tick)
              + (if eventType == AgentExhausted && ExhaustsAgent(config, day) && key == (agent, tick) then 1 else 0)
  {
    var exhaust := ExhaustsAgent(config, day);
    var final := if exhaust then day.(exhausted := true) else day;
    NoteNotices(p, key, final, known, exhaust, AgentExhausted, request, hash, cost, eventType, agent, tick);
  }

  /** What the agent is told while its day is counted. */
  lemma DayNotices(config: Config, p: Progress, request: Request, usage: Usage, cost: nat,
                   eventType: EventType, agent: string, tick: int)
    requires !p.threw && 2 <= p.left && request.agentId.Some? && eventType in {AgentWarning, AgentExhausted}
    ensures var key := (request.agentId.value, request.tick);
            var day := Used(if key in p.state.agentDays then p.state.agentDays[key] else NO_USAGE, usage);
            var told := if eventType == AgentWarning then WarnsAgent(config, day) else ExhaustsAgent(config, day);
            Notices(CountAgentDay(config, p, request, usage, cost).state.events, eventType, agent, tick) ==
            Notices(p.state.events, eventType, agent, tick) + (if told && key == (agent, tick) then 1 else 0)
  {
    var key, hash := (request.agentId.value, request.tick), usage.requestHash;
    var known := key in p.state.agentDays;
    var day0 := Used(if known then p.state.agentDays[key] else NO_USAGE, usage);
    var warn := WarnsAgent(config, day0);
    var day1 := if warn then day0.(warning := true) else day0;
    NoteNotices(p, key, day1, known, warn, AgentWarning, request, hash, cost, eventType, agent, tick);
    var noted := Note(p, key, day1, known, warn, AgentWarning, request, hash, cost);
    FinishNotices(config, noted, key, day1, known, request, hash, cost, eventType, agent, tick);
  }

  lemma ChargeTellsOnce(config: Config, s: State, request: Request, usage: Usage, cost: nat, survives: nat,
                        agent: string, tick: int)
    requires 6 <= survives && 0 <= usage.inputTokens + usage.outputTokens && ToldOnce(config, s, agent, tick)
    ensures ToldOnce(config, Charge(config, s, request, usage, cost, survives).state, agent, tick)
  {
    var hash := usage.requestHash;
    var counted := CountRun(s, request, usage, cost, survives);
    var base := counted.state.(events := s.events);
    var day := CountAgentDay(config, counted, request, usage, cost);
    DayIsCountedExactlyWhen(config, s, request, usage, cost, survives, agent, tick);
    forall eventType | eventType in {AgentWarning, AgentExhausted}
      ensures Notices(counted.state.events, eventType, agent, tick) == Notices(s.events, eventType, agent, tick)
    {
      EmitNotices(Progress(base, survives, false), UsageRecorded, request, hash, cost, eventType, agent, tick);
    }
    if request.agentId.Some? {
      DayNotices(config, counted, request, usage, cost, AgentWarning, agent, tick);
      DayNotices(config, counted, request, usage, cost, AgentExhausted, agent, tick);
      OneDay(config, counted, request, usage, cost);
    }
    RunEventsTellNobody(config, day, request, hash, cost, AgentWarning, agent, tick);
    RunEventsTellNobody(config, day, request, hash, cost, AgentExhausted, agent, tick);
  }

  /** With an observer that returns, every agent is told about each of its limits exactly once a day. */
  lemma {:induction false} AgentsAreToldOnce(config: Config, g: Gateway, steps: seq<Step>, agent: string, tick: int)
    requires ObserverReturns(steps) && ToldOnce(config, g.budget, agent, tick)
    ensures ToldOnce(config, Run(config, g, steps).budget, agent, tick)
    decreases |steps|
  {
    if steps != [] {
      var step := steps[0];
      if step.FinishCharged? && step.id in g.inFlight && Priced(config, step.usage) {
        var request := g.inFlight[step.id].request.(tier := g.inFlight[step.id].effectiveTier);
        var cost := LlmCostMicrocents(step.usage, config.prices[step.usage.model]).value;
        ChargeTellsOnce(config, g.budget, request, step.usage, cost, step.survives, agent, tick);
      }
      AgentsAreToldOnce(config, Exec(config, g, step), steps[1..], agent, tick);
    }
  }

  /******* At the ceiling *******/

  /** The charges all belong to different calls that were in flight. */
  ghost predicate ChargesInFlight(charges: seq<(nat, nat)>, inFlight: map<nat, Call>) {
    && (forall i | 0 <= i < |charges| :: charges[i].0 in inFlight)
    && (forall i, j | 0 <= i < j < |charges| :: charges[i].0 != charges[j].0)
  }

  /** A charge to a call that is then no longer in flight comes on top of the later ones. */
  lemma OneMoreCharge(first: seq<(nat, nat)>, later: seq<(nat, nat)>, before: map<nat, Call>, after: map<nat, Call>)
    requires |first| <= 1 && (forall i | 0 <= i < |first| :: first[i].0 in before && first[i].0 !in after)
    requires ChargesInFlight(later, after) && after.Keys <= before.Keys
    ensures ChargesInFlight(first + later, before)
  {
    forall i | 0 <= i < |first + later| ensures (first + later)[i].0 in before {
      if |first| <= i {
        assert later[i - |first|].0 in after.Keys;
      }
    }
  }

  /** A step at the ceiling charges at most one call, which is then over, and starts no other. */
  lemma StepAtTheCeiling(config: Config, g: Gateway, step: Step)
    requires config.Valid() && (config.Ceiling() <= g.budget.cost || !step.Begin?)
    ensures var first, next := ChargeOf(config, g, step), Exec(config, g, step);
            && |first| <= 1 && (forall i | 0 <= i < |first| :: first[i].0 in g.inFlight && first[i].0 !in next.inFlight)
            && next.inFlight.Keys <= g.inFlight.Keys
  {
  }

  /** At the ceiling nothing new is authorized, so only calls in flight can still be charged, each once. */
  lemma {:induction false} AtTheCeilingOnlyInFlightCallsAreCharged(config: Config, g: Gateway, steps: seq<Step>)
    requires config.Valid() && Sound(config, g.budget) && config.Ceiling() <= g.budget.cost
    ensures ChargesInFlight(Charges(config, g, steps), g.inFlight)
    decreases |steps|
  {
    if steps != [] {
      var next := Exec(config, g, steps[0]);
      StepKeepsSound(config, g, steps[0]);
      AtTheCeilingOnlyInFlightCallsAreCharged(config, next, steps[1..]);
      StepAtTheCeiling(config, g, steps[0]);
      OneMoreCharge(ChargeOf(config, g, steps[0]), Charges(config, next, steps[1..]), g.inFlight, next.inFlight);
    }
  }

  /** The call that reaches the ceiling was in flight as well, and is not charged again. */
  lemma CrossingChargesAreInFlight(config: Config, g: Gateway, steps: seq<Step>)
    requires config.Valid() && Sound(config, g.budget) && steps != []
    requires g.budget.cost < config.Ceiling() <= Exec(config, g, steps[0]).budget.cost
    ensures ChargesInFlight(Charges(config, g, steps), g.inFlight)
  {
    var next := Exec(config, g, steps[0]);
    StepKeepsSound(config, g, steps[0]);
    AtTheCeilingOnlyInFlightCallsAreCharged(config, next, steps[1..]);
    StepAtTheCeiling(config, g, steps[0]);
    OneMoreCharge(ChargeOf(config, g, steps[0]), Charges(config, next, steps[1..]), g.inFlight, next.inFlight);
  }

  /**
   * The bound: either the cost is below the ceiling, or it was below at some point after which
   * every charge belonged to a different call that was in flight then.
   */
  lemma {:induction false} OvershootIsInFlight(config: Config, g: Gateway, steps: seq<Step>) returns (k: nat)
    requires config.Valid() && Sound(config, g.budget) && g.budget.cost < config.Ceiling()
    ensures k <= |steps|
    ensures Run(config, g, steps[..k]).budget.cost < config.Ceiling()
    ensures var crossing := Run(config, g, steps[..k]);
            && Run(config, g, steps) == Run(config, crossing, steps[k..])
            && Run(config, g, steps).budget.cost == crossing.budget.cost + CostOf(Charges(config, crossing, steps[k..]))
            && (Run(config, g, steps).budget.cost < config.Ceiling()
                || ChargesInFlight(Charges(config, crossing, steps[k..]), crossing.inFlight))
    decreases |steps|
  {
    EveryRunIsSound(config, g, steps);
    k := 0;
    assert steps[0..] == steps && steps[..0] == [];
    if steps != [] && config.Ceiling() <= Run(config, g, steps).budget.cost {
      var next := Exec(config, g, steps[0]);
      StepKeepsSound(config, g, steps[0]);
      if next.budget.cost < config.Ceiling() {
        var later := OvershootIsInFlight(config, next, steps[1..]);
        k := later + 1;
        assert steps[..k][1..] == steps[1..][..later] && steps[k..] == steps[1..][later..];
        EveryRunIsSound(config, next, steps[1..][..later]);
        EveryRunIsSound(config, Run(config, g, steps[..k]), steps[k..]);
      } else {
        CrossingChargesAreInFlight(config, g, steps);
      }
    }
  }

  /** With at most one call in flight at a time, the ceiling is passed by less than the cost of one call. */
  lemma SequentialOvershootIsOneCall(config: Config, g: Gateway, steps: seq<Step>) returns (k: nat)
    requires config.Valid() && Sound(config, g.budget) && g.budget.cost < config.Ceiling()
    requires forall n | 0 <= n <= |steps| :: |Run(config, g, steps[..n]).inFlight| <= 1
    ensures k <= |steps|
    ensures var charges := Charges(config, Run(config, g, steps[..k]), steps[k..]);
            && (config.Ceiling() <= Run(config, g, steps).budget.cost ==> |charges| == 1)
            && (|charges| == 1 ==> Run(config, g, steps).budget.cost < config.Ceiling() + charges[0].1)
  {
    k := OvershootIsInFlight(config, g, steps);
    var crossing := Run(config, g, steps[..k]);
    var charges := Charges(config, crossing, steps[k..]);
    if |charges| == 1 {
      assert charges[1..] == [];
    }
    if config.Ceiling() <= Run(config, g, steps).budget.cost {
      AtMostOneCharge(charges, crossing.inFlight);
    }
  }

  lemma AtMostOneCharge(charges: seq<(nat, nat)>, inFlight: map<nat, Call>)
    requires ChargesInFlight(charges, inFlight) && |inFlight| <= 1
    ensures |charges| <= 1
  {
    if 2 <= |charges| {
      var a, b := charges[0].0, charges[1].0;
      assert {a, b} <= inFlight.Keys;
      SubsetSize({a, b}, inFlight.Keys);
    }
  }

  lemma SubsetSize(a: set<nat>, b: set<nat>)
    requires a <= b
    ensures |a| <= |b|
  {
    assert b == a + (b - a);
  }
}
