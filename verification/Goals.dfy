/**
 * Goal lifecycle: goals are activated from a bounded menu that is computed anew for every
 * single activation, progress towards achievement, or are abandoned.
 */
module Goals {
  import opened Shared
  import opened Ordering

  const COMPLETE: int := 1_000_000

  datatype Status = Dormant | Active | Achieved | Abandoned

  /** A goal; its progress is counted in millionths. */
  datatype Goal = Goal(id: string, agentId: string, priority: int, activationRule: string, status: Status, progress: int)

  datatype GoalRecord = GoalRecord(goal: Goal, triggerEventId: string, activatedTick: Option<int>, terminalTick: Option<int>)

  /** An activation rule that sees the goal, the tick and how many goals are already active. */
  type Rule = (Goal, int, nat) -> bool

  datatype Config = Config(maxActiveGoals: int, rules: map<string, Rule>) {
    predicate Valid() {
      1 <= maxActiveGoals <= 10
    }
  }

  predicate DefaultGoalActivationRule(goal: Goal, tick: int, active: nat) {
    active == 0 &&
    (|| goal.activationRule in {"job_opening_seen", "durable_need_detected"}
     || (if goal.activationRule in {"career_review_due", "retirement_review_due"} then (tick - 1) % 90 == 0
         else (tick - 1) % 30 == 0))
  }

  predicate Allowed(config: Config, tick: int, goal: Goal, active: nat) {
    if goal.activationRule in config.rules then config.rules[goal.activationRule](goal, tick, active)
    else DefaultGoalActivationRule(goal, tick, active)
  }

  /******* The repository: records with distinct goal ids *******/

  function IdOf(r: GoalRecord): string {
    r.goal.id
  }

  ghost predicate Valid(records: seq<GoalRecord>) {
    KeysDistinct(IdOf, records)
  }

  predicate ById(a: GoalRecord, b: GoalRecord) {
    CodeUnitLe(a.goal.id, b.goal.id)
  }

  predicate ByPriority(a: GoalRecord, b: GoalRecord) {
    b.goal.priority < a.goal.priority || (a.goal.priority == b.goal.priority && CodeUnitLe(a.goal.id, b.goal.id))
  }

  function Own(agentId: string): GoalRecord -> bool {
    (r: GoalRecord) => r.goal.agentId == agentId
  }

  function ListByAgent(records: seq<GoalRecord>, agentId: string): seq<GoalRecord> {
    Sort(ById, Filter(Own(agentId), records))
  }

  predicate IsActive(r: GoalRecord) {
    r.goal.status == Active
  }

  predicate IsDormant(r: GoalRecord) {
    r.goal.status == Dormant
  }

  function ActiveGoals(records: seq<GoalRecord>, agentId: string): seq<GoalRecord> {
    Filter(IsActive, ListByAgent(records, agentId))
  }

  function Candidates(records: seq<GoalRecord>, agentId: string): seq<GoalRecord> {
    Sort(ByPriority, Filter(IsDormant, ListByAgent(records, agentId)))
  }

  /** Position of a goal's record, or the number of records. */
  function Find(records: seq<GoalRecord>, goalId: string): (i: nat)
    ensures i <= |records| && (i < |records| ==> records[i].goal.id == goalId)
    ensures i == |records| <==> forall k | 0 <= k < |records| :: records[k].goal.id != goalId
  {
    if records == [] then 0
    else if records[0].goal.id == goalId then 0
    else Find(records[1..], goalId) + 1
  }

  /******* The menu *******/

  /** Goes through the candidates with `active` active and `chosen` already chosen ones. */
  function Menu(config: Config, tick: int, candidates: seq<GoalRecord>, active: nat, chosen: nat, available: nat): seq<GoalRecord> {
    if candidates == [] || available <= chosen then []
    else if Allowed(config, tick, candidates[0].goal, active + chosen) then
      [candidates[0]] + Menu(config, tick, candidates[1..], active, chosen + 1, available)
    else Menu(config, tick, candidates[1..], active, chosen, available)
  }

  function Available(config: Config, active: nat): nat {
    if active < config.maxActiveGoals then config.maxActiveGoals - active else 0
  }

  function EligibleForActivation(config: Config, records: seq<GoalRecord>, agentId: string, tick: int): seq<GoalRecord> {
    var active := |ActiveGoals(records, agentId)|;
    Menu(config, tick, Candidates(records, agentId), active, 0, Available(config, active))
  }

  predicate Offers(menu: seq<GoalRecord>, goalId: string) {
    exists k | 0 <= k < |menu| :: menu[k].goal.id == goalId
  }

  /** What an emitted event came back as: its id, or nothing usable. */
  type Emitter = Goal -> Option<string>

  function ActivateSelected(config: Config, records: seq<GoalRecord>, goalId: string, tick: int, emit: Emitter): Result<seq<GoalRecord>> {
    if tick < 1 || !SafeInteger(tick) then Err(ValidationFailed)
    else
      var i := Find(records, goalId);
      if i == |records| then Err(NotFound)
      else if records[i].goal.status != Dormant then Err(Conflict)
      else if !Offers(EligibleForActivation(config, records, records[i].goal.agentId, tick), goalId) then Err(ValidationFailed)
      else
        match emit(records[i].goal)
        case None => Err(Internal)
        case Some(eventId) =>
          Ok(records[i := GoalRecord(records[i].goal.(status := Active), eventId, Some(tick), None)])
  }

  /** Activates the goals of a menu one after another; a failure leaves the earlier ones activated. */
  function ActivateAll(config: Config, records: seq<GoalRecord>, menu: seq<GoalRecord>, tick: int, emit: Emitter)
    : (Option<ErrorCode>, seq<GoalRecord>)
    decreases |menu|
  {
    if menu == [] then (None, records)
    else
      match ActivateSelected(config, records, menu[0].goal.id, tick, emit)
      case Err(code) => (Some(code), records)
      case Ok(after) => ActivateAll(config, after, menu[1..], tick, emit)
  }

  function ActivateEligible(config: Config, records: seq<GoalRecord>, agentId: string, tick: int, emit: Emitter)
    : (Option<ErrorCode>, seq<GoalRecord>)
  {
    if tick < 1 || !SafeInteger(tick) then (Some(ValidationFailed), records)
    else ActivateAll(config, records, EligibleForActivation(config, records, agentId, tick), tick, emit)
  }

  function Progressed(progress: int, delta: real): int {
    Min(COMPLETE, (progress as real + delta * COMPLETE as real + 0.5).Floor)
  }

  function Advance(records: seq<GoalRecord>, goalId: string, delta: real, tick: int, emit: Emitter): Result<seq<GoalRecord>> {
    if tick < 1 || !SafeInteger(tick) || !(0.0 < delta <= 1.0) then Err(ValidationFailed)
    else
      var i := Find(records, goalId);
      if i == |records| then Err(NotFound)
      else if records[i].goal.status != Active then Err(Conflict)
      else
        var progress := Progressed(records[i].goal.progress, delta);
        var achieved := progress == COMPLETE;
        match emit(records[i].goal)
        case None => Err(Internal)
        case Some(eventId) =>
          var goal := records[i].goal.(progress := progress, status := if achieved then Achieved else Active);
          Ok(records[i := GoalRecord(goal, eventId, records[i].activatedTick, if achieved then Some(tick) else None)])
  }

  function Abandon(records: seq<GoalRecord>, goalId: string, tick: int, emit: Emitter): Result<seq<GoalRecord>> {
    if tick < 1 || !SafeInteger(tick) then Err(ValidationFailed)
    else
      var i := Find(records, goalId);
      if i == |records| then Err(NotFound)
      else if records[i].goal.status == Achieved || records[i].goal.status == Abandoned then Err(Conflict)
      else
        match emit(records[i].goal)
        case None => Err(Internal)
        case Some(eventId) =>
          Ok(records[i := GoalRecord(records[i].goal.(status := Abandoned), eventId, records[i].activatedTick, Some(tick))])
  }

  class GoalLifecycleEngine {
    const config: Config
    var records: seq<GoalRecord>

    constructor (config: Config, records: seq<GoalRecord>)
      requires config.Valid() && Valid(records)
      ensures this.config == config && this.records == records
    {
      this.config, this.records := config, records;
    }

    method Eligible(agentId: string, tick: int) returns (eligible: seq<GoalRecord>)
      ensures eligible == EligibleForActivation(config, records, agentId, tick)
    {
      var active := |ActiveGoals(records, agentId)|;
      var available := if active < config.maxActiveGoals then config.maxActiveGoals - active else 0;
      eligible := [];
      if available == 0 {
        return;
      }
      var candidates := Candidates(records, agentId);
      var i := 0;
      assert candidates[0..] == candidates;
      while i < |candidates|
        invariant 0 <= i <= |candidates|
        invariant Menu(config, tick, candidates, active, 0, available)
                  == eligible + Menu(config, tick, candidates[i..], active, |eligible|, available)
      {
        if available <= |eligible| {
          break;
        }
        assert candidates[i..][0] == candidates[i] && candidates[i..][1..] == candidates[i + 1..];
        if Allowed(config, tick, candidates[i].goal, active + |eligible|) {
          eligible := eligible + [candidates[i]];
        }
        i := i + 1;
      }
    }

    method Activate(goalId: string, tick: int, emit: Emitter) returns (failure: Option<ErrorCode>)
      modifies this
      ensures match ActivateSelected(config, old(records), goalId, tick, emit)
              case Ok(after) => failure == None && records == after
              case Err(code) => failure == Some(code) && records == old(records)
    {
      if tick < 1 || !SafeInteger(tick) {
        return Some(ValidationFailed);
      }
      var i := Find(records, goalId);
      if i == |records| {
        return Some(NotFound);
      }
      if records[i].goal.status != Dormant {
        return Some(Conflict);
      }
      var eligible := Eligible(records[i].goal.agentId, tick);
      if !Offers(eligible, goalId) {
        return Some(ValidationFailed);
      }
      var eventId := emit(records[i].goal);
      if eventId.None? {
        return Some(Internal);
      }
      records := records[i := GoalRecord(records[i].goal.(status := Active), eventId.value, Some(tick), None)];
      failure := None;
    }

    method ActivateMenu(agentId: string, tick: int, emit: Emitter) returns (failure: Option<ErrorCode>)
      modifies this
      ensures (failure, records) == ActivateEligible(config, old(records), agentId, tick, emit)
    {
      if tick < 1 || !SafeInteger(tick) {
        return Some(ValidationFailed);
      }
      var menu := Eligible(agentId, tick);
      assert menu[0..] == menu;
      for i := 0 to |menu|
        invariant ActivateAll(config, old(records), menu, tick, emit) == ActivateAll(config, records, menu[i..], tick, emit)
      {
        assert menu[i..][0] == menu[i] && menu[i..][1..] == menu[i + 1..];
        failure := Activate(menu[i].goal.id, tick, emit);
        if failure.Some? {
          return;
        }
      }
      failure := None;
    }

    /** Moves an active goal forward; reaching completion achieves it. */
    method AdvanceGoal(goalId: string, delta: real, tick: int, emit: Emitter) returns (failure: Option<ErrorCode>)
      modifies this
      ensures match Advance(old(records), goalId, delta, tick, emit)
              case Ok(after) => failure == None && records == after
              case Err(code) => failure == Some(code) && records == old(records)
    {
      if tick < 1 || !SafeInteger(tick) || !(0.0 < delta <= 1.0) {
        return Some(ValidationFailed);
      }
      var i := Find(records, goalId);
      if i == |records| {
        return Some(NotFound);
      }
      var goal := records[i].goal;
      if goal.status != Active {
        return Some(Conflict);
      }
      var eventId := emit(goal);
      if eventId.None? {
        return Some(Internal);
      }
      goal := goal.(progress := Progressed(goal.progress, delta));
      var terminalTick: Option<int> := None;
      if goal.progress == COMPLETE {
        goal, terminalTick := goal.(status := Achieved), Some(tick);
      }
      records := records[i := GoalRecord(goal, eventId.value, records[i].activatedTick, terminalTick)];
      failure := None;
    }

    method AbandonGoal(goalId: string, tick: int, emit: Emitter) returns (failure: Option<ErrorCode>)
      modifies this
      ensures match Abandon(old(records), goalId, tick, emit)
              case Ok(after) => failure == None && records == after
              case Err(code) => failure == Some(code) && records == old(records)
    {
      if tick < 1 || !SafeInteger(tick) {
        return Some(ValidationFailed);
      }
      var i := Find(records, goalId);
      if i == |records| {
        return Some(NotFound);
      }
      if records[i].goal.status == Achieved || records[i].goal.status == Abandoned {
        return Some(Conflict);
      }
      var eventId := emit(records[i].goal);
      if eventId.None? {
        return Some(Internal);
      }
      records := records[i := GoalRecord(records[i].goal.(status := Abandoned), eventId.value,
                                         records[i].activatedTick, Some(tick))];
      failure := None;
    }
  }

  /******* Counting goals *******/

  predicate OfAgent(agentId: string, r: GoalRecord) {
    r.goal.agentId == agentId
  }

  lemma CandidateCounts(records: seq<GoalRecord>, agentId: string, x: GoalRecord)
    ensures multiset(Candidates(records, agentId))[x] == if OfAgent(agentId, x) && IsDormant(x) then multiset(records)[x] else 0
  {
    var own := Filter(Own(agentId), records);
    FilterCounts(Own(agentId), records, x);
    SortPermutes(ById, own);
    SortPermutes(ByPriority, Filter(IsDormant, ListByAgent(records, agentId)));
    FilterCounts(IsDormant, ListByAgent(records, agentId), x);
  }

  predicate ActiveOf(agentId: string, r: GoalRecord) {
    OfAgent(agentId, r) && IsActive(r)
  }

  function CountActive(records: seq<GoalRecord>, agentId: string): nat {
    if records == [] then 0 else (if ActiveOf(agentId, records[0]) then 1 else 0) + CountActive(records[1..], agentId)
  }

  lemma {:induction false} FilteredTwice(records: seq<GoalRecord>, agentId: string)
    ensures |Filter(IsActive, Filter(Own(agentId), records))| == CountActive(records, agentId)
  {
    if records != [] {
      FilteredTwice(records[1..], agentId);
    }
  }

  lemma ActiveGoalsCounted(records: seq<GoalRecord>, agentId: string)
    ensures |ActiveGoals(records, agentId)| == CountActive(records, agentId)
  {
    var own := Filter(Own(agentId), records);
    SortPermutes(ById, own);
    FilterPermutes(IsActive, Sort(ById, own), own);
    FilteredTwice(records, agentId);
    assert |multiset(Filter(IsActive, Sort(ById, own)))| == |multiset(Filter(IsActive, own))|;
  }

  lemma {:induction false} CountAfterUpdate(records: seq<GoalRecord>, i: nat, next: GoalRecord, agentId: string)
    requires i < |records|
    ensures CountActive(records[i := next], agentId) == CountActive(records, agentId)
              - (if ActiveOf(agentId, records[i]) then 1 else 0) + (if ActiveOf(agentId, next) then 1 else 0)
  {
    if i == 0 {
      assert records[0 := next][1..] == records[1..];
    } else {
      assert records[i := next][1..] == records[1..][i - 1 := next];
      CountAfterUpdate(records[1..], i - 1, next, agentId);
    }
  }

  /** The effect of one record's change on its agent's active goals. */
  lemma ActiveAfterUpdate(records: seq<GoalRecord>, i: nat, next: GoalRecord, agentId: string)
    requires i < |records|
    ensures |ActiveGoals(records[i := next], agentId)| == |ActiveGoals(records, agentId)|
              - (if ActiveOf(agentId, records[i]) then 1 else 0) + (if ActiveOf(agentId, next) then 1 else 0)
  {
    ActiveGoalsCounted(records, agentId);
    ActiveGoalsCounted(records[i := next], agentId);
    CountAfterUpdate(records, i, next, agentId);
  }

  lemma UpdateCounts(records: seq<GoalRecord>, i: nat, next: GoalRecord)
    requires i < |records|
    ensures multiset(records[i := next]) == multiset(records) - multiset{records[i]} + multiset{next}
    ensures records[i] in multiset(records)
  {
    assert records == records[..i] + [records[i]] + records[i + 1..];
    assert records[i := next] == records[..i] + [next] + records[i + 1..];
  }

  /******* One activation leaves the rest of the menu as it was *******/

  lemma PriorityIsTotal()
    ensures TotalPreorder(ByPriority)
  {
    forall x: GoalRecord, y: GoalRecord ensures ByPriority(x, y) || ByPriority(y, x) {
      CodeUnitTotal(x.goal.id, y.goal.id);
    }
    forall x: GoalRecord, y: GoalRecord, z: GoalRecord | ByPriority(x, y) && ByPriority(y, z) ensures ByPriority(x, z) {
      if x.goal.priority == z.goal.priority {
        CodeUnitTransitive(x.goal.id, y.goal.id, z.goal.id);
      }
    }
  }

  lemma IdsSeparate(records: seq<GoalRecord>, some: multiset<GoalRecord>)
    requires Valid(records) && some <= multiset(records)
    ensures Separates(ByPriority, some)
  {
    forall x, y | x in some && y in some && ByPriority(x, y) && ByPriority(y, x) ensures x == y {
      CodeUnitTotal(x.goal.id, y.goal.id);
      assert x in multiset(records) && y in multiset(records);
      var i :| 0 <= i < |records| && records[i] == x;
      var j :| 0 <= j < |records| && records[j] == y;
      assert IdOf(records[i]) == IdOf(records[j]);
    }
  }

  lemma CandidateCountAfter(records: seq<GoalRecord>, i: nat, next: GoalRecord, agentId: string, x: GoalRecord)
    requires i < |records| && next.goal.agentId == records[i].goal.agentId == agentId
    requires IsDormant(records[i]) && !IsDormant(next)
    ensures var before, after := multiset(Candidates(records, agentId)), multiset(Candidates(records[i := next], agentId));
            after[x] == (before - multiset{records[i]})[x] && after[x] <= multiset(records)[x]
  {
    CandidateCounts(records, agentId, x);
    CandidateCounts(records[i := next], agentId, x);
    UpdateCounts(records, i, next);
  }

  lemma CandidatesAreSorted(records: seq<GoalRecord>, agentId: string)
    ensures Sorted(ByPriority, Candidates(records, agentId))
  {
    PriorityIsTotal();
    SortSorts(ByPriority, Filter(IsDormant, ListByAgent(records, agentId)));
  }

  lemma WithoutStaysSorted(xs: seq<GoalRecord>, k: nat)
    requires k < |xs| && Sorted(ByPriority, xs)
    ensures Sorted(ByPriority, Without(xs, k))
  {
  }

  /** Activating a candidate takes it out of the candidates and changes nothing else about them. */
  lemma CandidatesAfterActivation(records: seq<GoalRecord>, i: nat, next: GoalRecord, agentId: string, k: nat)
    requires Valid(records) && i < |records| && records[i].goal.agentId == agentId
    requires next.goal.agentId == agentId && !IsDormant(next)
    requires k < |Candidates(records, agentId)| && Candidates(records, agentId)[k] == records[i]
    ensures Candidates(records[i := next], agentId) == Without(Candidates(records, agentId), k)
  {
    var before, after := Candidates(records, agentId), Candidates(records[i := next], agentId);
    WithoutOne(before, k);
    assert records[i] in multiset(before);
    CandidateCounts(records, agentId, records[i]);
    forall x
      ensures multiset(after)[x] == (multiset(before) - multiset{records[i]})[x] && multiset(after)[x] <= multiset(records)[x]
    {
      CandidateCountAfter(records, i, next, agentId, x);
    }
    assert multiset(after) == multiset(Without(before, k));
    CandidatesAreSorted(records, agentId);
    CandidatesAreSorted(records[i := next], agentId);
    WithoutStaysSorted(before, k);
    IdsSeparate(records, multiset(after));
    PriorityIsTotal();
    SortedUnique(ByPriority, after, Without(before, k));
  }

  /** Below the limit, a rule can only become false for a dormant goal when another one is activated. */
  ghost predicate Antitone(config: Config, tick: int) {
    forall goal, n: nat | IsDormantGoal(goal) && n + 1 < config.maxActiveGoals && Allowed(config, tick, goal, n + 1) ::
      Allowed(config, tick, goal, n)
  }

  predicate IsDormantGoal(goal: Goal) {
    goal.status == Dormant
  }

  lemma DefaultRulesAreAntitone(config: Config, tick: int)
    requires config.rules == map[]
    ensures Antitone(config, tick)
  {
  }

  lemma {:induction false} MenuShifts(config: Config, tick: int, xs: seq<GoalRecord>, active: nat, chosen: nat, available: nat)
    ensures Menu(config, tick, xs, active + 1, chosen, available) == Menu(config, tick, xs, active, chosen + 1, available + 1)
  {
    if xs != [] && chosen < available {
      MenuShifts(config, tick, xs[1..], active, chosen + 1, available);
      MenuShifts(config, tick, xs[1..], active, chosen, available);
    }
  }

  lemma {:induction false} MenuMembers(config: Config, tick: int, candidates: seq<GoalRecord>, active: nat, chosen: nat, available: nat)
    ensures forall r | r in Menu(config, tick, candidates, active, chosen, available) :: r in candidates
    ensures |Menu(config, tick, candidates, active, chosen, available)| <= Max(0, available - chosen)
  {
    if candidates != [] && chosen < available {
      MenuMembers(config, tick, candidates[1..], active, chosen, available);
      MenuMembers(config, tick, candidates[1..], active, chosen + 1, available);
    }
  }

  /** The menu without its first goal is the menu once that goal is active. */
  lemma {:induction false} MenuWithoutFirst(config: Config, tick: int, candidates: seq<GoalRecord>, active: nat, available: nat) returns (k: nat)
    requires Antitone(config, tick) && 0 < available && Menu(config, tick, candidates, active, 0, available) != []
    requires active + available <= config.maxActiveGoals && forall r | r in candidates :: IsDormantGoal(r.goal)
    ensures k < |candidates| && candidates[k] == Menu(config, tick, candidates, active, 0, available)[0]
    ensures Menu(config, tick, Without(candidates, k), active + 1, 0, available - 1)
            == Menu(config, tick, candidates, active, 0, available)[1..]
  {
    if Allowed(config, tick, candidates[0].goal, active) {
      k := 0;
      assert Without(candidates, 0) == candidates[1..];
      MenuShifts(config, tick, candidates[1..], active, 0, available - 1);
    } else {
      var later := MenuWithoutFirst(config, tick, candidates[1..], active, available);
      k := later + 1;
      if available == 1 {
        MenuMembers(config, tick, candidates, active, 0, available);
      } else {
        assert Without(candidates, k)[1..] == Without(candidates[1..], later);
        assert candidates[0] in candidates && !Allowed(config, tick, candidates[0].goal, active + 1);
      }
    }
  }

  lemma FindsRecord(records: seq<GoalRecord>, r: GoalRecord)
    requires Valid(records) && r in records
    ensures Find(records, r.goal.id) < |records| && records[Find(records, r.goal.id)] == r
  {
    var i :| 0 <= i < |records| && records[i] == r;
    var j := Find(records, r.goal.id);
    assert IdOf(records[i]) == IdOf(records[j]);
  }

  lemma MenuIsOfDormantRecords(config: Config, records: seq<GoalRecord>, agentId: string, tick: int)
    ensures forall r | r in EligibleForActivation(config, records, agentId, tick) ::
              r in records && IsDormant(r) && r.goal.agentId == agentId
  {
    var active := |ActiveGoals(records, agentId)|;
    MenuMembers(config, tick, Candidates(records, agentId), active, 0, Available(config, active));
    CandidatesAreDormant(records, agentId);
  }

  lemma CandidatesAreDormant(records: seq<GoalRecord>, agentId: string)
    ensures forall r | r in Candidates(records, agentId) :: r in records && IsDormant(r) && r.goal.agentId == agentId
  {
    forall r | r in Candidates(records, agentId) ensures r in records && IsDormant(r) && r.goal.agentId == agentId {
      CandidateCounts(records, agentId, r);
      assert r in multiset(Candidates(records, agentId));
    }
  }

  /** The record of a goal that has just been activated. */
  function Activated(r: GoalRecord, tick: int, eventId: string): GoalRecord {
    GoalRecord(r.goal.(status := Active), eventId, Some(tick), None)
  }

  /** A candidate on the menu can be activated; it leaves the candidates and joins the active goals. */
  lemma OfferedGoalActivates(config: Config, records: seq<GoalRecord>, agentId: string, tick: int, k: nat, emit: Emitter)
    returns (i: nat)
    requires Valid(records) && 1 <= tick && SafeInteger(tick) && k < |Candidates(records, agentId)|
    requires var r := Candidates(records, agentId)[k];
             emit(r.goal).Some? && Offers(EligibleForActivation(config, records, agentId, tick), r.goal.id)
    ensures var r := Candidates(records, agentId)[k];
            && i == Find(records, r.goal.id) < |records| && records[i] == r
            && var after := records[i := Activated(r, tick, emit(r.goal).value)];
               && ActivateSelected(config, records, r.goal.id, tick, emit) == Ok(after)
               && Valid(after)
               && Candidates(after, agentId) == Without(Candidates(records, agentId), k)
               && |ActiveGoals(after, agentId)| == |ActiveGoals(records, agentId)| + 1
  {
    var r := Candidates(records, agentId)[k];
    CandidatesAreDormant(records, agentId);
    FindsRecord(records, r);
    i := Find(records, r.goal.id);
    var next := Activated(r, tick, emit(r.goal).value);
    CandidatesAfterActivation(records, i, next, agentId, k);
    ActiveAfterUpdate(records, i, next, agentId);
    UpdateKeepsValid(records, i, next);
  }

  lemma FirstActivation(config: Config, records: seq<GoalRecord>, agentId: string, tick: int, emit: Emitter)
    requires config.Valid() && Valid(records) && Antitone(config, tick) && 1 <= tick && SafeInteger(tick)
    requires forall goal :: emit(goal).Some?
    requires EligibleForActivation(config, records, agentId, tick) != []
    ensures var menu := EligibleForActivation(config, records, agentId, tick);
            var i := Find(records, menu[0].goal.id);
            && i < |records| && records[i] == menu[0]
            && var after := records[i := Activated(menu[0], tick, emit(menu[0].goal).value)];
               && ActivateSelected(config, records, menu[0].goal.id, tick, emit) == Ok(after)
               && Valid(after)
               && EligibleForActivation(config, after, agentId, tick) == menu[1..]
  {
    var active := |ActiveGoals(records, agentId)|;
    CandidatesAreDormant(records, agentId);
    var k := MenuWithoutFirst(config, tick, Candidates(records, agentId), active, Available(config, active));
    var i := OfferedGoalActivates(config, records, agentId, tick, k, emit);
  }

  lemma UpdateKeepsValid(records: seq<GoalRecord>, i: nat, next: GoalRecord)
    requires Valid(records) && i < |records| && next.goal.id == records[i].goal.id
    ensures Valid(records[i := next])
  {
    var after := records[i := next];
    forall j, k | 0 <= j < k < |after| ensures IdOf(after[j]) != IdOf(after[k]) {
      assert IdOf(records[j]) != IdOf(records[k]);
    }
  }

  /** `after` is `records` with exactly the goals of the menu activated. */
  ghost predicate ExactlyActivated(records: seq<GoalRecord>, after: seq<GoalRecord>, menu: seq<GoalRecord>, tick: int, emit: Emitter) {
    |after| == |records| && forall i | 0 <= i < |records| ::
      after[i] == if records[i] in menu && emit(records[i].goal).Some?
                  then Activated(records[i], tick, emit(records[i].goal).value) else records[i]
  }

  lemma {:induction false} WholeMenuIsActivated(config: Config, records: seq<GoalRecord>, agentId: string, tick: int, emit: Emitter, menu: seq<GoalRecord>)
    requires config.Valid() && Valid(records) && Antitone(config, tick) && 1 <= tick && SafeInteger(tick)
    requires forall goal :: emit(goal).Some?
    requires menu == EligibleForActivation(config, records, agentId, tick)
    ensures ActivateAll(config, records, menu, tick, emit).0 == None
    ensures ExactlyActivated(records, ActivateAll(config, records, menu, tick, emit).1, menu, tick, emit)
    decreases |menu|
  {
    if menu != [] {
      FirstActivation(config, records, agentId, tick, emit);
      var i := Find(records, menu[0].goal.id);
      var after := records[i := Activated(menu[0], tick, emit(menu[0].goal).value)];
      WholeMenuIsActivated(config, after, agentId, tick, emit, menu[1..]);
      MenuIsOfDormantRecords(config, records, agentId, tick);
      MenuIsOfDormantRecords(config, after, agentId, tick);
      forall j | 0 <= j < |records| && j != i ensures records[j] in menu <==> after[j] in menu[1..] {
        assert IdOf(records[j]) != IdOf(records[i]);
      }
    }
  }

  /**
   * Under an antitone rule a batch activation never fails part-way, although the menu is computed
   * again before every single activation, and it activates exactly the menu it started from.
   */
  lemma BatchActivatesItsMenu(config: Config, records: seq<GoalRecord>, agentId: string, tick: int, emit: Emitter)
    requires config.Valid() && Valid(records) && Antitone(config, tick) && 1 <= tick && SafeInteger(tick)
    requires forall goal :: emit(goal).Some?
    ensures var (failure, after) := ActivateEligible(config, records, agentId, tick, emit);
            failure == None
            && ExactlyActivated(records, after, EligibleForActivation(config, records, agentId, tick), tick, emit)
  {
    WholeMenuIsActivated(config, records, agentId, tick, emit, EligibleForActivation(config, records, agentId, tick));
  }

  /******* What is on the menu *******/

  /** The default rule lets a goal in only when none is active: at once, quarterly or monthly, from tick 1 on. */
  lemma DefaultRuleOpens(goal: Goal, tick: int, active: nat)
    requires 1 <= tick
    ensures DefaultGoalActivationRule(goal, tick, active) <==>
              && active == 0
              && match goal.activationRule
                 case "job_opening_seen" => true
                 case "durable_need_detected" => true
                 case "career_review_due" => exists k: nat :: tick == 90 * k + 1
                 case "retirement_review_due" => exists k: nat :: tick == 90 * k + 1
                 case _ => exists k: nat :: tick == 30 * k + 1
  {
    assert (tick - 1) % 90 == 0 ==> tick == 90 * ((tick - 1) / 90) + 1;
    assert (tick - 1) % 30 == 0 ==> tick == 30 * ((tick - 1) / 30) + 1;
  }

  /** A higher priority goes first, and among equal ones the smaller id. */
  ghost predicate GoesFirst(a: GoalRecord, b: GoalRecord) {
    a.goal.id != b.goal.id
    && (b.goal.priority < a.goal.priority || (a.goal.priority == b.goal.priority && Dictionary(a.goal.id, b.goal.id)))
  }

  lemma PriorityMeans(a: GoalRecord, b: GoalRecord)
    requires a.goal.id != b.goal.id
    ensures ByPriority(a, b) <==> GoesFirst(a, b)
  {
    CodeUnitsCompareAsADictionary(a.goal.id, b.goal.id);
  }

  /**
   * The menu takes goals as they come while there is room: each entry was let in with the entries
   * ahead of it counted as active, and a goal that is missing came when the menu was full or was
   * refused with the entries ahead of it counted as active.
   */
  ghost predicate TakenInTurn(config: Config, tick: int, menu: seq<GoalRecord>, candidates: seq<GoalRecord>, active: nat, room: nat) {
    && |menu| <= room
    && (forall r | r in menu :: r in candidates)
    && (forall i, j | 0 <= i < j < |menu| :: GoesFirst(menu[i], menu[j]))
    && (forall k | 0 <= k < |menu| :: Allowed(config, tick, menu[k].goal, active + k))
    && (forall r | r in candidates && r !in menu :: Passed(config, tick, menu, r, active, room))
  }

  ghost predicate Passed(config: Config, tick: int, menu: seq<GoalRecord>, r: GoalRecord, active: nat, room: nat) {
    exists k: nat :: k <= |menu| && StandsAt(menu, r, k) && (k == room || !Allowed(config, tick, r.goal, active + k))
  }

  /** Exactly the first `k` entries go before `r`. */
  ghost predicate StandsAt(menu: seq<GoalRecord>, r: GoalRecord, k: nat) {
    k <= |menu| && forall i | 0 <= i < |menu| :: if i < k then GoesFirst(menu[i], r) else GoesFirst(r, menu[i])
  }

  ghost predicate InOrder(candidates: seq<GoalRecord>) {
    forall i, j | 0 <= i < j < |candidates| :: GoesFirst(candidates[i], candidates[j])
  }

  lemma {:induction false} MenuIsTakenInTurn(config: Config, tick: int, candidates: seq<GoalRecord>, active: nat, chosen: nat, room: nat)
    requires InOrder(candidates)
    ensures TakenInTurn(config, tick, Menu(config, tick, candidates, active, chosen, room + chosen), candidates, active + chosen, room)
  {
    var menu := Menu(config, tick, candidates, active, chosen, room + chosen);
    if candidates == [] || room == 0 {
      forall r | r in candidates ensures Passed(config, tick, menu, r, active + chosen, room) {
        assert StandsAt(menu, r, 0);
      }
    } else if Allowed(config, tick, candidates[0].goal, active + chosen) {
      var rest := Menu(config, tick, candidates[1..], active, chosen + 1, room + chosen);
      MenuIsTakenInTurn(config, tick, candidates[1..], active, chosen + 1, room - 1);
      MenuTakesFirst(config, tick, candidates, rest, active + chosen, room);
    } else {
      MenuIsTakenInTurn(config, tick, candidates[1..], active, chosen, room);
      MenuPassesFirst(config, tick, candidates, menu, active + chosen, room);
    }
  }

  lemma FirstGoesFirst(candidates: seq<GoalRecord>, rest: seq<GoalRecord>)
    requires InOrder(candidates) && candidates != [] && forall r | r in rest :: r in candidates[1..]
    ensures InOrder(candidates[1..]) && forall r | r in rest :: GoesFirst(candidates[0], r)
  {
    forall r | r in rest ensures GoesFirst(candidates[0], r) {
      var i :| 0 <= i < |candidates[1..]| && candidates[1..][i] == r;
      assert candidates[i + 1] == r;
    }
  }

  lemma MenuTakesFirst(config: Config, tick: int, candidates: seq<GoalRecord>, rest: seq<GoalRecord>, active: nat, room: nat)
    requires InOrder(candidates) && candidates != [] && 0 < room && Allowed(config, tick, candidates[0].goal, active)
    requires TakenInTurn(config, tick, rest, candidates[1..], active + 1, room - 1)
    ensures TakenInTurn(config, tick, [candidates[0]] + rest, candidates, active, room)
  {
    var first, menu := candidates[0], [candidates[0]] + rest;
    FirstGoesFirst(candidates, rest);
    FirstGoesFirst(candidates, candidates[1..]);
    assert candidates == [first] + candidates[1..];
    forall r | r in candidates && r !in menu ensures Passed(config, tick, menu, r, active, room) {
      assert r in candidates[1..];
      PassedBehind(config, tick, first, rest, r, active, room);
    }
  }

  lemma PassedBehind(config: Config, tick: int, first: GoalRecord, rest: seq<GoalRecord>, r: GoalRecord, active: nat, room: nat)
    requires 0 < room && GoesFirst(first, r) && Passed(config, tick, rest, r, active + 1, room - 1)
    ensures Passed(config, tick, [first] + rest, r, active, room)
  {
    var k: nat :| k <= |rest| && StandsAt(rest, r, k) && (k == room - 1 || !Allowed(config, tick, r.goal, active + 1 + k));
    assert StandsAt([first] + rest, r, k + 1);
  }

  lemma MenuPassesFirst(config: Config, tick: int, candidates: seq<GoalRecord>, menu: seq<GoalRecord>, active: nat, room: nat)
    requires InOrder(candidates) && candidates != [] && !Allowed(config, tick, candidates[0].goal, active)
    requires TakenInTurn(config, tick, menu, candidates[1..], active, room)
    ensures TakenInTurn(config, tick, menu, candidates, active, room)
  {
    FirstGoesFirst(candidates, menu);
    assert candidates == [candidates[0]] + candidates[1..];
    forall r | r in candidates && r !in menu ensures Passed(config, tick, menu, r, active, room) {
      if r == candidates[0] {
        assert StandsAt(menu, r, 0);
      }
    }
  }

  lemma CandidatesAreInOrder(records: seq<GoalRecord>, agentId: string)
    requires Valid(records)
    ensures InOrder(Candidates(records, agentId))
    ensures forall r :: r in Candidates(records, agentId) <==> r in records && r.goal.agentId == agentId && r.goal.status == Dormant
  {
    var candidates := Candidates(records, agentId);
    CandidatesAreSorted(records, agentId);
    forall r ensures r in candidates <==> r in records && r.goal.agentId == agentId && r.goal.status == Dormant {
      CandidateCounts(records, agentId, r);
      assert r in multiset(candidates) <==> r in candidates;
      assert r in multiset(records) <==> r in records;
    }
    forall i, j | 0 <= i < j < |candidates| ensures GoesFirst(candidates[i], candidates[j]) {
      CandidatesDiffer(records, agentId, i, j);
      PriorityMeans(candidates[i], candidates[j]);
    }
  }

  lemma CandidatesDiffer(records: seq<GoalRecord>, agentId: string, i: nat, j: nat)
    requires Valid(records) && i < j < |Candidates(records, agentId)|
    ensures Candidates(records, agentId)[i].goal.id != Candidates(records, agentId)[j].goal.id
  {
    var candidates := Candidates(records, agentId);
    var x, y := candidates[i], candidates[j];
    CandidateCounts(records, agentId, x);
    CandidateCounts(records, agentId, y);
    assert x in multiset(candidates) && y in multiset(candidates);
    var k :| 0 <= k < |records| && records[k] == x;
    var l :| 0 <= l < |records| && records[l] == y;
    if x == y {
      TwoPlacesMeanTwice(candidates, i, j);
      TwiceMeansTwoPlaces(records, x);
      assert false;
    }
    assert IdOf(records[k]) != IdOf(records[l]);
  }

  lemma OnlyMembersMatter(config: Config, tick: int, menu: seq<GoalRecord>, xs: seq<GoalRecord>, ys: seq<GoalRecord>, active: nat, room: nat)
    requires TakenInTurn(config, tick, menu, xs, active, room) && forall r :: r in xs <==> r in ys
    ensures TakenInTurn(config, tick, menu, ys, active, room)
  {
  }

  /** The menu of an agent: its dormant goals, however listed, taken in turn by priority up to the limit. */
  lemma MenuIsExactly(config: Config, records: seq<GoalRecord>, agentId: string, tick: int, dormant: seq<GoalRecord>)
    requires Valid(records)
    requires forall r :: r in dormant <==> r in records && r.goal.agentId == agentId && r.goal.status == Dormant
    ensures var menu, active := EligibleForActivation(config, records, agentId, tick), CountActive(records, agentId);
            TakenInTurn(config, tick, menu, dormant, active, Max(0, config.maxActiveGoals - active))
  {
    var active := |ActiveGoals(records, agentId)|;
    var candidates, room := Candidates(records, agentId), Available(config, active);
    CandidatesAreInOrder(records, agentId);
    ActiveGoalsCounted(records, agentId);
    MenuIsTakenInTurn(config, tick, candidates, active, 0, room);
    OnlyMembersMatter(config, tick, EligibleForActivation(config, records, agentId, tick), candidates, dormant, active, room);
  }

  /******* When a batch does fail part-way *******/

  /** The same goal under another name and without a priority. */
  function Renamed(goal: Goal, id: string): Goal {
    goal.(id := id, priority := 0)
  }

  /** Rules do not look at a goal's name or priority. */
  ghost predicate Blind(config: Config, tick: int) {
    forall goal, id, n: nat :: Allowed(config, tick, Renamed(goal, id), n) == Allowed(config, tick, goal, n)
  }

  /** The rule of this name lets every goal through. */
  ghost predicate Unconditional(config: Config, tick: int, eager: string) {
    eager in config.rules && forall goal, n: nat :: config.rules[eager](goal, tick, n)
  }

  /**
   * `g` waits ahead of eager goals and of `x`. It is let in when the last eager goal has been
   * activated, and then `x`, which was on the menu, has no place or is not allowed any more.
   */
  ghost predicate Crowded(config: Config, tick: int, g: GoalRecord, fillers: seq<GoalRecord>, x: GoalRecord, active: nat) {
    var d := active + |fillers|;
    && d < config.maxActiveGoals && g.goal.id != x.goal.id
    && Allowed(config, tick, g.goal, d) && Allowed(config, tick, x.goal, d)
    && (d + 1 == config.maxActiveGoals || !Allowed(config, tick, x.goal, d + 1))
    && forall k, n: nat | 0 <= k < |fillers| :: Allowed(config, tick, fillers[k].goal, n)
  }

  /** Eager goals are all chosen as long as there is room. */
  lemma {:induction false} EagerMenu(
    config: Config, tick: int, fillers: seq<GoalRecord>, rest: seq<GoalRecord>, active: nat, chosen: nat, available: nat
  )
    requires forall k, n: nat | 0 <= k < |fillers| :: Allowed(config, tick, fillers[k].goal, n)
    requires chosen + |fillers| <= available
    ensures Menu(config, tick, fillers + rest, active, chosen, available)
            == fillers + Menu(config, tick, rest, active, chosen + |fillers|, available)
  {
    if fillers == [] {
      assert fillers + rest == rest;
    } else {
      assert (fillers + rest)[0] == fillers[0] && (fillers + rest)[1..] == fillers[1..] + rest;
      var later := fillers[1..];
      forall k, n: nat | 0 <= k < |later| ensures Allowed(config, tick, later[k].goal, n) {
        assert later[k] == fillers[k + 1];
      }
      EagerMenu(config, tick, later, rest, active, chosen + 1, available);
      assert fillers == [fillers[0]] + later;
    }
  }

  /** When the eager goals are active, the menu is `g` alone. */
  lemma LastIsDisplaced(config: Config, records: seq<GoalRecord>, agentId: string, tick: int, g: GoalRecord, x: GoalRecord, emit: Emitter)
    requires Valid(records) && Candidates(records, agentId) == [g, x] && 1 <= tick && SafeInteger(tick)
    requires Crowded(config, tick, g, [], x, |ActiveGoals(records, agentId)|)
    ensures ActivateAll(config, records, [x], tick, emit) == (Some(ValidationFailed), records)
  {
    CandidatesAreDormant(records, agentId);
    assert [g, x][1] == x && x in records;
    FindsRecord(records, x);
    DisplacedMenu(config, tick, g, x, |ActiveGoals(records, agentId)|);
    assert [x][1..] == [];
  }

  lemma DisplacedMenu(config: Config, tick: int, g: GoalRecord, x: GoalRecord, active: nat)
    requires Crowded(config, tick, g, [], x, active)
    ensures Menu(config, tick, [g, x], active, 0, Available(config, active)) == [g]
  {
    var available := Available(config, active);
    assert [g, x][1..] == [x] && [x][1..] == [];
    assert Allowed(config, tick, g.goal, active);
    assert Menu(config, tick, [], active, 1, available) == [];
    assert Menu(config, tick, [x], active, 1, available) == [];
  }

  /** The first eager goal is on the menu, whether `g` is or not, and can be activated. */
  lemma FillerActivates(
    config: Config, records: seq<GoalRecord>, agentId: string, tick: int,
    g: GoalRecord, fillers: seq<GoalRecord>, x: GoalRecord, emit: Emitter
  ) returns (i: nat)
    requires Valid(records) && Candidates(records, agentId) == [g] + fillers + [x] && fillers != []
    requires 1 <= tick && SafeInteger(tick) && emit(fillers[0].goal).Some?
    requires Crowded(config, tick, g, fillers, x, |ActiveGoals(records, agentId)|)
    ensures i < |records| && records[i] == fillers[0]
    ensures var after := records[i := Activated(fillers[0], tick, emit(fillers[0].goal).value)];
            && ActivateSelected(config, records, fillers[0].goal.id, tick, emit) == Ok(after)
            && Valid(after)
            && Candidates(after, agentId) == [g] + fillers[1..] + [x]
            && |ActiveGoals(after, agentId)| == |ActiveGoals(records, agentId)| + 1
  {
    var candidates := Candidates(records, agentId);
    assert candidates[1] == fillers[0];
    assert Without(candidates, 1) == [g] + fillers[1..] + [x];
    FillerIsOffered(config, tick, g, fillers, x, |ActiveGoals(records, agentId)|);
    i := OfferedGoalActivates(config, records, agentId, tick, 1, emit);
  }

  lemma FillerIsOffered(config: Config, tick: int, g: GoalRecord, fillers: seq<GoalRecord>, x: GoalRecord, active: nat)
    requires Crowded(config, tick, g, fillers, x, active) && fillers != []
    ensures Offers(Menu(config, tick, [g] + fillers + [x], active, 0, Available(config, active)), fillers[0].goal.id)
  {
    var candidates, available := [g] + fillers + [x], Available(config, active);
    var rest := candidates[1..];
    assert candidates[0] == g && rest[0] == fillers[0];
    assert 2 <= available;
    assert forall n: nat :: Allowed(config, tick, rest[0].goal, n);
    var menu := Menu(config, tick, candidates, active, 0, available);
    if Allowed(config, tick, g.goal, active) {
      assert menu == [g] + Menu(config, tick, rest, active, 1, available);
      assert menu[1] == fillers[0];
    } else {
      assert menu == Menu(config, tick, rest, active, 0, available);
      assert menu[0] == fillers[0];
    }
  }

  lemma StillCrowded(config: Config, tick: int, g: GoalRecord, fillers: seq<GoalRecord>, x: GoalRecord, active: nat)
    requires Crowded(config, tick, g, fillers, x, active) && fillers != []
    ensures Crowded(config, tick, g, fillers[1..], x, active + 1)
  {
    forall k, n: nat | 0 <= k < |fillers[1..]| ensures Allowed(config, tick, fillers[1..][k].goal, n) {
      assert fillers[1..][k] == fillers[k + 1];
    }
  }

  /** The eager goals are activated one after another, and then `x` is refused. */
  lemma {:induction false} CrowdingOut(
    config: Config, records: seq<GoalRecord>, agentId: string, tick: int,
    g: GoalRecord, fillers: seq<GoalRecord>, x: GoalRecord, emit: Emitter
  )
    requires Valid(records) && Candidates(records, agentId) == [g] + fillers + [x]
    requires 1 <= tick && SafeInteger(tick) && forall goal :: emit(goal).Some?
    requires Crowded(config, tick, g, fillers, x, |ActiveGoals(records, agentId)|)
    ensures var (failure, after) := ActivateAll(config, records, fillers + [x], tick, emit);
            failure == Some(ValidationFailed) && CountActive(after, agentId) == CountActive(records, agentId) + |fillers|
    decreases |fillers|
  {
    if fillers == [] {
      assert [g] + [] + [x] == [g, x] && [] + [x] == [x];
      LastIsDisplaced(config, records, agentId, tick, g, x, emit);
    } else {
      var i := FillerActivates(config, records, agentId, tick, g, fillers, x, emit);
      var after := records[i := Activated(fillers[0], tick, emit(fillers[0].goal).value)];
      assert (fillers + [x])[1..] == fillers[1..] + [x];
      ActiveGoalsCounted(records, agentId);
      ActiveGoalsCounted(after, agentId);
      StillCrowded(config, tick, g, fillers, x, |ActiveGoals(records, agentId)|);
      CrowdingOut(config, after, agentId, tick, g, fillers[1..], x, emit);
    }
  }

  /******* The store in which it fails *******/

  /** Names in order: each is a proper prefix of the next. */
  function Name(k: nat): string {
    seq(k, _ => 'a')
  }

  lemma {:induction false} NamesAreOrdered(j: nat, k: nat)
    requires j <= k
    ensures CodeUnitLe(Name(j), Name(k))
  {
    if j != 0 {
      assert Name(j)[1..] == Name(j - 1) && Name(k)[1..] == Name(k - 1);
      NamesAreOrdered(j - 1, k - 1);
    }
  }

  function EagerRecord(eager: string, agentId: string, k: nat, status: Status): GoalRecord {
    GoalRecord(Goal(Name(k), agentId, 0, eager, status, 0), "evt", None, None)
  }

  /** Eager records of one status, with the names from `from` up to but excluding `to`. */
  function EagerRecords(eager: string, agentId: string, from: nat, to: nat, status: Status): (records: seq<GoalRecord>)
    requires from <= to
    ensures |records| == to - from
    ensures forall k | 0 <= k < |records| :: records[k] == EagerRecord(eager, agentId, from + k, status)
  {
    seq(to - from, k requires 0 <= k => EagerRecord(eager, agentId, from + k, status))
  }

  function Copy(goal: Goal, k: nat): GoalRecord {
    GoalRecord(Renamed(goal, Name(k)), "evt", None, None)
  }

  /** `goal`, then `d - c` eager goals, then a copy of `goal`, all dormant. */
  function Waiting(eager: string, goal: Goal, c: nat, d: nat): seq<GoalRecord>
    requires c <= d
  {
    [Copy(goal, c)] + EagerRecords(eager, goal.agentId, c + 1, d + 1, Dormant) + [Copy(goal, d + 1)]
  }

  /** The same behind `c` active goals. */
  function Store(eager: string, goal: Goal, c: nat, d: nat): seq<GoalRecord>
    requires c <= d
  {
    EagerRecords(eager, goal.agentId, 0, c, Active) + Waiting(eager, goal, c, d)
  }

  lemma StoreIsValid(eager: string, goal: Goal, c: nat, d: nat)
    requires c <= d
    ensures Valid(Store(eager, goal, c, d))
  {
    var store := Store(eager, goal, c, d);
    assert forall k | 0 <= k < |store| :: IdOf(store[k]) == Name(k) && |Name(k)| == k;
  }

  lemma {:induction false} CountActives(actives: seq<GoalRecord>, others: seq<GoalRecord>, agentId: string)
    requires forall k | 0 <= k < |actives| :: ActiveOf(agentId, actives[k])
    requires forall k | 0 <= k < |others| :: !ActiveOf(agentId, others[k])
    ensures CountActive(actives + others, agentId) == |actives|
    decreases |actives| + |others|
  {
    if actives != [] {
      assert (actives + others)[1..] == actives[1..] + others;
      CountActives(actives[1..], others, agentId);
    } else if others != [] {
      assert (actives + others)[1..] == actives + others[1..];
      CountActives(actives, others[1..], agentId);
    }
  }

  lemma DormantOnesWait(actives: seq<GoalRecord>, waiting: seq<GoalRecord>, agentId: string)
    requires forall r | r in actives :: !IsDormant(r)
    requires forall r | r in waiting :: IsDormant(r) && OfAgent(agentId, r)
    ensures multiset(Candidates(actives + waiting, agentId)) == multiset(waiting)
  {
    forall x ensures multiset(Candidates(actives + waiting, agentId))[x] == multiset(waiting)[x] {
      CandidateCounts(actives + waiting, agentId, x);
      assert x in multiset(waiting) <==> x in waiting;
      assert x in multiset(actives) <==> x in actives;
    }
  }

  /** The candidates of the store are the waiting goals in the order of their names. */
  lemma StoreCandidates(eager: string, goal: Goal, c: nat, d: nat)
    requires c <= d && IsDormantGoal(goal)
    ensures Candidates(Store(eager, goal, c, d), goal.agentId) == Waiting(eager, goal, c, d)
    ensures |ActiveGoals(Store(eager, goal, c, d), goal.agentId)| == c
  {
    var agentId, store, waiting := goal.agentId, Store(eager, goal, c, d), Waiting(eager, goal, c, d);
    var actives := EagerRecords(eager, agentId, 0, c, Active);
    CountActives(actives, waiting, agentId);
    ActiveGoalsCounted(store, agentId);
    StoreIsValid(eager, goal, c, d);
    DormantOnesWait(actives, waiting, agentId);
    WaitingIsSorted(eager, goal, c, d);
    CandidatesAreSorted(store, agentId);
    IdsSeparate(store, multiset(waiting));
    PriorityIsTotal();
    SortedUnique(ByPriority, Candidates(store, agentId), waiting);
  }

  lemma WaitingIsSorted(eager: string, goal: Goal, c: nat, d: nat)
    requires c <= d
    ensures Sorted(ByPriority, Waiting(eager, goal, c, d))
  {
    var waiting := Waiting(eager, goal, c, d);
    forall i, j | 0 <= i < j < |waiting| ensures ByPriority(waiting[i], waiting[j]) {
      assert waiting[i].goal.id == Name(c + i) && waiting[j].goal.id == Name(c + j);
      NamesAreOrdered(c + i, c + j);
    }
  }

  /** From `d` on, the last number of active goals in a row at which the goal is allowed. */
  function LastAllowed(config: Config, tick: int, goal: Goal, d: nat): (last: nat)
    requires d < config.maxActiveGoals && Allowed(config, tick, goal, d)
    ensures d <= last < config.maxActiveGoals && Allowed(config, tick, goal, last)
    ensures last + 1 == config.maxActiveGoals || !Allowed(config, tick, goal, last + 1)
    decreases config.maxActiveGoals - d
  {
    if d + 1 == config.maxActiveGoals || !Allowed(config, tick, goal, d + 1) then d
    else LastAllowed(config, tick, goal, d + 1)
  }

  lemma StoreIsCrowded(config: Config, tick: int, eager: string, goal: Goal, c: nat, d: nat)
    requires Blind(config, tick) && Unconditional(config, tick, eager) && c < d < config.maxActiveGoals
    requires !Allowed(config, tick, goal, c) && Allowed(config, tick, goal, d)
    requires d + 1 == config.maxActiveGoals || !Allowed(config, tick, goal, d + 1)
    ensures Crowded(config, tick, Copy(goal, c), EagerRecords(eager, goal.agentId, c + 1, d + 1, Dormant), Copy(goal, d + 1), c)
    ensures !Allowed(config, tick, Copy(goal, c).goal, c)
  {
    assert |Name(c)| != |Name(d + 1)|;
  }

  /**
   * Whenever some goal is refused while `n` are active and allowed while one more is, there is a
   * store whose menu starts to be activated and then fails: each activation lets `goal` in, and
   * in the end it takes the place of the last goal on the menu.
   */
  lemma SocialGoalBreaksTheBatch(config: Config, tick: int, emit: Emitter, eager: string, goal: Goal, n: nat)
    returns (records: seq<GoalRecord>)
    requires config.Valid() && 1 <= tick && SafeInteger(tick) && forall g :: emit(g).Some?
    requires Blind(config, tick) && Unconditional(config, tick, eager)
    requires IsDormantGoal(goal) && n + 1 < config.maxActiveGoals
    requires !Allowed(config, tick, goal, n) && Allowed(config, tick, goal, n + 1)
    ensures Valid(records)
    ensures var menu := EligibleForActivation(config, records, goal.agentId, tick);
            var (failure, after) := ActivateEligible(config, records, goal.agentId, tick, emit);
            && failure == Some(ValidationFailed)
            && CountActive(after, goal.agentId) == CountActive(records, goal.agentId) + |menu| - 1
            && 2 <= |menu|
  {
    var d := LastAllowed(config, tick, goal, n + 1);
    records := Store(eager, goal, n, d);
    var g, x := Copy(goal, n), Copy(goal, d + 1);
    var fillers := EagerRecords(eager, goal.agentId, n + 1, d + 1, Dormant);
    StoreIsValid(eager, goal, n, d);
    StoreCandidates(eager, goal, n, d);
    StoreIsCrowded(config, tick, eager, goal, n, d);
    StartingMenu(config, tick, g, fillers, x, n);
    CrowdingOut(config, records, goal.agentId, tick, g, fillers, x, emit);
  }

  /** At first `g` is not on the menu, and everything behind it is. */
  lemma StartingMenu(config: Config, tick: int, g: GoalRecord, fillers: seq<GoalRecord>, x: GoalRecord, active: nat)
    requires Crowded(config, tick, g, fillers, x, active) && !Allowed(config, tick, g.goal, active)
    ensures Menu(config, tick, [g] + fillers + [x], active, 0, Available(config, active)) == fillers + [x]
  {
    var available := Available(config, active);
    assert ([g] + fillers + [x])[1..] == fillers + [x];
    EagerMenu(config, tick, fillers, [x], active, 0, available);
    assert [x][1..] == [];
  }

  /**
   * If rules do not look at names and one of them lets every goal through, then batches never
   * fail, in any store, exactly when the rules are antitone.
   */
  lemma BatchNeverFailsExactlyWhen(config: Config, tick: int, emit: Emitter, eager: string)
    requires config.Valid() && 1 <= tick && SafeInteger(tick) && forall goal :: emit(goal).Some?
    requires Blind(config, tick) && Unconditional(config, tick, eager)
    ensures Antitone(config, tick) <==>
            forall records, agentId | Valid(records) :: ActivateEligible(config, records, agentId, tick, emit).0 == None
  {
    if Antitone(config, tick) {
      forall records, agentId | Valid(records)
        ensures ActivateEligible(config, records, agentId, tick, emit).0 == None
      {
        BatchActivatesItsMenu(config, records, agentId, tick, emit);
      }
    } else {
      var goal, n: nat :| IsDormantGoal(goal) && n + 1 < config.maxActiveGoals &&
                          Allowed(config, tick, goal, n + 1) && !Allowed(config, tick, goal, n);
      var records := SocialGoalBreaksTheBatch(config, tick, emit, eager, goal, n);
      assert Valid(records) && ActivateEligible(config, records, goal.agentId, tick, emit).0 != None;
    }
  }

  /** One rule lets every goal through, the other wants company. */
  const COMPANY: Config := Config(2, map["eager" := (g: Goal, tick: int, n: nat) => true,
                                         "social" := (g: Goal, tick: int, n: nat) => 1 <= n])

  /** Rules that never fail a batch and rules that do can both meet the conditions above. */
  lemma CompanyIsNotAntitone(tick: int)
    ensures COMPANY.Valid() && Blind(COMPANY, tick) && Unconditional(COMPANY, tick, "eager")
    ensures !Antitone(COMPANY, tick)
    ensures var solitary := COMPANY.(rules := COMPANY.rules - {"social"});
            Blind(solitary, tick) && Unconditional(solitary, tick, "eager") && Antitone(solitary, tick)
  {
    var goal := Goal("1", "a", 0, "social", Dormant, 0);
    assert !Allowed(COMPANY, tick, goal, 0) && Allowed(COMPANY, tick, goal, 0 + 1);
    assert IsDormantGoal(goal);
  }

  /******* The limit on active goals *******/

  datatype Step =
    | ActivateStep(goalId: string, tick: int)
    | ActivateEligibleStep(agentId: string, tick: int)
    | AdvanceStep(goalId: string, delta: real, tick: int)
    | AbandonStep(goalId: string, tick: int)

  function Exec(config: Config, records: seq<GoalRecord>, step: Step, emit: Emitter): seq<GoalRecord> {
    match step
    case ActivateStep(goalId, tick) => OrElse(ActivateSelected(config, records, goalId, tick, emit), records)
    case ActivateEligibleStep(agentId, tick) => ActivateEligible(config, records, agentId, tick, emit).1
    case AdvanceStep(goalId, delta, tick) => OrElse(Advance(records, goalId, delta, tick, emit), records)
    case AbandonStep(goalId, tick) => OrElse(Abandon(records, goalId, tick, emit), records)
  }

  function OrElse(result: Result<seq<GoalRecord>>, otherwise: seq<GoalRecord>): seq<GoalRecord> {
    if result.Ok? then result.value else otherwise
  }

  function Run(config: Config, records: seq<GoalRecord>, steps: seq<Step>, emit: Emitter): seq<GoalRecord>
    decreases |steps|
  {
    if steps == [] then records else Run(config, Exec(config, records, steps[0], emit), steps[1..], emit)
  }

  /** No agent has more active goals afterwards than before, or than allowed. */
  ghost predicate Within(config: Config, before: seq<GoalRecord>, after: seq<GoalRecord>) {
    forall agentId :: |ActiveGoals(after, agentId)| <= Max(config.maxActiveGoals, |ActiveGoals(before, agentId)|)
  }

  lemma SelectedStaysWithin(config: Config, records: seq<GoalRecord>, goalId: string, tick: int, emit: Emitter)
    requires config.Valid()
    ensures Within(config, records, OrElse(ActivateSelected(config, records, goalId, tick, emit), records))
  {
    var result := ActivateSelected(config, records, goalId, tick, emit);
    if result.Ok? {
      var i := Find(records, goalId);
      var owner := records[i].goal.agentId;
      var active := |ActiveGoals(records, owner)|;
      MenuMembers(config, tick, Candidates(records, owner), active, 0, Available(config, active));
      forall agentId ensures |ActiveGoals(result.value, agentId)| <= Max(config.maxActiveGoals, |ActiveGoals(records, agentId)|) {
        ActiveAfterUpdate(records, i, result.value[i], agentId);
      }
    }
  }

  lemma {:induction false} MenuStaysWithin(config: Config, records: seq<GoalRecord>, menu: seq<GoalRecord>, tick: int, emit: Emitter)
    requires config.Valid()
    ensures Within(config, records, ActivateAll(config, records, menu, tick, emit).1)
    decreases |menu|
  {
    if menu != [] {
      SelectedStaysWithin(config, records, menu[0].goal.id, tick, emit);
      var result := ActivateSelected(config, records, menu[0].goal.id, tick, emit);
      if result.Ok? {
        MenuStaysWithin(config, result.value, menu[1..], tick, emit);
      }
    }
  }

  lemma OtherStepsStayWithin(config: Config, records: seq<GoalRecord>, step: Step, emit: Emitter)
    requires config.Valid() && (step.AdvanceStep? || step.AbandonStep?)
    ensures Within(config, records, Exec(config, records, step, emit))
  {
    var i := Find(records, step.goalId);
    var after := Exec(config, records, step, emit);
    if after != records {
      forall agentId ensures |ActiveGoals(after, agentId)| <= |ActiveGoals(records, agentId)| {
        assert after == records[i := after[i]];
        ActiveAfterUpdate(records, i, after[i], agentId);
      }
    }
  }

  /** Whatever the rules and whatever is attempted, active goals never exceed the limit. */
  lemma {:induction false} ActiveGoalsStayWithinLimit(config: Config, records: seq<GoalRecord>, steps: seq<Step>, emit: Emitter)
    requires config.Valid()
    ensures Within(config, records, Run(config, records, steps, emit))
    decreases |steps|
  {
    if steps != [] {
      var step := steps[0];
      match step {
        case ActivateStep(goalId, tick) => SelectedStaysWithin(config, records, goalId, tick, emit);
        case ActivateEligibleStep(agentId, tick) =>
          MenuStaysWithin(config, records, EligibleForActivation(config, records, agentId, tick), tick, emit);
        case AdvanceStep(_, _, _) => OtherStepsStayWithin(config, records, step, emit);
        case AbandonStep(_, _) => OtherStepsStayWithin(config, records, step, emit);
      }
      ActiveGoalsStayWithinLimit(config, Exec(config, records, step, emit), steps[1..], emit);
    }
  }

  /******* The life of a goal *******/

  predicate Tick(tick: int) {
    1 <= tick < 0x20_0000_0000_0000
  }

  ghost predicate Unknown(records: seq<GoalRecord>, goalId: string) {
    forall r | r in records :: r.goal.id != goalId
  }

  /** A goal is activated exactly when it is dormant, on its agent's menu, and the event goes out; else the reason is told. */
  lemma ActivatesExactlyWhen(config: Config, records: seq<GoalRecord>, goalId: string, tick: int, emit: Emitter)
    requires Valid(records)
    ensures var result := ActivateSelected(config, records, goalId, tick, emit);
            && (!Tick(tick) ==> result == Err(ValidationFailed))
            && (Tick(tick) && Unknown(records, goalId) ==> result == Err(NotFound))
            && (forall r | Tick(tick) && r in records && r.goal.id == goalId ::
                  var offered := exists m :: m in EligibleForActivation(config, records, r.goal.agentId, tick) && m.goal.id == goalId;
                  if r.goal.status != Dormant then result == Err(Conflict)
                  else if !offered then result == Err(ValidationFailed)
                  else if emit(r.goal).None? then result == Err(Internal)
                  else result.Ok? && Replaced(records, result.value, r, Activated(r, tick, emit(r.goal).value)))
  {
    forall r | Tick(tick) && r in records && r.goal.id == goalId
      ensures Find(records, goalId) < |records| && records[Find(records, goalId)] == r
    {
      FindsRecord(records, r);
    }
    forall r | r in records
      ensures Offers(EligibleForActivation(config, records, r.goal.agentId, tick), goalId) <==>
              exists m :: m in EligibleForActivation(config, records, r.goal.agentId, tick) && m.goal.id == goalId
    {
      OffersMeans(EligibleForActivation(config, records, r.goal.agentId, tick), goalId);
    }
    KnownIsFound(records, goalId);
  }

  lemma OffersMeans(menu: seq<GoalRecord>, goalId: string)
    ensures Offers(menu, goalId) <==> exists m :: m in menu && m.goal.id == goalId
  {
    if m :| m in menu && m.goal.id == goalId {
      var k :| 0 <= k < |menu| && menu[k] == m;
    }
  }

  lemma KnownIsFound(records: seq<GoalRecord>, goalId: string)
    ensures Unknown(records, goalId) <==> Find(records, goalId) == |records|
  {
    if Find(records, goalId) < |records| {
      assert records[Find(records, goalId)] in records;
    }
  }

  /** One record has been replaced, and nothing else has changed. */
  ghost predicate Replaced(before: seq<GoalRecord>, after: seq<GoalRecord>, was: GoalRecord, now: GoalRecord) {
    exists i :: 0 <= i < |before| && before[i] == was && after == before[i := now]
  }

  /** A batch needs a proper tick; without one nothing happens. */
  lemma BatchNeedsATick(config: Config, records: seq<GoalRecord>, agentId: string, tick: int, emit: Emitter)
    requires !Tick(tick)
    ensures ActivateEligible(config, records, agentId, tick, emit) == (Some(ValidationFailed), records)
  {
  }

  /** A goal is moved forward exactly when it is active, by more than nothing and at most all of it; else the reason is told. */
  lemma AdvancesExactlyWhen(records: seq<GoalRecord>, goalId: string, delta: real, tick: int, emit: Emitter)
    requires Valid(records)
    ensures var result, proper := Advance(records, goalId, delta, tick, emit), Tick(tick) && 0.0 < delta <= 1.0;
            && (!proper ==> result == Err(ValidationFailed))
            && (proper && Unknown(records, goalId) ==> result == Err(NotFound))
            && (forall r | proper && r in records && r.goal.id == goalId ::
                  if r.goal.status != Active then result == Err(Conflict)
                  else if emit(r.goal).None? then result == Err(Internal)
                  else result.Ok?)
  {
    forall r | r in records && r.goal.id == goalId
      ensures Find(records, goalId) < |records| && records[Find(records, goalId)] == r
    {
      FindsRecord(records, r);
    }
    KnownIsFound(records, goalId);
  }

  /** Progress counts in millionths, is rounded to the nearest one and stops at one million. */
  lemma AdvancesExactly(records: seq<GoalRecord>, goalId: string, delta: real, tick: int, emit: Emitter)
    requires Advance(records, goalId, delta, tick, emit).Ok?
    ensures var after := Advance(records, goalId, delta, tick, emit).value;
            exists i :: 0 <= i < |records| && records[i].goal.id == goalId && records[i].goal.status == Active
              && after == records[i := after[i]] && HasAdvanced(records[i], after[i], delta, tick)
  {
    var i := Find(records, goalId);
    var after := Advance(records, goalId, delta, tick, emit).value;
    assert after == records[i := after[i]] && HasAdvanced(records[i], after[i], delta, tick);
  }

  ghost predicate HasAdvanced(before: GoalRecord, after: GoalRecord, delta: real, tick: int) {
    var exact := before.goal.progress as real + delta * 1000000.0;
    && after.goal == before.goal.(progress := after.goal.progress, status := after.goal.status)
    && (if 999999.5 <= exact then
          after.goal.progress == 1_000_000 && after.goal.status == Achieved && after.terminalTick == Some(tick)
        else
          && exact - 0.5 < after.goal.progress as real <= exact + 0.5
          && after.goal.status == Active && after.terminalTick == None)
    && after.activatedTick == before.activatedTick
  }

  /** A goal that is not over yet can be abandoned; it keeps its progress. */
  lemma AbandonsExactlyWhen(records: seq<GoalRecord>, goalId: string, tick: int, emit: Emitter)
    requires Valid(records)
    ensures Abandon(records, goalId, tick, emit).Ok? <==>
              && 1 <= tick < 0x20_0000_0000_0000
              && exists r :: r in records && r.goal.id == goalId && r.goal.status in {Dormant, Active} && emit(r.goal).Some?
    ensures Abandon(records, goalId, tick, emit).Ok? ==>
              var after := Abandon(records, goalId, tick, emit).value;
              exists i :: 0 <= i < |records| && records[i].goal.id == goalId
                && after == records[i := GoalRecord(records[i].goal.(status := Abandoned), after[i].triggerEventId,
                                                    records[i].activatedTick, Some(tick))]
  {
    var i := Find(records, goalId);
    if r :| r in records && r.goal.id == goalId {
      FindsRecord(records, r);
    }
    if Abandon(records, goalId, tick, emit).Ok? {
      assert records[i] in records;
      var after := Abandon(records, goalId, tick, emit).value;
      assert after[i].triggerEventId == emit(records[i].goal).value;
    }
  }

  /** The record is unchanged, or its goal has moved on: dormant, active, over; progress is never lost. */
  ghost predicate Forward(r: GoalRecord, n: GoalRecord) {
    && n.goal.id == r.goal.id && n.goal.agentId == r.goal.agentId && n.goal.priority == r.goal.priority
    && n.goal.activationRule == r.goal.activationRule
    && (r.goal.status in {Achieved, Abandoned} ==> n == r)
    && (r.goal.status == Active ==> n.goal.status != Dormant && n.activatedTick == r.activatedTick)
    && (r.goal.status == Dormant && n.goal.status == Achieved ==> n.activatedTick.Some?)
    && (r.goal.status == Dormant && n.goal.status == Active ==> n.activatedTick.Some?)
    && (r.goal.progress <= COMPLETE ==> r.goal.progress <= n.goal.progress <= COMPLETE)
    && (n.goal.status == Achieved && r.goal.status != Achieved ==> n.goal.progress == COMPLETE)
  }

  ghost predicate AllForward(before: seq<GoalRecord>, after: seq<GoalRecord>) {
    |after| == |before| && forall i | 0 <= i < |before| :: Forward(before[i], after[i])
  }

  lemma ForwardAgain(a: seq<GoalRecord>, b: seq<GoalRecord>, c: seq<GoalRecord>)
    requires AllForward(a, b) && AllForward(b, c)
    ensures AllForward(a, c)
  {
    forall i | 0 <= i < |a| ensures Forward(a[i], c[i]) {
      assert Forward(a[i], b[i]) && Forward(b[i], c[i]);
    }
  }

  lemma ProgressIsKept(progress: int, delta: real)
    requires 0.0 < delta && progress <= COMPLETE
    ensures progress <= Progressed(progress, delta) <= COMPLETE
  {
  }

  lemma UpdateMovesForward(records: seq<GoalRecord>, i: nat, next: GoalRecord)
    requires i < |records| && Forward(records[i], next)
    ensures AllForward(records, records[i := next])
  {
  }

  lemma NothingMoves(records: seq<GoalRecord>)
    ensures AllForward(records, records)
  {
  }

  lemma ActivationMovesForward(config: Config, records: seq<GoalRecord>, goalId: string, tick: int, emit: Emitter)
    ensures AllForward(records, OrElse(ActivateSelected(config, records, goalId, tick, emit), records))
  {
    var i, result := Find(records, goalId), ActivateSelected(config, records, goalId, tick, emit);
    NothingMoves(records);
    if result.Ok? {
      UpdateMovesForward(records, i, result.value[i]);
    }
  }

  lemma AdvanceMovesForward(records: seq<GoalRecord>, goalId: string, delta: real, tick: int, emit: Emitter)
    ensures AllForward(records, OrElse(Advance(records, goalId, delta, tick, emit), records))
  {
    var i, result := Find(records, goalId), Advance(records, goalId, delta, tick, emit);
    NothingMoves(records);
    if result.Ok? {
      if records[i].goal.progress <= COMPLETE {
        ProgressIsKept(records[i].goal.progress, delta);
      }
      UpdateMovesForward(records, i, result.value[i]);
    }
  }

  lemma AbandonMovesForward(records: seq<GoalRecord>, goalId: string, tick: int, emit: Emitter)
    ensures AllForward(records, OrElse(Abandon(records, goalId, tick, emit), records))
  {
    var i, result := Find(records, goalId), Abandon(records, goalId, tick, emit);
    NothingMoves(records);
    if result.Ok? {
      UpdateMovesForward(records, i, result.value[i]);
    }
  }

  lemma {:induction false} MenuMovesForward(config: Config, records: seq<GoalRecord>, menu: seq<GoalRecord>, tick: int, emit: Emitter)
    ensures AllForward(records, ActivateAll(config, records, menu, tick, emit).1)
    decreases |menu|
  {
    if menu == [] {
      NothingMoves(records);
    } else {
      var next := OrElse(ActivateSelected(config, records, menu[0].goal.id, tick, emit), records);
      ActivationMovesForward(config, records, menu[0].goal.id, tick, emit);
      MenuMovesForward(config, next, menu[1..], tick, emit);
      ForwardAgain(records, next, ActivateAll(config, next, menu[1..], tick, emit).1);
    }
  }

  lemma StepMovesForward(config: Config, records: seq<GoalRecord>, step: Step, emit: Emitter)
    ensures AllForward(records, Exec(config, records, step, emit))
  {
    match step {
      case ActivateStep(goalId, tick) => ActivationMovesForward(config, records, goalId, tick, emit);
      case ActivateEligibleStep(agentId, tick) =>
        NothingMoves(records);
        MenuMovesForward(config, records, EligibleForActivation(config, records, agentId, tick), tick, emit);
      case AdvanceStep(goalId, delta, tick) => AdvanceMovesForward(records, goalId, delta, tick, emit);
      case AbandonStep(goalId, tick) => AbandonMovesForward(records, goalId, tick, emit);
    }
  }

  /** In every run goals only move forward: what is over never changes again, and no progress is lost. */
  lemma {:induction false} GoalsOnlyMoveForward(config: Config, records: seq<GoalRecord>, steps: seq<Step>, emit: Emitter)
    ensures AllForward(records, Run(config, records, steps, emit))
    decreases |steps|
  {
    if steps == [] {
      NothingMoves(records);
    } else {
      var next := Exec(config, records, steps[0], emit);
      StepMovesForward(config, records, steps[0], emit);
      GoalsOnlyMoveForward(config, next, steps[1..], emit);
      ForwardAgain(records, next, Run(config, next, steps[1..], emit));
    }
  }
}
