/**
 * Agent memory: records are immutable forever, while compaction keeps each agent's working
 * set of active memories bounded by summarising the least important ones.
 */
module Memory {
  import opened Shared
  import opened Ordering

  const MAX_SOURCE_MEMORIES: int := 256

  datatype Kind = EventKind | ConversationKind | OutcomeKind | ReflectionKind

  /** A memory without its text and references, which play no part in what is kept. */
  datatype Memory = Memory(
    id: string, runId: string, agentId: string, tick: int, kind: Kind, importance: int, sources: Option<seq<string>>)

  /** What a caller asks to be remembered. */
  datatype Input = Input(runId: string, agentId: string, tick: int, kind: Kind, importance: int)

  /** The working-set limits, and the names the id source hands out one after another. */
  datatype Config = Config(maxActive: int, compactTo: int, name: nat -> string) {
    ghost predicate Valid() {
      && 3 <= maxActive <= 10_000 && 2 <= compactTo <= maxActive - 1
      && forall i, j | name(i) == name(j) :: i == j
    }
  }

  /** The repository in insertion order, the append-only compaction relation, and the ids issued. */
  datatype Store = Store(records: seq<Memory>, compactedInto: map<string, string>, issued: nat)

  const EMPTY := Store([], map[], 0)

  predicate AllDistinct(ids: seq<string>) {
    forall i, j | 0 <= i < j < |ids| :: ids[i] != ids[j]
  }

  /** The schema of a memory; text and references are taken as valid. */
  predicate SchemaAccepts(m: Memory) {
    && 0 <= m.tick && SafeInteger(m.tick) && 0 <= m.importance <= 100
    && (m.sources.Some? ==>
          m.kind == ReflectionKind && |m.sources.value| <= MAX_SOURCE_MEMORIES && AllDistinct(m.sources.value))
  }

  function Named(input: Input, id: string): Memory {
    Memory(id, input.runId, input.agentId, input.tick, input.kind, input.importance, None)
  }

  /******* The repository *******/

  predicate Holds(records: seq<Memory>, id: string) {
    exists i | 0 <= i < |records| :: records[i].id == id
  }

  function Append(s: Store, m: Memory): Result<Store> {
    if !SchemaAccepts(m) then Err(SchemaInvalid)
    else if Holds(s.records, m.id) then Err(Conflict)
    else Ok(s.(records := s.records + [m]))
  }

  /** The records of the agent that have not been compacted, in insertion order. */
  function ActiveRecords(compactedInto: map<string, string>, agentId: string, records: seq<Memory>): seq<Memory> {
    if records == [] then []
    else
      var last := records[|records| - 1];
      ActiveRecords(compactedInto, agentId, records[..|records| - 1]) +
      (if last.agentId == agentId && last.id !in compactedInto then [last] else [])
  }

  function Active(s: Store, agentId: string): seq<Memory> {
    ActiveRecords(s.compactedInto, agentId, s.records)
  }

  predicate ByTick(a: Memory, b: Memory) {
    a.tick < b.tick || (a.tick == b.tick && CodeUnitLe(a.id, b.id))
  }

  predicate ByImportance(a: Memory, b: Memory) {
    a.importance < b.importance || (a.importance == b.importance && ByTick(a, b))
  }

  function ListActive(s: Store, agentId: string): seq<Memory> {
    Sort(ByTick, Active(s, agentId))
  }

  function Ids(ms: seq<Memory>): seq<string> {
    seq(|ms|, i requires 0 <= i < |ms| => ms[i].id)
  }

  /** Whether the id names an active memory of the agent. */
  predicate ActiveId(s: Store, agentId: string, id: string) {
    id !in s.compactedInto && exists i | 0 <= i < |s.records| :: s.records[i].id == id && s.records[i].agentId == agentId
  }

  function Relate(compactedInto: map<string, string>, sourceIds: seq<string>, summaryId: string): map<string, string> {
    map id | id in compactedInto.Keys + (set i | 0 <= i < |sourceIds| :: sourceIds[i]) ::
      if id in sourceIds then summaryId else compactedInto[id]
  }

  lemma RelateNext(compactedInto: map<string, string>, sourceIds: seq<string>, i: nat, summaryId: string)
    requires i < |sourceIds|
    ensures Relate(compactedInto, sourceIds[..i + 1], summaryId)
            == Relate(compactedInto, sourceIds[..i], summaryId)[sourceIds[i] := summaryId]
  {
    assert sourceIds[..i + 1] == sourceIds[..i] + [sourceIds[i]];
  }

  function RepositoryCompact(s: Store, agentId: string, summary: Memory, sourceIds: seq<string>): Result<Store> {
    if !SchemaAccepts(summary) then Err(SchemaInvalid)
    else if summary.agentId != agentId || |sourceIds| < 2 || !AllDistinct(sourceIds) || summary.sources != Some(sourceIds)
    then Err(ValidationFailed)
    else if exists i | 0 <= i < |sourceIds| :: !ActiveId(s, agentId, sourceIds[i]) then Err(Conflict)
    else
      match Append(s, summary)
      case Err(code) => Err(code)
      case Ok(appended) => Ok(appended.(compactedInto := Relate(s.compactedInto, sourceIds, summary.id)))
  }

  /******* Recording and compacting *******/

  function MaxImportance(ms: seq<Memory>): int
    requires ms != []
  {
    if |ms| == 1 then ms[0].importance else Max(ms[0].importance, MaxImportance(ms[1..]))
  }

  /** The memories a compaction summarises: the least important, back in order of time. */
  function Sources(config: Config, active: seq<Memory>): seq<Memory>
    requires config.Valid() && config.maxActive < |active|
  {
    SortPermutes(ByImportance, active);
    Sort(ByTick, Sort(ByImportance, active)[..|active| - config.compactTo + 1])
  }

  function Summary(config: Config, s: Store, sources: seq<Memory>, agentId: string, tick: int): Memory
    requires sources != []
  {
    Memory(config.name(s.issued), sources[0].runId, agentId, tick, ReflectionKind, MaxImportance(sources), Some(Ids(sources)))
  }

  /** Compacts when there are too many; the id of the summary is spent even if that fails. */
  function Compact(config: Config, s: Store, agentId: string, tick: int): (Result<bool>, Store)
    requires config.Valid()
  {
    var active := ListActive(s, agentId);
    if |active| <= config.maxActive then (Ok(false), s)
    else
      var sources := Sources(config, active);
      if |sources| < 2 then (Err(Internal), s)
      else
        var spent := s.(issued := s.issued + 1);
        match RepositoryCompact(spent, agentId, Summary(config, s, sources, agentId, tick), Ids(sources))
        case Err(code) => (Err(code), spent)
        case Ok(after) => (Ok(true), after)
  }

  /** Remembers one thing; the result says whether the working set was compacted. */
  function Record(config: Config, s: Store, input: Input): (Result<bool>, Store)
    requires config.Valid()
  {
    var spent := s.(issued := s.issued + 1);
    match Append(spent, Named(input, config.name(s.issued)))
    case Err(code) => (Err(code), spent)
    case Ok(appended) => Compact(config, appended, input.agentId, input.tick)
  }

  class DeterministicMemoryStore {
    const config: Config
    var records: seq<Memory>
    var compactedInto: map<string, string>
    var issued: nat

    function View(): Store
      reads this
    {
      Store(records, compactedInto, issued)
    }

    constructor (config: Config)
      ensures this.config == config && View() == EMPTY
    {
      this.config := config;
      records, compactedInto, issued := [], map[], 0;
    }

    method NextId() returns (id: string)
      modifies this`issued
      ensures id == config.name(old(issued)) && issued == old(issued) + 1
    {
      id := config.name(issued);
      issued := issued + 1;
    }

    method AppendMemory(m: Memory) returns (failure: Option<ErrorCode>)
      modifies this`records
      ensures match Append(old(View()), m)
              case Ok(after) => failure == None && View() == after
              case Err(code) => failure == Some(code) && View() == old(View())
    {
      if !SchemaAccepts(m) {
        return Some(SchemaInvalid);
      }
      if Holds(records, m.id) {
        return Some(Conflict);
      }
      records := records + [m];
      failure := None;
    }

    method ListActiveOf(agentId: string) returns (active: seq<Memory>)
      ensures active == ListActive(View(), agentId)
    {
      active := [];
      for i := 0 to |records|
        invariant active == ActiveRecords(compactedInto, agentId, records[..i])
      {
        assert records[..i + 1][..i] == records[..i];
        if records[i].agentId == agentId && records[i].id !in compactedInto {
          active := active + [records[i]];
        }
      }
      assert records[..|records|] == records;
      active := Sort(ByTick, active);
    }

    /** Adds the summary and marks its sources; nothing changes when a check fails. */
    method CompactInto(agentId: string, summary: Memory, sourceIds: seq<string>) returns (failure: Option<ErrorCode>)
      modifies this`records, this`compactedInto
      ensures match RepositoryCompact(old(View()), agentId, summary, sourceIds)
              case Ok(after) => failure == None && View() == after
              case Err(code) => failure == Some(code) && View() == old(View())
    {
      if !SchemaAccepts(summary) {
        return Some(SchemaInvalid);
      }
      if summary.agentId != agentId || |sourceIds| < 2 || !AllDistinct(sourceIds) || summary.sources != Some(sourceIds) {
        return Some(ValidationFailed);
      }
      var active := AllActive(agentId, sourceIds);
      if !active {
        return Some(Conflict);
      }
      failure := AppendMemory(summary);
      if failure.None? {
        MarkCompacted(sourceIds, summary.id);
      }
    }

    method AllActive(agentId: string, sourceIds: seq<string>) returns (all: bool)
      ensures all <==> !exists i | 0 <= i < |sourceIds| :: !ActiveId(View(), agentId, sourceIds[i])
    {
      for i := 0 to |sourceIds|
        invariant forall k | 0 <= k < i :: ActiveId(View(), agentId, sourceIds[k])
      {
        if !ActiveId(View(), agentId, sourceIds[i]) {
          return false;
        }
      }
      all := true;
    }

    method MarkCompacted(sourceIds: seq<string>, summaryId: string)
      modifies this`compactedInto
      ensures compactedInto == Relate(old(compactedInto), sourceIds, summaryId)
    {
      for i := 0 to |sourceIds|
        invariant compactedInto == Relate(old(compactedInto), sourceIds[..i], summaryId)
      {
        RelateNext(old(compactedInto), sourceIds, i, summaryId);
        compactedInto := compactedInto[sourceIds[i] := summaryId];
      }
      assert sourceIds[..|sourceIds|] == sourceIds;
    }

    method CompactAgent(agentId: string, tick: int) returns (result: Result<bool>)
      requires config.Valid()
      modifies this
      ensures (result, View()) == Compact(config, old(View()), agentId, tick)
    {
      var active := ListActiveOf(agentId);
      if |active| <= config.maxActive {
        return Ok(false);
      }
      var sources := Sources(config, active);
      if |sources| < 2 {
        return Err(Internal);
      }
      var failure := Summarise(agentId, tick, sources);
      return if failure.Some? then Err(failure.value) else Ok(true);
    }

    /** Spends an id on the summary of the sources and stores it. */
    method Summarise(agentId: string, tick: int, sources: seq<Memory>) returns (failure: Option<ErrorCode>)
      requires sources != []
      modifies this
      ensures var spent := old(View()).(issued := old(issued) + 1);
              match RepositoryCompact(spent, agentId, Summary(config, old(View()), sources, agentId, tick), Ids(sources))
              case Ok(after) => failure == None && View() == after
              case Err(code) => failure == Some(code) && View() == spent
    {
      var id := NextId();
      var summary := Memory(id, sources[0].runId, agentId, tick, ReflectionKind, MaxImportance(sources), Some(Ids(sources)));
      failure := CompactInto(agentId, summary, Ids(sources));
    }

    method RecordMemory(input: Input) returns (result: Result<bool>)
      requires config.Valid()
      modifies this
      ensures (result, View()) == Record(config, old(View()), input)
    {
      var id := NextId();
      var failure := AppendMemory(Named(input, id));
      if failure.Some? {
        return Err(failure.value);
      }
      result := CompactAgent(input.agentId, input.tick);
    }
  }

  /******* What every run keeps *******/

  function IdOf(m: Memory): string {
    m.id
  }

  /** The position of the record with this id, or the number of records when there is none. */
  function IndexOf(records: seq<Memory>, id: string): (i: nat)
    ensures i <= |records| && (i < |records| ==> records[i].id == id)
    ensures i == |records| <==> forall k | 0 <= k < |records| :: records[k].id != id
  {
    if records == [] then 0
    else if records[0].id == id then 0
    else IndexOf(records[1..], id) + 1
  }

  /** A compacted memory points to a later one of the same agent that matters at least as much. */
  ghost predicate Linked(s: Store) {
    forall i | 0 <= i < |s.records| && s.records[i].id in s.compactedInto ::
      var j := IndexOf(s.records, s.compactedInto[s.records[i].id]);
      i < j < |s.records| && s.records[j].agentId == s.records[i].agentId && s.records[i].importance <= s.records[j].importance
  }

  ghost predicate Issued(config: Config, id: string, issued: nat) {
    exists n: nat :: n < issued && id == config.name(n)
  }

  ghost predicate Sane(config: Config, s: Store) {
    && KeysDistinct(IdOf, s.records)
    && (forall i | 0 <= i < |s.records| :: SchemaAccepts(s.records[i]))
    && (forall i | 0 <= i < |s.records| :: Issued(config, s.records[i].id, s.issued))
    && (forall id | id in s.compactedInto :: Holds(s.records, id))
    && Linked(s)
  }

  lemma {:induction false} IndexOfPrefix(records: seq<Memory>, more: seq<Memory>, id: string)
    ensures IndexOf(records, id) < |records| ==> IndexOf(records + more, id) == IndexOf(records, id)
    ensures IndexOf(records, id) == |records| ==> IndexOf(records + more, id) == |records| + IndexOf(more, id)
  {
    if records == [] {
      assert records + more == more;
    } else {
      assert (records + more)[1..] == records[1..] + more;
      IndexOfPrefix(records[1..], more, id);
    }
  }

  lemma {:induction false} ActiveRecordsMembers(compactedInto: map<string, string>, agentId: string, records: seq<Memory>)
    ensures forall m :: m in ActiveRecords(compactedInto, agentId, records) <==>
                        m in records && m.agentId == agentId && m.id !in compactedInto
    ensures KeysDistinct(IdOf, records) ==> KeysDistinct(IdOf, ActiveRecords(compactedInto, agentId, records))
  {
    if records != [] {
      ActiveRecordsMembers(compactedInto, agentId, records[..|records| - 1]);
    }
  }

  lemma ActiveRecordsAppend(compactedInto: map<string, string>, agentId: string, records: seq<Memory>, m: Memory)
    ensures ActiveRecords(compactedInto, agentId, records + [m]) ==
            ActiveRecords(compactedInto, agentId, records) + (if m.agentId == agentId && m.id !in compactedInto then [m] else [])
  {
    assert (records + [m])[..|records|] == records;
  }

  /** Compacting memories of one agent leaves every other agent's working set alone. */
  lemma {:induction false} ActiveRecordsIgnoresOthers(
    before: map<string, string>, after: map<string, string>, agentId: string, records: seq<Memory>
  )
    requires forall i | 0 <= i < |records| && records[i].agentId == agentId ::
               records[i].id in before <==> records[i].id in after
    ensures ActiveRecords(before, agentId, records) == ActiveRecords(after, agentId, records)
  {
    if records != [] {
      ActiveRecordsIgnoresOthers(before, after, agentId, records[..|records| - 1]);
    }
  }

  function IdSet(ms: seq<Memory>): set<string> {
    set m | m in ms :: m.id
  }

  lemma {:induction false} IdSetSize(ms: seq<Memory>)
    requires KeysDistinct(IdOf, ms)
    ensures |IdSet(ms)| == |ms|
  {
    if ms != [] {
      IdSetSize(ms[..|ms| - 1]);
      IdSetGrows(ms);
    }
  }

  lemma IdSetGrows(ms: seq<Memory>)
    requires ms != [] && KeysDistinct(IdOf, ms)
    ensures IdSet(ms) == IdSet(ms[..|ms| - 1]) + {ms[|ms| - 1].id}
    ensures ms[|ms| - 1].id !in IdSet(ms[..|ms| - 1])
  {
    var shorter, last := ms[..|ms| - 1], ms[|ms| - 1];
    assert ms == shorter + [last];
    forall m | m in shorter ensures m.id != last.id {
      var i :| 0 <= i < |shorter| && shorter[i] == m;
      assert IdOf(ms[i]) != IdOf(last);
    }
  }

  lemma {:induction false} MaxImportanceBounds(ms: seq<Memory>)
    requires ms != []
    ensures forall i | 0 <= i < |ms| :: ms[i].importance <= MaxImportance(ms)
    ensures exists i :: 0 <= i < |ms| && ms[i].importance == MaxImportance(ms)
  {
    if |ms| == 1 {
      assert ms[0].importance == MaxImportance(ms);
    } else {
      MaxImportanceBounds(ms[1..]);
      var k :| 0 <= k < |ms[1..]| && ms[1..][k].importance == MaxImportance(ms[1..]);
      assert ms[k + 1].importance == MaxImportance(ms[1..]);
    }
  }

  lemma OrdersAreTotal()
    ensures TotalPreorder(ByTick) && TotalPreorder(ByImportance)
  {
    forall x: Memory, y: Memory ensures (ByTick(x, y) || ByTick(y, x)) && (ByImportance(x, y) || ByImportance(y, x)) {
      CodeUnitTotal(x.id, y.id);
    }
    forall x: Memory, y: Memory, z: Memory | ByTick(x, y) && ByTick(y, z) ensures ByTick(x, z) {
      if x.tick == z.tick {
        CodeUnitTransitive(x.id, y.id, z.id);
      }
    }
  }

  /** `a` comes before `b` in time, the id deciding between memories of one tick. */
  ghost predicate Earlier(a: Memory, b: Memory) {
    a.tick < b.tick || (a.tick == b.tick && Dictionary(a.id, b.id))
  }

  /** `a` matters less than `b`, or as much and comes earlier. */
  ghost predicate MattersLess(a: Memory, b: Memory) {
    a.importance < b.importance || (a.importance == b.importance && Earlier(a, b))
  }

  lemma OrdersMean(a: Memory, b: Memory)
    ensures ByTick(a, b) <==> Earlier(a, b)
    ensures ByImportance(a, b) <==> MattersLess(a, b)
  {
    CodeUnitsCompareAsADictionary(a.id, b.id);
  }

  /** The `n` memories that come first by importance matter less than any other. */
  lemma LeastImportant(active: seq<Memory>, n: nat)
    requires n <= |active| && KeysDistinct(IdOf, active)
    ensures |Sort(ByImportance, active)| == |active|
    ensures var chosen := Sort(ByImportance, active)[..n];
            && KeysDistinct(IdOf, chosen)
            && (forall m | m in chosen :: m in active)
            && (forall m, kept | m in chosen && kept in active && kept !in chosen :: MattersLess(m, kept))
  {
    var byImportance := Sort(ByImportance, active);
    SortKeeps(ByImportance, IdOf, active);
    OrdersAreTotal();
    SortSorts(ByImportance, active);
    forall m, kept | m in byImportance[..n] && kept in active && kept !in byImportance[..n]
      ensures MattersLess(m, kept)
    {
      SortedPrefixIsLeast(byImportance, n, m, kept);
    }
  }

  lemma SortedPrefixIsLeast(sorted: seq<Memory>, n: nat, m: Memory, kept: Memory)
    requires n <= |sorted| && Sorted(ByImportance, sorted)
    requires m in sorted[..n] && kept in sorted && kept !in sorted[..n]
    ensures MattersLess(m, kept)
  {
    var i :| 0 <= i < n && sorted[..n][i] == m;
    var j :| 0 <= j < |sorted| && sorted[j] == kept;
    assert forall k | 0 <= k < n :: sorted[..n][k] == sorted[k];
    assert ByImportance(sorted[i], sorted[j]);
    OrdersMean(m, kept);
  }

  /**
   * Memories that make room for one summary so that `size` remain: different active ones, listed
   * by time, each of which matters less than any that is kept.
   */
  ghost predicate MakesRoom(active: seq<Memory>, sources: seq<Memory>, size: int) {
    && |sources| == |active| - size + 1
    && (forall m | m in sources :: m in active)
    && (forall i, j | 0 <= i < j < |sources| :: sources[i].id != sources[j].id && Earlier(sources[i], sources[j]))
    && (forall m, kept | m in sources && kept in active && kept !in sources :: MattersLess(m, kept))
  }

  /** The sources are distinct active memories, as many as needed, and the least important ones. */
  lemma SourcesAreLeastImportant(config: Config, active: seq<Memory>)
    requires config.Valid() && config.maxActive < |active| && KeysDistinct(IdOf, active)
    ensures var sources := Sources(config, active);
            MakesRoom(active, sources, config.compactTo) && KeysDistinct(IdOf, sources)
  {
    var n := |active| - config.compactTo + 1;
    LeastImportant(active, n);
    var chosen := Sort(ByImportance, active)[..n];
    SortKeeps(ByTick, IdOf, chosen);
    OrdersAreTotal();
    SortSorts(ByTick, chosen);
    var sources := Sort(ByTick, chosen);
    forall i, j | 0 <= i < j < |sources| ensures sources[i].id != sources[j].id && Earlier(sources[i], sources[j]) {
      OrdersMean(sources[i], sources[j]);
      assert IdOf(sources[i]) != IdOf(sources[j]);
    }
  }

  /** An id that has not been handed out yet names no record. */
  lemma FreshIdsAreUnused(config: Config, s: Store)
    requires config.Valid() && Sane(config, s)
    ensures !Holds(s.records, config.name(s.issued)) && config.name(s.issued) !in s.compactedInto
  {
    forall i | 0 <= i < |s.records| ensures s.records[i].id != config.name(s.issued) {
      assert Issued(config, s.records[i].id, s.issued);
    }
  }

  lemma IssuedGrows(config: Config, id: string, issued: nat)
    requires Issued(config, id, issued)
    ensures Issued(config, id, issued + 1)
  {
  }

  lemma LinkedAppend(s: Store, m: Memory, issued: nat)
    requires Linked(s) && m.id !in s.compactedInto
    ensures Linked(Store(s.records + [m], s.compactedInto, issued))
  {
    var after := s.records + [m];
    forall i | 0 <= i < |after| && after[i].id in s.compactedInto
      ensures var j := IndexOf(after, s.compactedInto[after[i].id]);
              i < j < |after| && after[j].agentId == after[i].agentId && after[i].importance <= after[j].importance
    {
      assert i < |s.records| && after[i] == s.records[i];
      IndexOfPrefix(s.records, [m], s.compactedInto[after[i].id]);
    }
  }

  lemma IssuedAfterAppend(config: Config, s: Store, m: Memory)
    requires m.id == config.name(s.issued) && forall i | 0 <= i < |s.records| :: Issued(config, s.records[i].id, s.issued)
    ensures var after := s.records + [m]; forall i | 0 <= i < |after| :: Issued(config, after[i].id, s.issued + 1)
  {
    var after := s.records + [m];
    forall i | 0 <= i < |after| ensures Issued(config, after[i].id, s.issued + 1) {
      if i < |s.records| {
        assert after[i] == s.records[i];
        IssuedGrows(config, s.records[i].id, s.issued);
      }
    }
  }

  lemma HeldAfterAppend(records: seq<Memory>, m: Memory, id: string)
    requires Holds(records, id)
    ensures Holds(records + [m], id)
  {
    var i :| 0 <= i < |records| && records[i].id == id;
    assert (records + [m])[i].id == id;
  }

  lemma DistinctAfterAppend(records: seq<Memory>, m: Memory)
    requires KeysDistinct(IdOf, records) && !Holds(records, m.id)
    ensures KeysDistinct(IdOf, records + [m])
  {
  }

  lemma AppendKeepsSane(config: Config, s: Store, m: Memory)
    requires config.Valid() && Sane(config, s) && m.id == config.name(s.issued) && SchemaAccepts(m)
    ensures Sane(config, Store(s.records + [m], s.compactedInto, s.issued + 1))
    ensures !Holds(s.records, m.id) && m.id !in s.compactedInto
  {
    FreshIdsAreUnused(config, s);
    LinkedAppend(s, m, s.issued + 1);
    IssuedAfterAppend(config, s, m);
    DistinctAfterAppend(s.records, m);
    forall id | id in s.compactedInto ensures Holds(s.records + [m], id) {
      HeldAfterAppend(s.records, m, id);
    }
  }

  /******* One compaction *******/

  /** Sources fit for a summary: distinct active memories of the agent. */
  ghost predicate Fit(s: Store, agentId: string, sources: seq<Memory>) {
    && sources != [] && KeysDistinct(IdOf, sources)
    && (forall m | m in sources :: m in s.records && m.agentId == agentId && m.id !in s.compactedInto)
    && (forall m | m in sources :: m.importance <= MaxImportance(sources))
    && 0 <= MaxImportance(sources) <= 100
  }

  /** What the compaction of an agent's overfull working set chooses. */
  lemma ChosenSources(config: Config, s: Store, agentId: string) returns (sources: seq<Memory>)
    requires config.Valid() && Sane(config, s) && config.maxActive < |Active(s, agentId)|
    ensures |ListActive(s, agentId)| == |Active(s, agentId)| && sources == Sources(config, ListActive(s, agentId))
    ensures |sources| == |Active(s, agentId)| - config.compactTo + 1 && Fit(s, agentId, sources)
    ensures MakesRoom(Active(s, agentId), sources, config.compactTo)
  {
    ActiveRecordsMembers(s.compactedInto, agentId, s.records);
    SortKeeps(ByTick, IdOf, Active(s, agentId));
    SourcesAreLeastImportant(config, ListActive(s, agentId));
    sources := Sources(config, ListActive(s, agentId));
    SummaryImportance(s.records, sources);
  }

  lemma SummaryImportance(records: seq<Memory>, sources: seq<Memory>)
    requires sources != [] && (forall m | m in sources :: m in records)
    requires forall i | 0 <= i < |records| :: SchemaAccepts(records[i])
    ensures 0 <= MaxImportance(sources) <= 100
    ensures forall m | m in sources :: m.importance <= MaxImportance(sources)
  {
    MaxImportanceBounds(sources);
    var i :| 0 <= i < |sources| && sources[i].importance == MaxImportance(sources);
    assert sources[i] in records;
  }

  /** The store after a compaction that went through. */
  function Compacted(config: Config, s: Store, sources: seq<Memory>, agentId: string, tick: int): Store
    requires sources != []
  {
    var summary := Summary(config, s, sources, agentId, tick);
    Store(s.records + [summary], Relate(s.compactedInto, Ids(sources), summary.id), s.issued + 1)
  }

  lemma FitIds(s: Store, agentId: string, sources: seq<Memory>)
    requires Fit(s, agentId, sources)
    ensures AllDistinct(Ids(sources))
    ensures forall i | 0 <= i < |sources| :: ActiveId(s, agentId, Ids(sources)[i])
  {
    forall i, j | 0 <= i < j < |sources| ensures Ids(sources)[i] != Ids(sources)[j] {
      assert IdOf(sources[i]) != IdOf(sources[j]);
    }
    forall i | 0 <= i < |sources| ensures ActiveId(s, agentId, Ids(sources)[i]) {
      assert sources[i] in s.records;
    }
  }

  lemma RepositoryOutcome(config: Config, s: Store, agentId: string, tick: int, sources: seq<Memory>)
    requires config.Valid() && Sane(config, s) && Fit(s, agentId, sources) && 2 <= |sources|
    requires 0 <= tick && SafeInteger(tick)
    ensures RepositoryCompact(s.(issued := s.issued + 1), agentId, Summary(config, s, sources, agentId, tick), Ids(sources))
            == if |sources| <= MAX_SOURCE_MEMORIES then Ok(Compacted(config, s, sources, agentId, tick)) else Err(SchemaInvalid)
  {
    var spent := s.(issued := s.issued + 1);
    FitIds(spent, agentId, sources);
    FreshIdsAreUnused(config, s);
    AcceptedCompaction(spent, agentId, Summary(config, s, sources, agentId, tick), Ids(sources));
  }

  lemma AcceptedCompaction(s: Store, agentId: string, summary: Memory, ids: seq<string>)
    requires summary.agentId == agentId && summary.sources == Some(ids) && summary.kind == ReflectionKind
    requires 0 <= summary.tick && SafeInteger(summary.tick) && 0 <= summary.importance <= 100
    requires 2 <= |ids| && AllDistinct(ids) && !Holds(s.records, summary.id)
    requires forall i | 0 <= i < |ids| :: ActiveId(s, agentId, ids[i])
    ensures RepositoryCompact(s, agentId, summary, ids) ==
            if |ids| <= MAX_SOURCE_MEMORIES
            then Ok(Store(s.records + [summary], Relate(s.compactedInto, ids, summary.id), s.issued))
            else Err(SchemaInvalid)
  {
  }

  /** An overfull working set is compacted, unless the sources are too many for one summary. */
  lemma CompactionOutcome(config: Config, s: Store, agentId: string, tick: int, sources: seq<Memory>)
    requires config.Valid() && Sane(config, s) && config.maxActive < |ListActive(s, agentId)|
    requires 0 <= tick && SafeInteger(tick) && 2 <= |sources| && Fit(s, agentId, sources)
    requires sources == Sources(config, ListActive(s, agentId))
    ensures Compact(config, s, agentId, tick) ==
            if |sources| <= MAX_SOURCE_MEMORIES then (Ok(true), Compacted(config, s, sources, agentId, tick))
            else (Err(SchemaInvalid), s.(issued := s.issued + 1))
  {
    RepositoryOutcome(config, s, agentId, tick, sources);
  }

  lemma CompactedIsLinked(config: Config, s: Store, sources: seq<Memory>, agentId: string, tick: int)
    requires config.Valid() && Sane(config, s) && Fit(s, agentId, sources)
    ensures Linked(Compacted(config, s, sources, agentId, tick))
  {
    var t := Compacted(config, s, sources, agentId, tick);
    var summary := t.records[|s.records|];
    FreshIdsAreUnused(config, s);
    forall i | 0 <= i < |t.records| && t.records[i].id in t.compactedInto
      ensures var j := IndexOf(t.records, t.compactedInto[t.records[i].id]);
              i < j < |t.records| && t.records[j].agentId == t.records[i].agentId
              && t.records[i].importance <= t.records[j].importance
    {
      if i == |s.records| {
        NotItsOwnSource(s, sources, summary.id);
        assert false;
      } else if t.records[i].id in Ids(sources) {
        IndexOfPrefix(s.records, [summary], summary.id);
        var k :| 0 <= k < |sources| && Ids(sources)[k] == t.records[i].id;
        SameIdSameRecord(s.records, t.records[i], sources[k]);
      } else {
        IndexOfPrefix(s.records, [summary], s.compactedInto[t.records[i].id]);
      }
    }
  }

  lemma NotItsOwnSource(s: Store, sources: seq<Memory>, id: string)
    requires !Holds(s.records, id) && forall m | m in sources :: m in s.records
    ensures id !in Ids(sources)
  {
    forall k | 0 <= k < |sources| ensures Ids(sources)[k] != id {
      assert sources[k] in s.records;
    }
  }

  lemma SameIdSameRecord(records: seq<Memory>, a: Memory, b: Memory)
    requires KeysDistinct(IdOf, records) && a in records && b in records && a.id == b.id
    ensures a == b
  {
    var i :| 0 <= i < |records| && records[i] == a;
    var j :| 0 <= j < |records| && records[j] == b;
    assert IdOf(a) == IdOf(b);
  }

  lemma RelatedIdsAreHeld(s: Store, sources: seq<Memory>, agentId: string, summary: Memory)
    requires Fit(s, agentId, sources) && forall id | id in s.compactedInto :: Holds(s.records, id)
    ensures forall id | id in Relate(s.compactedInto, Ids(sources), summary.id) :: Holds(s.records + [summary], id)
  {
    forall id | id in Relate(s.compactedInto, Ids(sources), summary.id) ensures Holds(s.records + [summary], id) {
      if id in Ids(sources) {
        var k :| 0 <= k < |sources| && Ids(sources)[k] == id;
        assert sources[k] in s.records;
      }
      var i :| 0 <= i < |s.records| && s.records[i].id == id;
      assert (s.records + [summary])[i].id == id;
    }
  }

  lemma CompactedIsSane(config: Config, s: Store, sources: seq<Memory>, agentId: string, tick: int)
    requires config.Valid() && Sane(config, s) && Fit(s, agentId, sources) && 0 <= tick && SafeInteger(tick)
    requires |sources| <= MAX_SOURCE_MEMORIES
    ensures Sane(config, Compacted(config, s, sources, agentId, tick))
  {
    var summary := Summary(config, s, sources, agentId, tick);
    FitIds(s, agentId, sources);
    AppendKeepsSane(config, s, summary);
    CompactedIsLinked(config, s, sources, agentId, tick);
    RelatedIdsAreHeld(s, sources, agentId, summary);
  }

  /** Afterwards the sources have given way to one summary. */
  lemma CompactedSize(config: Config, s: Store, sources: seq<Memory>, agentId: string, tick: int)
    requires config.Valid() && Sane(config, s) && Fit(s, agentId, sources)
    requires forall m | m in sources :: m in Active(s, agentId)
    ensures |Active(Compacted(config, s, sources, agentId, tick), agentId)| == |Active(s, agentId)| - |sources| + 1
  {
    var summary := Summary(config, s, sources, agentId, tick);
    var after := Relate(s.compactedInto, Ids(sources), summary.id);
    FreshIdsAreUnused(config, s);
    NotItsOwnSource(s, sources, summary.id);
    ActiveRecordsAppend(after, agentId, s.records, summary);
    var kept := ActiveRecords(after, agentId, s.records);
    ActiveRecordsMembers(after, agentId, s.records);
    ActiveRecordsMembers(s.compactedInto, agentId, s.records);
    KeptIds(s, sources, agentId, after);
    IdSetSize(kept);
    IdSetSize(sources);
    IdSetSize(Active(s, agentId));
    assert IdSet(sources) <= IdSet(Active(s, agentId));
  }

  /** Nobody else is affected. */
  lemma CompactedAlone(config: Config, s: Store, sources: seq<Memory>, agentId: string, tick: int, other: string)
    requires config.Valid() && Sane(config, s) && Fit(s, agentId, sources) && other != agentId
    ensures Active(Compacted(config, s, sources, agentId, tick), other) == Active(s, other)
  {
    var summary := Summary(config, s, sources, agentId, tick);
    var after := Relate(s.compactedInto, Ids(sources), summary.id);
    ActiveRecordsAppend(after, other, s.records, summary);
    forall i | 0 <= i < |s.records| && s.records[i].agentId == other
      ensures s.records[i].id in s.compactedInto <==> s.records[i].id in after
    {
      if s.records[i].id in Ids(sources) {
        var k :| 0 <= k < |sources| && Ids(sources)[k] == s.records[i].id;
        SameIdSameRecord(s.records, s.records[i], sources[k]);
      }
    }
    ActiveRecordsIgnoresOthers(s.compactedInto, after, other, s.records);
  }

  lemma KeptIds(s: Store, sources: seq<Memory>, agentId: string, after: map<string, string>)
    requires KeysDistinct(IdOf, s.records)
    requires forall m | m in sources :: m in s.records && m.agentId == agentId
    requires forall id :: id in after <==> id in s.compactedInto || id in Ids(sources)
    ensures IdSet(ActiveRecords(after, agentId, s.records)) == IdSet(Active(s, agentId)) - IdSet(sources)
  {
    ActiveRecordsMembers(s.compactedInto, agentId, s.records);
    ActiveRecordsMembers(after, agentId, s.records);
    forall id ensures id in Ids(sources) <==> id in IdSet(sources) {
      if id in Ids(sources) {
        var k :| 0 <= k < |sources| && Ids(sources)[k] == id;
        assert sources[k] in sources;
      }
      if id in IdSet(sources) {
        var m :| m in sources && m.id == id;
        var k :| 0 <= k < |sources| && sources[k] == m;
        assert Ids(sources)[k] == id;
      }
    }
    forall id ensures id in IdSet(ActiveRecords(after, agentId, s.records)) <==>
                      id in IdSet(Active(s, agentId)) && id !in IdSet(sources) {
    }
  }

  /******* Any run of records *******/

  /** The largest compaction one step past the limit fits into a summary. */
  predicate SummaryFits(config: Config) {
    config.maxActive - config.compactTo + 2 <= MAX_SOURCE_MEMORIES
  }

  predicate Remembers(input: Input) {
    SchemaAccepts(Named(input, ""))
  }

  /** Later on nothing was changed or removed, and only `agentId`'s working set may differ. */
  ghost predicate Extends(s: Store, t: Store, agentId: string) {
    && s.records <= t.records
    && (forall id | id in s.compactedInto :: id in t.compactedInto && t.compactedInto[id] == s.compactedInto[id])
    && (forall other | other != agentId :: Active(t, other) == Active(s, other))
  }

  lemma MoreIssued(config: Config, s: Store)
    requires Sane(config, s)
    ensures Sane(config, s.(issued := s.issued + 1))
  {
    forall i | 0 <= i < |s.records| ensures Issued(config, s.records[i].id, s.issued + 1) {
      IssuedGrows(config, s.records[i].id, s.issued);
    }
  }

  lemma AppendedExtends(s: Store, m: Memory, issued: nat)
    requires m.id !in s.compactedInto
    ensures var t := Store(s.records + [m], s.compactedInto, issued);
            Extends(s, t, m.agentId) && Active(t, m.agentId) == Active(s, m.agentId) + [m]
  {
    var t := Store(s.records + [m], s.compactedInto, issued);
    forall agentId ensures Active(t, agentId) == Active(s, agentId) + (if m.agentId == agentId then [m] else []) {
      ActiveRecordsAppend(s.compactedInto, agentId, s.records, m);
    }
  }

  lemma ExtendsTransitively(s: Store, t: Store, u: Store, agentId: string)
    requires Extends(s, t, agentId) && Extends(t, u, agentId)
    ensures Extends(s, u, agentId)
  {
  }

  lemma RejectedRecord(config: Config, s: Store, input: Input)
    requires config.Valid() && Sane(config, s) && !Remembers(input)
    ensures Record(config, s, input) == (Err(SchemaInvalid), s.(issued := s.issued + 1))
    ensures Sane(config, s.(issued := s.issued + 1))
  {
    MoreIssued(config, s);
  }

  /** The memory itself is always stored; what follows is the compaction. */
  lemma AcceptedRecord(config: Config, s: Store, input: Input) returns (t: Store)
    requires config.Valid() && Sane(config, s) && Remembers(input)
    ensures t == Store(s.records + [Named(input, config.name(s.issued))], s.compactedInto, s.issued + 1)
    ensures Sane(config, t) && Extends(s, t, input.agentId)
    ensures Active(t, input.agentId) == Active(s, input.agentId) + [Named(input, config.name(s.issued))]
    ensures Record(config, s, input) == Compact(config, t, input.agentId, input.tick)
  {
    var m := Named(input, config.name(s.issued));
    AppendKeepsSane(config, s, m);
    t := Store(s.records + [m], s.compactedInto, s.issued + 1);
    AppendedExtends(s, m, s.issued + 1);
  }

  /**
   * One record. Rejected input changes nothing but the spent id; otherwise the memory joins the
   * working set, and past the limit that is compacted to the target size, or the call fails with
   * the memory already stored when the sources are too many for one summary.
   */
  lemma RecordOutcome(config: Config, s: Store, input: Input)
    requires config.Valid() && Sane(config, s)
    ensures var (result, t) := Record(config, s, input);
            var n := |Active(s, input.agentId)| + 1;
            && Sane(config, t) && Extends(s, t, input.agentId)
            && if !Remembers(input) then
                 result == Err(SchemaInvalid) && |Active(t, input.agentId)| == n - 1
               else if n <= config.maxActive then
                 result == Ok(false) && |Active(t, input.agentId)| == n
               else if n - config.compactTo + 1 <= MAX_SOURCE_MEMORIES then
                 result == Ok(true) && |Active(t, input.agentId)| == config.compactTo
               else
                 result == Err(SchemaInvalid) && |Active(t, input.agentId)| == n
  {
    if !Remembers(input) {
      RejectedRecord(config, s, input);
    } else {
      var u := AcceptedRecord(config, s, input);
      if |Active(u, input.agentId)| <= config.maxActive {
        SortPermutes(ByTick, Active(u, input.agentId));
      } else {
        CompactionStep(config, u, input.agentId, input.tick);
        ExtendsTransitively(s, u, Record(config, s, input).1, input.agentId);
      }
    }
  }

  /** The memory as it was asked for, under the next id. */
  ghost predicate AsAsked(config: Config, s: Store, input: Input, m: Memory) {
    && m.id == config.name(s.issued) && m.runId == input.runId && m.agentId == input.agentId
    && m.tick == input.tick && m.kind == input.kind && m.importance == input.importance && m.sources == None
  }

  /** A reflection that names the sources and matters as much as the most important of them. */
  ghost predicate Summarises(summary: Memory, sources: seq<Memory>, agentId: string, tick: int) {
    && summary.agentId == agentId && summary.tick == tick && summary.kind == ReflectionKind
    && sources != [] && summary.runId == sources[0].runId
    && (forall m | m in sources :: m.importance <= summary.importance)
    && (exists m :: m in sources && m.importance == summary.importance)
    && summary.sources.Some? && |summary.sources.value| == |sources|
    && (forall i | 0 <= i < |sources| :: summary.sources.value[i] == sources[i].id)
  }

  /** The sources now point to the summary, and every other relation is as it was. */
  ghost predicate PointsTo(before: map<string, string>, after: map<string, string>, sources: seq<Memory>, summary: Memory) {
    && (forall m | m in sources :: m.id in after && after[m.id] == summary.id)
    && (forall id | id in before :: id in after && after[id] == before[id])
    && (forall id | id in after :: id in before || exists m :: m in sources && m.id == id)
  }

  lemma SummaryIsExact(config: Config, s: Store, sources: seq<Memory>, agentId: string, tick: int)
    requires sources != [] && forall m | m in sources :: m.id !in s.compactedInto
    ensures var summary := Summary(config, s, sources, agentId, tick);
            && Summarises(summary, sources, agentId, tick)
            && PointsTo(s.compactedInto, Relate(s.compactedInto, Ids(sources), summary.id), sources, summary)
  {
    var summary := Summary(config, s, sources, agentId, tick);
    MaxImportanceBounds(sources);
    OldRelationsStay(s, sources, summary.id);
    forall m | m in sources ensures m.id in Ids(sources) {
      var k :| 0 <= k < |sources| && sources[k] == m;
      assert Ids(sources)[k] == m.id;
    }
    forall id | id in Ids(sources) ensures exists m :: m in sources && m.id == id {
      var k :| 0 <= k < |sources| && Ids(sources)[k] == id;
      assert sources[k] in sources;
    }
  }

  /** One summary has been stored behind `s`, in place of the active memories that matter least. */
  ghost predicate MadeRoom(config: Config, s: Store, t: Store, agentId: string, tick: int, sources: seq<Memory>, summary: Memory) {
    && t.records == s.records + [summary] && t.issued == s.issued + 1 && summary.id == config.name(s.issued)
    && MakesRoom(Active(s, agentId), sources, config.compactTo)
    && Summarises(summary, sources, agentId, tick)
    && PointsTo(s.compactedInto, t.compactedInto, sources, summary)
  }

  lemma CompactedAsNeeded(config: Config, s: Store, agentId: string, tick: int) returns (sources: seq<Memory>, summary: Memory)
    requires config.Valid() && Sane(config, s) && config.maxActive < |Active(s, agentId)| && 0 <= tick && SafeInteger(tick)
    ensures var (result, t) := Compact(config, s, agentId, tick);
            if 256 < |Active(s, agentId)| - config.compactTo + 1 then
              result == Err(SchemaInvalid) && t == s.(issued := s.issued + 1)
            else
              result == Ok(true) && MadeRoom(config, s, t, agentId, tick, sources, summary)
  {
    sources := ChosenSources(config, s, agentId);
    summary := Summary(config, s, sources, agentId, tick);
    CompactionOutcome(config, s, agentId, tick, sources);
    SummaryIsExact(config, s, sources, agentId, tick);
  }

  /**
   * What one record leaves behind, for input with a proper tick and importance. The memory is
   * stored as asked; past the limit the memories that matter least, the new one among the
   * candidates, give way to one summary, unless they are more than 256.
   */
  lemma RecordedAsAsked(config: Config, s: Store, input: Input) returns (m: Memory, sources: seq<Memory>, summary: Memory)
    requires config.Valid() && Sane(config, s)
    requires 0 <= input.tick < 0x20_0000_0000_0000 && 0 <= input.importance <= 100
    ensures AsAsked(config, s, input, m)
    ensures var stored := Store(s.records + [m], s.compactedInto, s.issued + 1);
            var (result, t) := Record(config, s, input);
            var active := |Active(s, input.agentId)| + 1;
            if active <= config.maxActive then
              result == Ok(false) && t == stored
            else if 256 < active - config.compactTo + 1 then
              result == Err(SchemaInvalid) && t == stored.(issued := s.issued + 2)
            else
              result == Ok(true) && MadeRoom(config, stored, t, input.agentId, input.tick, sources, summary)
  {
    m := Named(input, config.name(s.issued));
    summary := m;
    sources := [];
    var u := AcceptedRecord(config, s, input);
    SortPermutes(ByTick, Active(u, input.agentId));
    if config.maxActive < |Active(u, input.agentId)| {
      sources, summary := CompactedAsNeeded(config, u, input.agentId, input.tick);
    }
  }

  /** Input is refused exactly for an improper tick or importance, and then only an id is spent. */
  lemma RefusedExactlyWhen(config: Config, s: Store, input: Input)
    requires config.Valid() && Sane(config, s)
    ensures Record(config, s, input) == (Err(SchemaInvalid), s.(issued := s.issued + 1)) <==>
              !(0 <= input.tick < 0x20_0000_0000_0000 && 0 <= input.importance <= 100)
  {
    if Remembers(input) {
      RecordOutcome(config, s, input);
      var m, sources, summary := RecordedAsAsked(config, s, input);
    } else {
      RejectedRecord(config, s, input);
    }
  }

  /**
   * The repository accepts a compaction exactly for a well-formed reflection of the agent that
   * names two or more of its active memories, each once, under an id that is not in use.
   */
  lemma CompactionAcceptedExactlyWhen(s: Store, agentId: string, summary: Memory, ids: seq<string>)
    ensures RepositoryCompact(s, agentId, summary, ids).Ok? <==>
              && 0 <= summary.tick < 0x20_0000_0000_0000 && 0 <= summary.importance <= 100
              && summary.kind == ReflectionKind && summary.agentId == agentId && summary.sources == Some(ids)
              && 2 <= |ids| <= 256 && (forall i, j | 0 <= i < j < |ids| :: ids[i] != ids[j])
              && (forall id | id in ids :: id !in s.compactedInto && exists m :: m in s.records && m.id == id && m.agentId == agentId)
              && (forall m | m in s.records :: m.id != summary.id)
  {
    ActiveIdsMean(s, agentId, ids);
    assert Holds(s.records, summary.id) <==> exists m :: m in s.records && m.id == summary.id by {
      if m :| m in s.records && m.id == summary.id {
        var i :| 0 <= i < |s.records| && s.records[i] == m;
      }
    }
  }

  lemma ActiveIdsMean(s: Store, agentId: string, ids: seq<string>)
    ensures (exists i | 0 <= i < |ids| :: !ActiveId(s, agentId, ids[i])) <==>
            !(forall id | id in ids :: id !in s.compactedInto && exists m :: m in s.records && m.id == id && m.agentId == agentId)
  {
    forall id ensures ActiveId(s, agentId, id) <==>
                      id !in s.compactedInto && exists m :: m in s.records && m.id == id && m.agentId == agentId
    {
      if m :| m in s.records && m.id == id && m.agentId == agentId {
        var i :| 0 <= i < |s.records| && s.records[i] == m;
      }
      if i :| 0 <= i < |s.records| && s.records[i].id == id && s.records[i].agentId == agentId {
        assert s.records[i] in s.records;
      }
    }
  }

  lemma CompactedExtends(config: Config, s: Store, sources: seq<Memory>, agentId: string, tick: int)
    requires config.Valid() && Sane(config, s) && Fit(s, agentId, sources)
    ensures Extends(s, Compacted(config, s, sources, agentId, tick), agentId)
  {
    forall other | other != agentId
      ensures Active(Compacted(config, s, sources, agentId, tick), other) == Active(s, other)
    {
      CompactedAlone(config, s, sources, agentId, tick, other);
    }
    OldRelationsStay(s, sources, Summary(config, s, sources, agentId, tick).id);
  }

  lemma UnchangedExtends(config: Config, s: Store, agentId: string)
    requires Sane(config, s)
    ensures Sane(config, s.(issued := s.issued + 1)) && Extends(s, s.(issued := s.issued + 1), agentId)
    ensures Active(s.(issued := s.issued + 1), agentId) == Active(s, agentId)
  {
    MoreIssued(config, s);
  }

  lemma CompactionStep(config: Config, s: Store, agentId: string, tick: int)
    requires config.Valid() && Sane(config, s) && config.maxActive < |Active(s, agentId)| && 0 <= tick && SafeInteger(tick)
    ensures var (result, t) := Compact(config, s, agentId, tick);
            && Sane(config, t) && Extends(s, t, agentId)
            && if |Active(s, agentId)| - config.compactTo + 1 <= MAX_SOURCE_MEMORIES then
                 result == Ok(true) && |Active(t, agentId)| == config.compactTo
               else
                 result == Err(SchemaInvalid) && |Active(t, agentId)| == |Active(s, agentId)|
  {
    var sources := ChosenSources(config, s, agentId);
    CompactionEnds(config, s, sources, agentId, tick);
    CompactionOutcome(config, s, agentId, tick, sources);
  }

  lemma CompactionEnds(config: Config, s: Store, sources: seq<Memory>, agentId: string, tick: int)
    requires config.Valid() && Sane(config, s) && Fit(s, agentId, sources) && 0 <= tick && SafeInteger(tick)
    requires forall m | m in sources :: m in Active(s, agentId)
    ensures |sources| <= MAX_SOURCE_MEMORIES ==>
              var t := Compacted(config, s, sources, agentId, tick);
              && Sane(config, t) && Extends(s, t, agentId)
              && |Active(t, agentId)| == |Active(s, agentId)| - |sources| + 1
    ensures var t := s.(issued := s.issued + 1);
            Sane(config, t) && Extends(s, t, agentId) && |Active(t, agentId)| == |Active(s, agentId)|
  {
    if |sources| <= MAX_SOURCE_MEMORIES {
      CompactedIsSane(config, s, sources, agentId, tick);
      CompactedSize(config, s, sources, agentId, tick);
      CompactedExtends(config, s, sources, agentId, tick);
    }
    UnchangedExtends(config, s, agentId);
  }

  lemma OldRelationsStay(s: Store, sources: seq<Memory>, summaryId: string)
    requires forall m | m in sources :: m.id !in s.compactedInto
    ensures forall id | id in s.compactedInto ::
              id in Relate(s.compactedInto, Ids(sources), summaryId)
              && Relate(s.compactedInto, Ids(sources), summaryId)[id] == s.compactedInto[id]
  {
    forall id, k | id in s.compactedInto && 0 <= k < |sources| ensures Ids(sources)[k] != id {
      assert sources[k] in sources;
    }
  }

  function Run(config: Config, s: Store, inputs: seq<Input>): Store
    requires config.Valid()
    decreases |inputs|
  {
    if inputs == [] then s else Run(config, Record(config, s, inputs[0]).1, inputs[1..])
  }

  /** Memories are never changed, removed or compacted twice, in any run. */
  lemma {:induction false} RunsOnlyAppend(config: Config, s: Store, inputs: seq<Input>)
    requires config.Valid() && Sane(config, s)
    ensures var t := Run(config, s, inputs);
            && Sane(config, t)
            && s.records <= t.records
            && forall id | id in s.compactedInto :: id in t.compactedInto && t.compactedInto[id] == s.compactedInto[id]
    decreases |inputs|
  {
    if inputs != [] {
      RecordOutcome(config, s, inputs[0]);
      RunsOnlyAppend(config, Record(config, s, inputs[0]).1, inputs[1..]);
    }
  }

  /** Follows the compaction relation from a record to the one that now stands for it. */
  ghost function Survivor(s: Store, i: nat): (j: nat)
    requires Linked(s) && i < |s.records|
    ensures i <= j < |s.records| && s.records[j].id !in s.compactedInto
    decreases |s.records| - i
  {
    if s.records[i].id in s.compactedInto then Survivor(s, IndexOf(s.records, s.compactedInto[s.records[i].id])) else i
  }

  /**
   * In every reachable store, following `compactedInto` from any memory ever recorded ends at one
   * active memory of the same agent that is at least as important.
   */
  lemma {:induction false} EveryMemorySurvives(config: Config, s: Store, i: nat)
    requires config.Valid() && Sane(config, s) && i < |s.records|
    ensures s.records[Survivor(s, i)] in Active(s, s.records[i].agentId)
    ensures s.records[i].importance <= s.records[Survivor(s, i)].importance
    decreases |s.records| - i
  {
    if s.records[i].id in s.compactedInto {
      EveryMemorySurvives(config, s, IndexOf(s.records, s.compactedInto[s.records[i].id]));
    } else {
      ActiveRecordsMembers(s.compactedInto, s.records[i].agentId, s.records);
    }
  }

  /** The most important memory an agent ever had is matched by an active one. */
  lemma MaximumImportanceIsKept(config: Config, inputs: seq<Input>, agentId: string, m: Memory)
    requires config.Valid() && m in Run(config, EMPTY, inputs).records && m.agentId == agentId
    ensures exists kept :: kept in Active(Run(config, EMPTY, inputs), agentId) && m.importance <= kept.importance
  {
    RunsOnlyAppend(config, EMPTY, inputs);
    var s := Run(config, EMPTY, inputs);
    var i :| 0 <= i < |s.records| && s.records[i] == m;
    EveryMemorySurvives(config, s, i);
  }

  ghost predicate Bounded(config: Config, s: Store) {
    forall agentId :: |Active(s, agentId)| <= config.maxActive
  }

  lemma {:induction false} RunsStayBounded(config: Config, s: Store, inputs: seq<Input>)
    requires config.Valid() && SummaryFits(config) && Sane(config, s) && Bounded(config, s)
    ensures Bounded(config, Run(config, s, inputs))
    decreases |inputs|
  {
    if inputs != [] {
      RecordOutcome(config, s, inputs[0]);
      var t := Record(config, s, inputs[0]).1;
      forall agentId ensures |Active(t, agentId)| <= config.maxActive {
        if agentId != inputs[0].agentId {
          assert Active(t, agentId) == Active(s, agentId);
        }
      }
      RunsStayBounded(config, t, inputs[1..]);
    }
  }

  function Repeated(input: Input, n: nat): seq<Input> {
    if n == 0 then [] else [input] + Repeated(input, n - 1)
  }

  lemma OverflowStep(config: Config, s: Store, input: Input)
    requires config.Valid() && !SummaryFits(config) && Sane(config, s) && Remembers(input)
    requires |Active(s, input.agentId)| <= config.maxActive
    ensures Sane(config, Record(config, s, input).1)
    ensures |Active(Record(config, s, input).1, input.agentId)| == |Active(s, input.agentId)| + 1
  {
    RecordOutcome(config, s, input);
  }

  /** Without room for the summary, one more record than the limit leaves too many active. */
  lemma {:induction false} OverflowShows(config: Config, s: Store, input: Input, n: nat)
    requires config.Valid() && !SummaryFits(config) && Sane(config, s) && Remembers(input)
    requires |Active(s, input.agentId)| <= config.maxActive + 1 && n == config.maxActive + 1 - |Active(s, input.agentId)|
    ensures |Active(Run(config, s, Repeated(input, n)), input.agentId)| == config.maxActive + 1
    decreases n
  {
    if n != 0 {
      OverflowStep(config, s, input);
      assert Repeated(input, n)[1..] == Repeated(input, n - 1);
      OverflowShows(config, Record(config, s, input).1, input, n - 1);
    }
  }

  /** The working set stays within its limit in every run exactly when one summary can name all its sources. */
  lemma WorkingSetIsBoundedExactlyWhen(config: Config)
    requires config.Valid()
    ensures (forall inputs :: Bounded(config, Run(config, EMPTY, inputs))) <==> config.maxActive - config.compactTo + 2 <= 256
  {
    if SummaryFits(config) {
      forall inputs ensures Bounded(config, Run(config, EMPTY, inputs)) {
        RunsStayBounded(config, EMPTY, inputs);
      }
    } else {
      var inputs := OverflowingInputs(config);
      assert !Bounded(config, Run(config, EMPTY, inputs));
    }
  }

  lemma OverflowingInputs(config: Config) returns (inputs: seq<Input>)
    requires config.Valid() && !SummaryFits(config)
    ensures !Bounded(config, Run(config, EMPTY, inputs))
  {
    var input := Input("run", "agent", 0, EventKind, 0);
    OverflowShows(config, EMPTY, input, config.maxActive + 1);
    inputs := Repeated(input, config.maxActive + 1);
    assert |Active(Run(config, EMPTY, inputs), input.agentId)| == config.maxActive + 1;
  }
}
