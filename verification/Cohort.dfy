/** Stratified cohort selection: residents are drawn from their strata in rounds, one per stratum. */
module Cohort {
  import opened Shared
  import opened Ordering

  datatype Resident = Resident(id: string, occupationCode: string, employmentStatus: string, householdId: string)

  datatype Stratum = Occupation | EmploymentStatus | Household

  /** The selection of a scenario: how many, over which strata; the hash is the seeded digest. */
  datatype Selection = Selection(size: nat, strata: seq<Stratum>, hash: (string, string) -> string)

  datatype Scenario = Scenario(assignments: Option<seq<string>>, selection: Option<Selection>)

  function Label(r: Resident, stratum: Stratum): string {
    match stratum
    case Occupation => "occupation:" + r.occupationCode
    case EmploymentStatus => "employment:" + r.employmentStatus
    case Household => "household:" + r.householdId
  }

  function StratumKey(strata: seq<Stratum>, r: Resident): string {
    if strata == [] then ""
    else if |strata| == 1 then Label(r, strata[0])
    else Label(r, strata[0]) + "|" + StratumKey(strata[1..], r)
  }

  function IdOf(r: Resident): string {
    r.id
  }

  function InStratum(strata: seq<Stratum>, key: string): Resident -> bool {
    (r: Resident) => StratumKey(strata, r) == key
  }

  predicate HashLe(hash: (string, string) -> string, key: string, a: Resident, b: Resident) {
    var x, y := hash(key, a.id), hash(key, b.id);
    if x == y then CodeUnitLe(a.id, b.id) else CodeUnitLe(x, y)
  }

  function ByHash(hash: (string, string) -> string, key: string): (Resident, Resident) -> bool {
    (a: Resident, b: Resident) => HashLe(hash, key, a, b)
  }

  /** The stratum keys that occur, each once, in order of first occurrence. */
  function KeysOf(strata: seq<Stratum>, residents: seq<Resident>): seq<string> {
    if residents == [] then []
    else
      var earlier := KeysOf(strata, residents[..|residents| - 1]);
      var key := StratumKey(strata, residents[|residents| - 1]);
      if key in earlier then earlier else earlier + [key]
  }

  datatype Group = Group(key: string, members: seq<Resident>)

  function GroupFor(s: Selection, residents: seq<Resident>, key: string): Group {
    Group(key, Sort(ByHash(s.hash, key), Filter(InStratum(s.strata, key), residents)))
  }

  /** The strata in key order, each shuffled by the seeded hash. */
  function OrderedGroups(s: Selection, residents: seq<Resident>): seq<Group> {
    var keys := Sort(CodeUnitLe, KeysOf(s.strata, residents));
    seq(|keys|, i requires 0 <= i < |keys| => GroupFor(s, residents, keys[i]))
  }

  /******* Rounds *******/

  /** One round takes the member at position `r` of every group that has one. */
  function Round(groups: seq<Group>, r: nat): seq<Resident> {
    if groups == [] then []
    else
      var last := groups[|groups| - 1];
      Round(groups[..|groups| - 1], r) + (if r < |last.members| then [last.members[r]] else [])
  }

  function Longest(groups: seq<Group>): nat {
    if groups == [] then 0 else Max(Longest(groups[..|groups| - 1]), |groups[|groups| - 1].members|)
  }

  lemma {:induction false} RoundsEnd(groups: seq<Group>, r: nat)
    ensures Round(groups, r) == [] <==> Longest(groups) <= r
  {
    if groups != [] {
      var n := |groups| - 1;
      RoundsEnd(groups[..n], r);
      assert |Round(groups, r)| == |Round(groups[..n], r)| + (if r < |groups[n].members| then 1 else 0);
    }
  }

  /** All rounds from `r` on. */
  function AllRounds(groups: seq<Group>, r: nat): seq<Resident>
    decreases Longest(groups) - r
  {
    RoundsEnd(groups, r);
    if Round(groups, r) == [] then [] else Round(groups, r) + AllRounds(groups, r + 1)
  }

  function SelectedResidents(s: Selection, residents: seq<Resident>): seq<Resident> {
    var all := AllRounds(OrderedGroups(s, residents), 0);
    if s.size <= |all| then all[..s.size] else all
  }

  function AgentIds(residents: seq<Resident>): seq<string> {
    seq(|residents|, i requires 0 <= i < |residents| => residents[i].id)
  }

  predicate Unknown(residents: seq<Resident>, id: string) {
    forall j | 0 <= j < |residents| :: residents[j].id != id
  }

  /** The agents a scenario assigns a controller to, in id order. */
  function ResolveAgentLabAssignments(scenario: Scenario, residents: seq<Resident>): Result<seq<string>> {
    match scenario.assignments
    case Some(given) =>
      if exists i | 0 <= i < |given| :: Unknown(residents, given[i]) then
        Err(ValidationFailed)
      else Ok(Sort(CodeUnitLe, given))
    case None =>
      match scenario.selection
      case None => Ok([])
      case Some(s) =>
        var selected := SelectedResidents(s, residents);
        if |selected| != s.size then Err(ValidationFailed) else Ok(Sort(CodeUnitLe, AgentIds(selected)))
  }

  function Lookup(groups: map<string, seq<Resident>>, key: string): seq<Resident> {
    if key in groups then groups[key] else []
  }

  /** The groups hold, for every key that occurs, its residents in the order supplied. */
  ghost predicate Grouped(groups: map<string, seq<Resident>>, strata: seq<Stratum>, residents: seq<Resident>) {
    && (forall key :: key in groups <==> key in KeysOf(strata, residents))
    && (forall key :: Lookup(groups, key) == Filter(InStratum(strata, key), residents))
  }

  lemma KeysOfAppend(strata: seq<Stratum>, residents: seq<Resident>, r: Resident)
    ensures var key, earlier := StratumKey(strata, r), KeysOf(strata, residents);
            KeysOf(strata, residents + [r]) == if key in earlier then earlier else earlier + [key]
  {
    assert (residents + [r])[..|residents|] == residents;
  }

  lemma GroupedAppend(groups: map<string, seq<Resident>>, strata: seq<Stratum>, residents: seq<Resident>, r: Resident)
    requires Grouped(groups, strata, residents)
    ensures var key := StratumKey(strata, r);
            Grouped(groups[key := Lookup(groups, key) + [r]], strata, residents + [r])
  {
    var key := StratumKey(strata, r);
    var after := groups[key := Lookup(groups, key) + [r]];
    KeysOfAppend(strata, residents, r);
    forall k ensures Lookup(after, k) == Filter(InStratum(strata, k), residents + [r]) {
      FilterAppend(InStratum(strata, k), residents, r);
      assert Lookup(after, k) == Lookup(groups, k) + (if k == key then [r] else []);
    }
  }

  /** Groups the residents by stratum, filling the groups in the order residents are supplied. */
  method GroupResidents(strata: seq<Stratum>, residents: seq<Resident>) returns (groups: map<string, seq<Resident>>, keys: seq<string>)
    ensures keys == KeysOf(strata, residents) && Grouped(groups, strata, residents)
  {
    groups, keys := map[], [];
    for i := 0 to |residents|
      invariant keys == KeysOf(strata, residents[..i]) && Grouped(groups, strata, residents[..i])
    {
      assert residents[..i + 1] == residents[..i] + [residents[i]];
      KeysOfAppend(strata, residents[..i], residents[i]);
      GroupedAppend(groups, strata, residents[..i], residents[i]);
      var key := StratumKey(strata, residents[i]);
      var group := if key in groups then groups[key] else [];
      if key !in groups {
        keys := keys + [key];
      }
      groups := groups[key := group + [residents[i]]];
    }
    assert residents[..|residents|] == residents;
  }

  /** Sorts every group by its seeded hash. */
  method SortEachGroup(s: Selection, residents: seq<Resident>, groups: map<string, seq<Resident>>, keys: seq<string>)
    returns (ordered: seq<Group>)
    requires forall i | 0 <= i < |keys| :: keys[i] in groups && groups[keys[i]] == Filter(InStratum(s.strata, keys[i]), residents)
    ensures |ordered| == |keys| && forall i | 0 <= i < |keys| :: ordered[i] == GroupFor(s, residents, keys[i])
  {
    ordered := [];
    for i := 0 to |keys|
      invariant |ordered| == i && forall k | 0 <= k < i :: ordered[k] == GroupFor(s, residents, keys[k])
    {
      ordered := ordered + [Group(keys[i], Sort(ByHash(s.hash, keys[i]), groups[keys[i]]))];
    }
  }

  /** The strata in key order. */
  method SortGroups(s: Selection, residents: seq<Resident>) returns (ordered: seq<Group>)
    ensures ordered == OrderedGroups(s, residents)
  {
    var groups, keys := GroupResidents(s.strata, residents);
    var sorted := Sort(CodeUnitLe, keys);
    SortPermutes(CodeUnitLe, keys);
    forall i | 0 <= i < |sorted| ensures sorted[i] in keys {
      assert sorted[i] in multiset(keys);
    }
    forall i | 0 <= i < |sorted| ensures groups[sorted[i]] == Filter(InStratum(s.strata, sorted[i]), residents) {
      assert Lookup(groups, sorted[i]) == groups[sorted[i]];
    }
    ordered := SortEachGroup(s, residents, groups, sorted);
  }

  lemma RoundIsNext(groups: seq<Group>, round: nat, selected: seq<Resident>)
    requires AllRounds(groups, 0) == selected + AllRounds(groups, round)
    ensures selected + Round(groups, round) <= AllRounds(groups, 0)
    ensures if Round(groups, round) == [] then AllRounds(groups, 0) == selected == selected + Round(groups, round)
            else AllRounds(groups, 0) == selected + Round(groups, round) + AllRounds(groups, round + 1)
                 && round < Longest(groups)
  {
    RoundsEnd(groups, round);
    if Round(groups, round) != [] {
      ConcatAssociates(selected, Round(groups, round), AllRounds(groups, round + 1));
    }
  }

  method SelectInRounds(groups: seq<Group>, size: nat) returns (selected: seq<Resident>)
    ensures var all := AllRounds(groups, 0);
            selected == if size <= |all| then all[..size] else all
  {
    selected := [];
    var round := 0;
    while |selected| < size
      invariant |selected| <= size && selected <= AllRounds(groups, 0)
      invariant |selected| < size ==> AllRounds(groups, 0) == selected + AllRounds(groups, round)
      decreases Longest(groups) - round
    {
      var added: bool;
      RoundIsNext(groups, round, selected);
      selected, added := TakeRound(groups, round, size, selected);
      if !added {
        break;
      }
      round := round + 1;
    }
  }

  lemma RoundNext(groups: seq<Group>, j: nat, r: nat)
    requires j < |groups|
    ensures Round(groups[..j + 1], r) ==
            Round(groups[..j], r) + (if r < |groups[j].members| then [groups[j].members[r]] else [])
  {
    assert groups[..j + 1][..j] == groups[..j];
  }

  /** One pass over the groups, cut short when the cohort is complete. */
  method TakeRound(groups: seq<Group>, round: nat, size: nat, before: seq<Resident>) returns (selected: seq<Resident>, added: bool)
    requires |before| < size
    ensures before <= selected && selected <= before + Round(groups, round) && |selected| <= size
    ensures |selected| < size ==> selected == before + Round(groups, round)
    ensures added <==> Round(groups, round) != []
  {
    selected, added := before, false;
    for j := 0 to |groups|
      invariant selected == before + Round(groups[..j], round) && |selected| < size
      invariant added <==> Round(groups[..j], round) != []
    {
      RoundNext(groups, j, round);
      if |groups[j].members| <= round {
        continue;
      }
      selected := selected + [groups[j].members[round]];
      added := true;
      if |selected| == size {
        RoundGrows(groups, j + 1, round);
        return;
      }
    }
    assert groups[..|groups|] == groups;
  }

  lemma {:induction false} RoundGrows(groups: seq<Group>, j: nat, r: nat)
    requires j <= |groups|
    ensures Round(groups[..j], r) <= Round(groups, r)
    decreases |groups|
  {
    if j == |groups| {
      assert groups[..j] == groups;
    } else {
      var shorter := groups[..|groups| - 1];
      assert shorter[..j] == groups[..j];
      RoundGrows(shorter, j, r);
    }
  }

  method ResolveAssignments(scenario: Scenario, residents: seq<Resident>) returns (result: Result<seq<string>>)
    ensures result == ResolveAgentLabAssignments(scenario, residents)
  {
    if scenario.assignments.Some? {
      var given := scenario.assignments.value;
      if exists i | 0 <= i < |given| :: Unknown(residents, given[i]) {
        return Err(ValidationFailed);
      }
      return Ok(Sort(CodeUnitLe, given));
    }
    if scenario.selection.None? {
      return Ok([]);
    }
    var s := scenario.selection.value;
    var ordered := SortGroups(s, residents);
    var selected := SelectInRounds(ordered, s.size);
    if |selected| != s.size {
      return Err(ValidationFailed);
    }
    return Ok(Sort(CodeUnitLe, AgentIds(selected)));
  }

  /******* Everyone is drawn exactly once *******/

  /** What is left of one group from round `r` on. */
  function LeftOf(members: seq<Resident>, r: nat): multiset<Resident> {
    if r < |members| then multiset(members[r..]) else multiset{}
  }

  /** What is left of all groups from round `r` on. */
  function Left(groups: seq<Group>, r: nat): multiset<Resident> {
    if groups == [] then multiset{}
    else Left(groups[..|groups| - 1], r) + LeftOf(groups[|groups| - 1].members, r)
  }

  lemma LeftOfStep(members: seq<Resident>, r: nat)
    ensures LeftOf(members, r) == (if r < |members| then multiset{members[r]} else multiset{}) + LeftOf(members, r + 1)
  {
    if r < |members| {
      assert members[r..] == [members[r]] + members[r + 1..];
      assert r + 1 == |members| ==> members[r + 1..] == [];
    }
  }

  lemma {:induction false} RoundTakesItsShare(groups: seq<Group>, r: nat)
    ensures Left(groups, r) == multiset(Round(groups, r)) + Left(groups, r + 1)
  {
    if groups != [] {
      var members := groups[|groups| - 1].members;
      RoundTakesItsShare(groups[..|groups| - 1], r);
      LeftOfStep(members, r);
      var taken := if r < |members| then [members[r]] else [];
      assert multiset(taken) == if r < |members| then multiset{members[r]} else multiset{};
    }
  }

  lemma {:induction false} NobodyLeft(groups: seq<Group>, r: nat)
    requires Longest(groups) <= r
    ensures Left(groups, r) == multiset{}
  {
    if groups != [] {
      NobodyLeft(groups[..|groups| - 1], r);
    }
  }

  lemma AllRoundsStep(groups: seq<Group>, r: nat)
    ensures if Round(groups, r) == [] then AllRounds(groups, r) == [] && Longest(groups) <= r
            else AllRounds(groups, r) == Round(groups, r) + AllRounds(groups, r + 1) && r < Longest(groups)
  {
    RoundsEnd(groups, r);
  }

  lemma {:induction false} RoundsTakeEveryone(groups: seq<Group>, r: nat)
    ensures multiset(AllRounds(groups, r)) == Left(groups, r)
    decreases Longest(groups) - r
  {
    AllRoundsStep(groups, r);
    if Longest(groups) <= r {
      NobodyLeft(groups, r);
    } else {
      RoundTakesItsShare(groups, r);
      RoundsTakeEveryone(groups, r + 1);
      MultisetConcat(Round(groups, r), AllRounds(groups, r + 1));
    }
  }

  lemma MultisetConcat<T>(xs: seq<T>, ys: seq<T>)
    ensures multiset(xs + ys) == multiset(xs) + multiset(ys)
  {
  }

  ghost predicate NoRepeats(keys: seq<string>) {
    forall i, j | 0 <= i < j < |keys| :: keys[i] != keys[j]
  }

  /** Some resident is in the stratum. */
  ghost predicate Occurs(strata: seq<Stratum>, residents: seq<Resident>, key: string) {
    exists i | 0 <= i < |residents| :: StratumKey(strata, residents[i]) == key
  }

  lemma OccursNext(strata: seq<Stratum>, residents: seq<Resident>, r: Resident, key: string)
    ensures Occurs(strata, residents + [r], key) <==> Occurs(strata, residents, key) || StratumKey(strata, r) == key
  {
    var all := residents + [r];
    if Occurs(strata, residents, key) {
      var i :| 0 <= i < |residents| && StratumKey(strata, residents[i]) == key;
      assert StratumKey(strata, all[i]) == key;
    }
    assert all[|residents|] == r;
  }

  lemma {:induction false} KeysCover(strata: seq<Stratum>, residents: seq<Resident>)
    ensures NoRepeats(KeysOf(strata, residents))
    ensures forall key :: key in KeysOf(strata, residents) <==> Occurs(strata, residents, key)
  {
    if residents != [] {
      var shorter, r := residents[..|residents| - 1], residents[|residents| - 1];
      assert residents == shorter + [r];
      KeysCover(strata, shorter);
      forall key ensures key in KeysOf(strata, residents) <==> Occurs(strata, residents, key) {
        OccursNext(strata, shorter, r, key);
      }
    }
  }

  function GroupsFor(s: Selection, residents: seq<Resident>, keys: seq<string>): seq<Group> {
    seq(|keys|, i requires 0 <= i < |keys| => GroupFor(s, residents, keys[i]))
  }

  /** Each resident is in the group of its key, as often as it was supplied. */
  lemma {:induction false} GroupsPartition(s: Selection, residents: seq<Resident>, keys: seq<string>, x: Resident)
    requires NoRepeats(keys)
    ensures Left(GroupsFor(s, residents, keys), 0)[x] == if StratumKey(s.strata, x) in keys then multiset(residents)[x] else 0
  {
    if keys != [] {
      var shorter := keys[..|keys| - 1];
      GroupsPartition(s, residents, shorter, x);
      assert GroupsFor(s, residents, keys)[..|keys| - 1] == GroupsFor(s, residents, shorter);
      var key := keys[|keys| - 1];
      var own := Filter(InStratum(s.strata, key), residents);
      FilterCounts(InStratum(s.strata, key), residents, x);
      SortPermutes(ByHash(s.hash, key), own);
      var members := Sort(ByHash(s.hash, key), own);
      assert members[0..] == members;
    }
  }

  lemma {:induction false} NoRepeatsCount(keys: seq<string>, key: string)
    requires NoRepeats(keys)
    ensures multiset(keys)[key] == if key in keys then 1 else 0
  {
    if keys != [] {
      var shorter := keys[..|keys| - 1];
      NoRepeatsCount(shorter, key);
      assert keys == shorter + [keys[|keys| - 1]];
    }
  }

  function Same(key: string): string {
    key
  }

  lemma SortedKeys(strata: seq<Stratum>, residents: seq<Resident>)
    ensures var keys := Sort(CodeUnitLe, KeysOf(strata, residents));
            NoRepeats(keys) && forall key :: key in keys <==> key in KeysOf(strata, residents)
  {
    var found := KeysOf(strata, residents);
    KeysCover(strata, residents);
    SortPermutes(CodeUnitLe, found);
    assert KeysDistinct(Same, found) by {
      forall i, j | 0 <= i < j < |found| ensures Same(found[i]) != Same(found[j]) {
      }
    }
    KeysDistinctPermute(Same, found, Sort(CodeUnitLe, found));
    var keys := Sort(CodeUnitLe, found);
    forall i, j | 0 <= i < j < |keys| ensures keys[i] != keys[j] {
      assert Same(keys[i]) != Same(keys[j]);
    }
    forall key ensures key in keys <==> key in found {
      assert key in multiset(keys) <==> key in multiset(found);
    }
  }

  /** All rounds together are a rearrangement of the residents. */
  lemma RoundsRearrange(s: Selection, residents: seq<Resident>)
    ensures multiset(AllRounds(OrderedGroups(s, residents), 0)) == multiset(residents)
    ensures |AllRounds(OrderedGroups(s, residents), 0)| == |residents|
  {
    var groups := OrderedGroups(s, residents);
    var keys := Sort(CodeUnitLe, KeysOf(s.strata, residents));
    SortedKeys(s.strata, residents);
    KeysCover(s.strata, residents);
    RoundsTakeEveryone(groups, 0);
    assert groups == GroupsFor(s, residents, keys);
    forall x ensures Left(groups, 0)[x] == multiset(residents)[x] {
      GroupsPartition(s, residents, keys, x);
      if x in multiset(residents) {
        var i :| 0 <= i < |residents| && residents[i] == x;
        assert StratumKey(s.strata, residents[i]) in KeysOf(s.strata, residents);
      }
    }
    assert Left(groups, 0) == multiset(residents);
    assert |multiset(AllRounds(groups, 0))| == |multiset(residents)|;
  }

  /** Selection succeeds exactly when there are enough residents, and then picks that many different ones. */
  lemma SelectionSucceedsExactlyWhen(s: Selection, residents: seq<Resident>)
    requires KeysDistinct(IdOf, residents)
    ensures ResolveAgentLabAssignments(Scenario(None, Some(s)), residents).Ok? <==> s.size <= |residents|
    ensures s.size <= |residents| ==>
              var selected := SelectedResidents(s, residents);
              && |selected| == s.size && KeysDistinct(IdOf, selected)
              && forall r | r in selected :: r in residents
  {
    var all := AllRounds(OrderedGroups(s, residents), 0);
    RoundsRearrange(s, residents);
    KeysDistinctPermute(IdOf, residents, all);
    forall r | r in all ensures r in residents {
      assert r in multiset(all);
    }
  }

  /******* Balance between strata *******/

  function Count(strata: seq<Stratum>, residents: seq<Resident>, key: string): nat {
    if residents == [] then 0
    else Count(strata, residents[..|residents| - 1], key)
         + (if StratumKey(strata, residents[|residents| - 1]) == key then 1 else 0)
  }

  lemma {:induction false} CountConcat(strata: seq<Stratum>, xs: seq<Resident>, ys: seq<Resident>, key: string)
    ensures Count(strata, xs + ys, key) == Count(strata, xs, key) + Count(strata, ys, key)
  {
    if ys == [] {
      assert xs + ys == xs;
    } else {
      assert (xs + ys)[..|xs + ys| - 1] == xs + ys[..|ys| - 1];
      CountConcat(strata, xs, ys[..|ys| - 1], key);
    }
  }

  /** Groups hold the members of their own stratum, and no stratum twice. */
  ghost predicate ProperGroups(strata: seq<Stratum>, groups: seq<Group>) {
    && (forall i, j | 0 <= i < j < |groups| :: groups[i].key != groups[j].key)
    && (forall i, m | 0 <= i < |groups| && 0 <= m < |groups[i].members| ::
          StratumKey(strata, groups[i].members[m]) == groups[i].key)
  }

  lemma RoundStep(strata: seq<Stratum>, groups: seq<Group>, r: nat, key: string)
    requires ProperGroups(strata, groups) && groups != []
    ensures var n := |groups| - 1;
            Count(strata, Round(groups, r), key) ==
            Count(strata, Round(groups[..n], r), key) + (if r < |groups[n].members| && groups[n].key == key then 1 else 0)
  {
    var n := |groups| - 1;
    if r < |groups[n].members| {
      var x := groups[n].members[r];
      assert StratumKey(strata, groups[n].members[r]) == groups[n].key;
      CountConcat(strata, Round(groups[..n], r), [x], key);
      CountOne(strata, x, key);
    } else {
      assert Round(groups[..n], r) + [] == Round(groups[..n], r);
    }
  }

  lemma ProperPrefix(strata: seq<Stratum>, groups: seq<Group>, n: nat)
    requires ProperGroups(strata, groups) && n < |groups|
    ensures ProperGroups(strata, groups[..n])
    ensures forall i | 0 <= i < n :: groups[..n][i].key != groups[n].key
  {
  }

  /** How many residents of a stratum round `r` takes, by looking at the groups only. */
  function Takes(groups: seq<Group>, r: nat, key: string): nat {
    if groups == [] then 0
    else
      var last := groups[|groups| - 1];
      Takes(groups[..|groups| - 1], r, key) + (if r < |last.members| && last.key == key then 1 else 0)
  }

  lemma {:induction false} RoundTakes(strata: seq<Stratum>, groups: seq<Group>, r: nat, key: string)
    requires ProperGroups(strata, groups)
    ensures Count(strata, Round(groups, r), key) == Takes(groups, r, key)
  {
    if groups != [] {
      ProperPrefix(strata, groups, |groups| - 1);
      RoundStep(strata, groups, r, key);
      RoundTakes(strata, groups[..|groups| - 1], r, key);
    }
  }

  lemma {:induction false} TakesOne(groups: seq<Group>, r: nat, i: nat)
    requires i < |groups| && forall j, k | 0 <= j < k < |groups| :: groups[j].key != groups[k].key
    ensures Takes(groups, r, groups[i].key) == if r < |groups[i].members| then 1 else 0
  {
    var n := |groups| - 1;
    if i == n {
      TakesNone(groups[..n], r, groups[n].key);
    } else {
      TakesOne(groups[..n], r, i);
    }
  }

  lemma {:induction false} TakesNone(groups: seq<Group>, r: nat, key: string)
    requires forall i | 0 <= i < |groups| :: groups[i].key != key
    ensures Takes(groups, r, key) == 0
  {
    if groups != [] {
      assert groups[|groups| - 1].key != key;
      TakesNone(groups[..|groups| - 1], r, key);
    }
  }

  /** A round takes exactly one resident of each stratum that still has one. */
  lemma RoundCounts(strata: seq<Stratum>, groups: seq<Group>, r: nat, i: nat)
    requires ProperGroups(strata, groups) && i < |groups|
    ensures Count(strata, Round(groups, r), groups[i].key) == if r < |groups[i].members| then 1 else 0
  {
    RoundTakes(strata, groups, r, groups[i].key);
    TakesOne(groups, r, i);
  }

  lemma CountOne(strata: seq<Stratum>, x: Resident, key: string)
    ensures Count(strata, [x], key) == if StratumKey(strata, x) == key then 1 else 0
  {
    assert [x][..0] == [];
  }

  lemma CountPrefix(strata: seq<Stratum>, xs: seq<Resident>, n: nat, key: string)
    requires n <= |xs|
    ensures Count(strata, xs[..n], key) <= Count(strata, xs, key)
  {
    assert xs == xs[..n] + xs[n..];
    CountConcat(strata, xs[..n], xs[n..], key);
  }

  /** The round in which draw `n` from round `r` on takes place. */
  function RoundOf(groups: seq<Group>, r: nat, n: nat): nat
    decreases Longest(groups) - r
  {
    RoundsEnd(groups, r);
    if n <= |Round(groups, r)| || Round(groups, r) == [] then r else RoundOf(groups, r + 1, n - |Round(groups, r)|)
  }

  lemma DrawsSplit(groups: seq<Group>, r: nat, n: nat)
    requires n <= |AllRounds(groups, r)|
    ensures n <= |Round(groups, r)| ==> AllRounds(groups, r)[..n] == Round(groups, r)[..n]
    ensures |Round(groups, r)| < n ==>
              && Round(groups, r) != [] && r < Longest(groups)
              && n - |Round(groups, r)| <= |AllRounds(groups, r + 1)|
              && AllRounds(groups, r)[..n] == Round(groups, r) + AllRounds(groups, r + 1)[..n - |Round(groups, r)|]
  {
    RoundsEnd(groups, r);
  }

  /** How many of a group's members the first `n` draws from round `r` on take. */
  function Given(strata: seq<Stratum>, groups: seq<Group>, r: nat, n: nat, i: nat): nat
    requires n <= |AllRounds(groups, r)| && i < |groups|
  {
    Count(strata, AllRounds(groups, r)[..n], groups[i].key)
  }

  lemma GivenStep(strata: seq<Stratum>, groups: seq<Group>, r: nat, n: nat, i: nat)
    requires ProperGroups(strata, groups) && n <= |AllRounds(groups, r)| && i < |groups|
    ensures var one := if r < |groups[i].members| then 1 else 0;
            var taken := |Round(groups, r)|;
            && (n <= taken ==> Given(strata, groups, r, n, i) <= one)
            && (taken < n ==> r < Longest(groups) && taken != 0 && n - taken <= |AllRounds(groups, r + 1)|
                              && Given(strata, groups, r, n, i) == one + Given(strata, groups, r + 1, n - taken, i))
  {
    var key, round := groups[i].key, Round(groups, r);
    RoundCounts(strata, groups, r, i);
    DrawsSplit(groups, r, n);
    if n <= |round| {
      CountPrefix(strata, round, n, key);
    } else {
      CountConcat(strata, round, AllRounds(groups, r + 1)[..n - |round|], key);
    }
  }

  /** After `n` draws a group has given what `q` or `q + 1` rounds take, for the same `q` as every other group. */
  lemma {:induction false} DrawsStayLevel(strata: seq<Stratum>, groups: seq<Group>, r: nat, n: nat, i: nat)
    requires ProperGroups(strata, groups) && n <= |AllRounds(groups, r)| && i < |groups|
    ensures var q, all := RoundOf(groups, r, n), |groups[i].members|;
            Min(q, all) <= Given(strata, groups, r, n, i) + Min(r, all) <= Min(q + 1, all)
    decreases Longest(groups) - r
  {
    GivenStep(strata, groups, r, n, i);
    if |Round(groups, r)| < n {
      DrawsStayLevel(strata, groups, r + 1, n - |Round(groups, r)|, i);
    }
  }

  lemma GroupsAreProper(s: Selection, residents: seq<Resident>)
    ensures ProperGroups(s.strata, OrderedGroups(s, residents))
  {
    var groups := OrderedGroups(s, residents);
    SortedKeys(s.strata, residents);
    forall i, m | 0 <= i < |groups| && 0 <= m < |groups[i].members|
      ensures StratumKey(s.strata, groups[i].members[m]) == groups[i].key
    {
      var key := groups[i].key;
      var own := Filter(InStratum(s.strata, key), residents);
      SortPermutes(ByHash(s.hash, key), own);
      FilterCounts(InStratum(s.strata, key), residents, groups[i].members[m]);
      assert groups[i].members[m] in multiset(own);
    }
  }

  /** Two strata differ by more than one only when the smaller one is exhausted. */
  lemma StrataAreBalanced(s: Selection, residents: seq<Resident>, i: nat, j: nat)
    requires i < |OrderedGroups(s, residents)| && j < |OrderedGroups(s, residents)|
    ensures var groups, selected := OrderedGroups(s, residents), SelectedResidents(s, residents);
            Count(s.strata, selected, groups[j].key) + 1 < Count(s.strata, selected, groups[i].key) ==>
              Count(s.strata, selected, groups[j].key) == |groups[j].members|
  {
    GroupsAreProper(s, residents);
    BalancedDraws(s.strata, OrderedGroups(s, residents), s.size, i, j);
    var all := AllRounds(OrderedGroups(s, residents), 0);
    assert all[..|all|] == all;
  }

  lemma BalancedDraws(strata: seq<Stratum>, groups: seq<Group>, size: nat, i: nat, j: nat)
    requires ProperGroups(strata, groups) && i < |groups| && j < |groups|
    ensures var all := AllRounds(groups, 0);
            var n := if size <= |all| then size else |all|;
            Given(strata, groups, 0, n, j) + 1 < Given(strata, groups, 0, n, i) ==>
              Given(strata, groups, 0, n, j) == |groups[j].members|
  {
    var all := AllRounds(groups, 0);
    var n := if size <= |all| then size else |all|;
    DrawsStayLevel(strata, groups, 0, n, i);
    DrawsStayLevel(strata, groups, 0, n, j);
    LevelMeansBalanced(RoundOf(groups, 0, n), |groups[i].members|, |groups[j].members|,
                       Given(strata, groups, 0, n, i), Given(strata, groups, 0, n, j));
  }

  lemma LevelMeansBalanced(q: int, a: nat, b: nat, x: int, y: int)
    requires Min(q, a) <= x <= Min(q + 1, a) && Min(q, b) <= y <= Min(q + 1, b)
    ensures y + 1 < x ==> y == b
  {
  }

  /******* What a stratum is *******/

  /** The attribute a stratum looks at. */
  function Attribute(r: Resident, stratum: Stratum): string {
    match stratum
    case Occupation => r.occupationCode
    case EmploymentStatus => r.employmentStatus
    case Household => r.householdId
  }

  /** The two residents agree in every attribute the strata look at. */
  predicate Alike(strata: seq<Stratum>, a: Resident, b: Resident) {
    forall i | 0 <= i < |strata| :: Attribute(a, strata[i]) == Attribute(b, strata[i])
  }

  /** Occupation codes, employment statuses and household ids contain no bar. */
  predicate Plain(r: Resident) {
    '|' !in r.occupationCode && '|' !in r.employmentStatus && '|' !in r.householdId
  }

  /** Two texts that are the same up to and after their first bar are the same on both sides of it. */
  lemma {:induction false} SplitAtBar(x: string, y: string, u: string, v: string)
    requires '|' !in x && '|' !in y && x + "|" + u == y + "|" + v
    ensures x == y && u == v
  {
    var a, b := x + "|" + u, y + "|" + v;
    assert a[|x|] == '|' && b[|y|] == '|';
    assert forall k | 0 <= k < |x| :: a[k] == x[k] && x[k] != '|';
    assert forall k | 0 <= k < |y| :: b[k] == y[k] && y[k] != '|';
    assert !(|x| < |y|) && !(|y| < |x|);
    assert x == a[..|x|] && y == b[..|y|];
    assert u == a[|x| + 1..] && v == b[|y| + 1..];
  }

  lemma LabelNamesAttribute(a: Resident, b: Resident, stratum: Stratum)
    ensures Label(a, stratum) == Label(b, stratum) <==> Attribute(a, stratum) == Attribute(b, stratum)
    ensures Plain(a) ==> '|' !in Label(a, stratum)
  {
    var prefix := match stratum case Occupation => "occupation:" case EmploymentStatus => "employment:" case Household => "household:";
    assert Label(a, stratum) == prefix + Attribute(a, stratum) && Label(b, stratum) == prefix + Attribute(b, stratum);
    assert Attribute(a, stratum) == Label(a, stratum)[|prefix|..] && Attribute(b, stratum) == Label(b, stratum)[|prefix|..];
  }

  /** Residents share a stratum exactly when they agree in the attributes it is made of. */
  lemma {:induction false} StrataAreAttributes(strata: seq<Stratum>, a: Resident, b: Resident)
    ensures Alike(strata, a, b) ==> StratumKey(strata, a) == StratumKey(strata, b)
    ensures Plain(a) && Plain(b) && StratumKey(strata, a) == StratumKey(strata, b) ==> Alike(strata, a, b)
  {
    if strata != [] {
      var rest := strata[1..];
      StrataAreAttributes(rest, a, b);
      LabelNamesAttribute(a, b, strata[0]);
      LabelNamesAttribute(b, a, strata[0]);
      assert Alike(strata, a, b) <==> Attribute(a, strata[0]) == Attribute(b, strata[0]) && Alike(rest, a, b) by {
        assert forall i | 0 < i < |strata| :: strata[i] == rest[i - 1];
        assert forall i | 0 <= i < |rest| :: rest[i] == strata[i + 1];
      }
      if Plain(a) && Plain(b) && StratumKey(strata, a) == StratumKey(strata, b) && 1 < |strata| {
        SplitAtBar(Label(a, strata[0]), Label(b, strata[0]), StratumKey(rest, a), StratumKey(rest, b));
      }
    }
  }

  /** The key that is hashed, written out for a cohort over all three attributes. */
  lemma FullKey(r: Resident)
    ensures StratumKey([Occupation, EmploymentStatus, Household], r) ==
            "occupation:" + r.occupationCode + "|employment:" + r.employmentStatus + "|household:" + r.householdId
  {
    var strata := [Occupation, EmploymentStatus, Household];
    assert strata[1..] == [EmploymentStatus, Household] && strata[1..][1..] == [Household];
    assert StratumKey([Household], r) == "household:" + r.householdId;
    assert StratumKey(strata[1..], r) == "employment:" + r.employmentStatus + "|" + StratumKey([Household], r);
  }

  /** How many of the residents are like `x`. */
  function CountAlike(strata: seq<Stratum>, residents: seq<Resident>, x: Resident): nat {
    if residents == [] then 0
    else CountAlike(strata, residents[..|residents| - 1], x) + (if Alike(strata, residents[|residents| - 1], x) then 1 else 0)
  }

  ghost predicate AllPlain(residents: seq<Resident>) {
    forall r | r in residents :: Plain(r)
  }

  lemma {:induction false} CountsAgree(strata: seq<Stratum>, residents: seq<Resident>, x: Resident)
    requires AllPlain(residents) && Plain(x)
    ensures CountAlike(strata, residents, x) == Count(strata, residents, StratumKey(strata, x))
  {
    if residents != [] {
      StrataAreAttributes(strata, residents[|residents| - 1], x);
      CountsAgree(strata, residents[..|residents| - 1], x);
    }
  }

  lemma {:induction false} FilterCount(strata: seq<Stratum>, residents: seq<Resident>, key: string)
    ensures |Filter(InStratum(strata, key), residents)| == Count(strata, residents, key)
  {
    if residents != [] {
      var shorter, last := residents[..|residents| - 1], residents[|residents| - 1];
      assert residents == shorter + [last];
      FilterAppend(InStratum(strata, key), shorter, last);
      FilterCount(strata, shorter, key);
    }
  }

  /** The group of a resident, and how large it is. */
  lemma GroupOf(s: Selection, residents: seq<Resident>, x: Resident) returns (i: nat)
    requires x in residents
    ensures i < |OrderedGroups(s, residents)| && OrderedGroups(s, residents)[i].key == StratumKey(s.strata, x)
    ensures |OrderedGroups(s, residents)[i].members| == Count(s.strata, residents, StratumKey(s.strata, x))
  {
    var key, keys := StratumKey(s.strata, x), Sort(CodeUnitLe, KeysOf(s.strata, residents));
    SortedKeys(s.strata, residents);
    KeysCover(s.strata, residents);
    var k :| 0 <= k < |residents| && residents[k] == x;
    assert StratumKey(s.strata, residents[k]) == key;
    assert key in keys;
    i :| 0 <= i < |keys| && keys[i] == key;
    SortPermutes(ByHash(s.hash, key), Filter(InStratum(s.strata, key), residents));
    FilterCount(s.strata, residents, key);
  }

  lemma SameElements(xs: seq<Resident>, ys: seq<Resident>)
    requires multiset(xs) == multiset(ys)
    ensures forall r :: r in xs <==> r in ys
  {
    forall r ensures r in xs <==> r in ys {
      assert r in multiset(xs) <==> r in multiset(ys);
    }
  }

  lemma SelectedAreResidents(s: Selection, residents: seq<Resident>)
    ensures forall r | r in SelectedResidents(s, residents) :: r in residents
  {
    var all := AllRounds(OrderedGroups(s, residents), 0);
    RoundsRearrange(s, residents);
    SameElements(all, residents);
  }

  /** The attributes of the residents decide the balance: whoever got two fewer places is exhausted. */
  lemma LikeResidentsAreBalanced(s: Selection, residents: seq<Resident>, x: Resident, y: Resident)
    requires AllPlain(residents) && x in residents && y in residents
    ensures var selected := SelectedResidents(s, residents);
            CountAlike(s.strata, selected, y) + 1 < CountAlike(s.strata, selected, x) ==>
              CountAlike(s.strata, selected, y) == CountAlike(s.strata, residents, y)
  {
    var i := GroupOf(s, residents, x);
    var j := GroupOf(s, residents, y);
    SelectedAreResidents(s, residents);
    CountsAgree(s.strata, SelectedResidents(s, residents), x);
    CountsAgree(s.strata, SelectedResidents(s, residents), y);
    CountsAgree(s.strata, residents, y);
    StrataAreBalanced(s, residents, i, j);
  }

  /******* Who is drawn *******/

  lemma HashOrderIsTotal(hash: (string, string) -> string, key: string)
    ensures TotalPreorder(ByHash(hash, key))
  {
    forall x: Resident, y: Resident ensures HashLe(hash, key, x, y) || HashLe(hash, key, y, x) {
      CodeUnitTotal(x.id, y.id);
      CodeUnitTotal(hash(key, x.id), hash(key, y.id));
    }
    forall x: Resident, y: Resident, z: Resident | HashLe(hash, key, x, y) && HashLe(hash, key, y, z)
      ensures HashLe(hash, key, x, z)
    {
      var a, b, c := hash(key, x.id), hash(key, y.id), hash(key, z.id);
      if a == b == c {
        CodeUnitTransitive(x.id, y.id, z.id);
      } else if a != b && b != c {
        CodeUnitTransitive(a, b, c);
        CodeUnitTotal(a, b);
      }
    }
  }

  lemma CodeUnitsAreTotal()
    ensures TotalPreorder(CodeUnitLe)
  {
    forall a: string, b: string ensures CodeUnitLe(a, b) || CodeUnitLe(b, a) {
      CodeUnitTotal(a, b);
    }
    forall a: string, b: string, c: string | CodeUnitLe(a, b) && CodeUnitLe(b, c) ensures CodeUnitLe(a, c) {
      CodeUnitTransitive(a, b, c);
    }
  }

  /** A round that is cut short has served the groups in front. */
  lemma CutRoundServesTheFront(strata: seq<Stratum>, groups: seq<Group>, r: nat, n: nat, i: nat, j: nat)
    requires ProperGroups(strata, groups) && i < |groups| && j < |groups| && n <= |Round(groups, r)|
    requires Count(strata, Round(groups, r)[..n], groups[j].key) < Count(strata, Round(groups, r)[..n], groups[i].key)
    requires r < |groups[j].members|
    ensures i < j
  {
    var round, front := Round(groups, r), Round(groups[..i], r);
    RoundGrows(groups, i, r);
    ProperPrefix(strata, groups, i);
    if n <= |front| {
      assert round[..n] == front[..n];
      CountPrefix(strata, front, n, groups[i].key);
      RoundTakes(strata, groups[..i], r, groups[i].key);
      TakesNone(groups[..i], r, groups[i].key);
    } else if j < i {
      assert round[..n][..|front|] == front;
      CountPrefix(strata, round[..n], |front|, groups[j].key);
      RoundCounts(strata, groups[..i], r, j);
      CountPrefix(strata, round, n, groups[i].key);
      RoundCounts(strata, groups, r, i);
    }
  }

  /** A stratum of `a` members has got more than one of `b` members, which is not exhausted. */
  predicate Ahead(r: int, a: int, x: int, b: int, y: int) {
    y + Min(r, b) < b && y + Min(r, b) < x + Min(r, a)
  }

  lemma AheadStep(r: int, a: int, x: int, b: int, y: int)
    requires Ahead(r, a, x, b, y) && 0 <= y
    ensures x <= (if r < a then 1 else 0) && y <= (if r < b then 1 else 0) ==> r < b && y < x
    ensures Ahead(r + 1, a, x - (if r < a then 1 else 0), b, y - (if r < b then 1 else 0))
  {
  }

  /** Whoever is ahead of a group that still has members stands in front of it. */
  lemma {:induction false} FrontGroupsAreAhead(strata: seq<Stratum>, groups: seq<Group>, r: nat, n: nat, i: nat, j: nat)
    requires ProperGroups(strata, groups) && n <= |AllRounds(groups, r)| && i < |groups| && j < |groups|
    requires Ahead(r, |groups[i].members|, Given(strata, groups, r, n, i), |groups[j].members|, Given(strata, groups, r, n, j))
    ensures i < j
    decreases Longest(groups) - r
  {
    GivenStep(strata, groups, r, n, i);
    GivenStep(strata, groups, r, n, j);
    AheadStep(r, |groups[i].members|, Given(strata, groups, r, n, i), |groups[j].members|, Given(strata, groups, r, n, j));
    if |Round(groups, r)| < n {
      FrontGroupsAreAhead(strata, groups, r + 1, n - |Round(groups, r)|, i, j);
    } else {
      DrawsSplit(groups, r, n);
      CutRoundServesTheFront(strata, groups, r, n, i, j);
    }
  }

  lemma GroupsAreSorted(s: Selection, residents: seq<Resident>, i: nat, j: nat)
    requires i < j < |OrderedGroups(s, residents)|
    ensures CodeUnitLe(OrderedGroups(s, residents)[i].key, OrderedGroups(s, residents)[j].key)
  {
    CodeUnitsAreTotal();
    SortSorts(CodeUnitLe, KeysOf(s.strata, residents));
  }

  /** When the last round is cut short, the places left go to the strata whose names come first. */
  lemma LastPlacesGoByName(s: Selection, residents: seq<Resident>, x: Resident, y: Resident)
    requires AllPlain(residents) && x in residents && y in residents
    requires var selected := SelectedResidents(s, residents);
             && CountAlike(s.strata, selected, y) < CountAlike(s.strata, residents, y)
             && CountAlike(s.strata, selected, y) < CountAlike(s.strata, selected, x)
    ensures Dictionary(StratumKey(s.strata, x), StratumKey(s.strata, y))
  {
    var i := GroupOf(s, residents, x);
    var j := GroupOf(s, residents, y);
    SelectedAreResidents(s, residents);
    CountsAgree(s.strata, SelectedResidents(s, residents), x);
    CountsAgree(s.strata, SelectedResidents(s, residents), y);
    CountsAgree(s.strata, residents, y);
    GroupsAreProper(s, residents);
    var groups := OrderedGroups(s, residents);
    var all := AllRounds(groups, 0);
    assert all[..|all|] == all;
    FrontGroupsAreAhead(s.strata, groups, 0, if s.size <= |all| then s.size else |all|, i, j);
    GroupsAreSorted(s, residents, i, j);
    CodeUnitsCompareAsADictionary(groups[i].key, groups[j].key);
  }

  lemma {:induction false} FilterConcat<T>(p: T -> bool, xs: seq<T>, ys: seq<T>)
    ensures Filter(p, xs + ys) == Filter(p, xs) + Filter(p, ys)
  {
    if xs == [] {
      assert xs + ys == ys;
    } else {
      assert (xs + ys)[0] == xs[0] && (xs + ys)[1..] == xs[1..] + ys;
      FilterConcat(p, xs[1..], ys);
    }
  }

  /** The members a round takes from the stratum, by looking at the groups only. */
  function Drawn(groups: seq<Group>, r: nat, key: string): seq<Resident> {
    if groups == [] then []
    else
      var last := groups[|groups| - 1];
      Drawn(groups[..|groups| - 1], r, key) + (if r < |last.members| && last.key == key then [last.members[r]] else [])
  }

  lemma {:induction false} FilterRound(strata: seq<Stratum>, groups: seq<Group>, r: nat, key: string)
    requires ProperGroups(strata, groups)
    ensures Filter(InStratum(strata, key), Round(groups, r)) == Drawn(groups, r, key)
  {
    if groups != [] {
      var n := |groups| - 1;
      ProperPrefix(strata, groups, n);
      FilterRound(strata, groups[..n], r, key);
      if r < |groups[n].members| {
        assert StratumKey(strata, groups[n].members[r]) == groups[n].key;
        FilterAppend(InStratum(strata, key), Round(groups[..n], r), groups[n].members[r]);
      } else {
        assert Round(groups[..n], r) + [] == Round(groups[..n], r);
      }
    }
  }

  lemma {:induction false} DrawnElsewhere(groups: seq<Group>, r: nat, key: string)
    requires forall i | 0 <= i < |groups| :: groups[i].key != key
    ensures Drawn(groups, r, key) == []
  {
    if groups != [] {
      assert groups[|groups| - 1].key != key;
      DrawnElsewhere(groups[..|groups| - 1], r, key);
    }
  }

  lemma {:induction false} DrawnHere(groups: seq<Group>, r: nat, i: nat)
    requires i < |groups| && forall j, k | 0 <= j < k < |groups| :: groups[j].key != groups[k].key
    ensures Drawn(groups, r, groups[i].key) == if r < |groups[i].members| then [groups[i].members[r]] else []
  {
    var n := |groups| - 1;
    if i == n {
      DrawnElsewhere(groups[..n], r, groups[n].key);
    } else {
      DrawnHere(groups[..n], r, i);
    }
  }

  /** A round draws the group's next member. */
  lemma FilterOwnRound(strata: seq<Stratum>, groups: seq<Group>, r: nat, i: nat)
    requires ProperGroups(strata, groups) && i < |groups|
    ensures Filter(InStratum(strata, groups[i].key), Round(groups, r)) ==
            if r < |groups[i].members| then [groups[i].members[r]] else []
  {
    FilterRound(strata, groups, r, groups[i].key);
    DrawnHere(groups, r, i);
  }

  function From(members: seq<Resident>, r: nat): seq<Resident> {
    if r < |members| then members[r..] else []
  }

  lemma FromNext(members: seq<Resident>, r: nat)
    ensures From(members, r) == (if r < |members| then [members[r]] else []) + From(members, r + 1)
  {
  }

  lemma {:induction false} NoMembersLeft(groups: seq<Group>, r: nat, i: nat)
    requires Longest(groups) <= r && i < |groups|
    ensures From(groups[i].members, r) == []
  {
    if i < |groups| - 1 {
      NoMembersLeft(groups[..|groups| - 1], r, i);
    }
  }

  /** The rounds draw a group's members in their order. */
  lemma {:induction false} DrawnInOrder(strata: seq<Stratum>, groups: seq<Group>, r: nat, i: nat)
    requires ProperGroups(strata, groups) && i < |groups|
    ensures Filter(InStratum(strata, groups[i].key), AllRounds(groups, r)) == From(groups[i].members, r)
    decreases Longest(groups) - r
  {
    var p := InStratum(strata, groups[i].key);
    AllRoundsStep(groups, r);
    if Longest(groups) <= r {
      NoMembersLeft(groups, r, i);
      RoundsEnd(groups, r);
    } else {
      RoundsEnd(groups, r);
      FilterOwnRound(strata, groups, r, i);
      DrawnInOrder(strata, groups, r + 1, i);
      FilterConcat(p, Round(groups, r), AllRounds(groups, r + 1));
      FromNext(groups[i].members, r);
    }
  }

  lemma {:induction false} InFilter<T>(p: T -> bool, xs: seq<T>, x: T)
    ensures x in Filter(p, xs) <==> x in xs && p(x)
  {
    if xs != [] {
      InFilter(p, xs[1..], x);
      assert x in xs <==> x == xs[0] || x in xs[1..];
    }
  }

  /** Of two members of a group, one drawn and one not, the drawn one stands in front. */
  lemma DrawnStandInFront(s: Selection, residents: seq<Resident>, i: nat, a: Resident, b: Resident)
    requires i < |OrderedGroups(s, residents)|
    requires var key, selected := OrderedGroups(s, residents)[i].key, SelectedResidents(s, residents);
             && a in selected && b in residents && b !in selected
             && StratumKey(s.strata, a) == StratumKey(s.strata, b) == key
    ensures var members := OrderedGroups(s, residents)[i].members;
            exists k, l :: 0 <= k < l < |members| && members[k] == a && members[l] == b
  {
    var groups, selected := OrderedGroups(s, residents), SelectedResidents(s, residents);
    var all, members, p := AllRounds(groups, 0), groups[i].members, InStratum(s.strata, groups[i].key);
    var rest := RestOfRounds(s, residents);
    GroupsAreProper(s, residents);
    DrawnInOrder(s.strata, groups, 0, i);
    FilterConcat(p, selected, rest);
    PlacesInFilter(p, selected, rest, a, b);
  }

  /** The residents who are not drawn come in the rounds after the cohort is complete. */
  lemma RestOfRounds(s: Selection, residents: seq<Resident>) returns (rest: seq<Resident>)
    ensures AllRounds(OrderedGroups(s, residents), 0) == SelectedResidents(s, residents) + rest
    ensures forall b | b in residents :: b in SelectedResidents(s, residents) + rest
  {
    var all, selected := AllRounds(OrderedGroups(s, residents), 0), SelectedResidents(s, residents);
    rest := all[|selected|..];
    RoundsRearrange(s, residents);
    assert all == selected + rest;
    SameElements(all, residents);
  }

  lemma PlacesInFilter(p: Resident -> bool, xs: seq<Resident>, ys: seq<Resident>, a: Resident, b: Resident)
    requires a in xs && b in xs + ys && b !in xs && p(a) && p(b)
    ensures var both := Filter(p, xs) + Filter(p, ys);
            exists k, l :: 0 <= k < l < |both| && both[k] == a && both[l] == b
  {
    InFilter(p, xs, a);
    InFilter(p, ys, b);
    var k :| 0 <= k < |Filter(p, xs)| && Filter(p, xs)[k] == a;
    var l :| 0 <= l < |Filter(p, ys)| && Filter(p, ys)[l] == b;
    var both := Filter(p, xs) + Filter(p, ys);
    assert both[k] == a && both[|Filter(p, xs)| + l] == b;
  }

  /** In a stratum the residents with the smallest seeded hashes are drawn, the id deciding between equal ones. */
  lemma SmallestHashesAreDrawn(s: Selection, residents: seq<Resident>, a: Resident, b: Resident)
    requires a in SelectedResidents(s, residents) && b in residents && b !in SelectedResidents(s, residents)
    requires Alike(s.strata, a, b)
    ensures var key := StratumKey(s.strata, a);
            var x, y := s.hash(key, a.id), s.hash(key, b.id);
            if x == y then Dictionary(a.id, b.id) else Dictionary(x, y)
  {
    StrataAreAttributes(s.strata, a, b);
    var i := GroupOf(s, residents, b);
    var key, members := OrderedGroups(s, residents)[i].key, OrderedGroups(s, residents)[i].members;
    DrawnStandInFront(s, residents, i, a, b);
    HashOrderIsTotal(s.hash, key);
    SortSorts(ByHash(s.hash, key), Filter(InStratum(s.strata, key), residents));
    assert HashLe(s.hash, key, a, b);
    CodeUnitsCompareAsADictionary(a.id, b.id);
    CodeUnitsCompareAsADictionary(s.hash(key, a.id), s.hash(key, b.id));
  }

  /** The agents come in id order: those given, or those drawn, each as often as given or drawn. */
  lemma AssignedInIdOrder(scenario: Scenario, residents: seq<Resident>)
    requires ResolveAgentLabAssignments(scenario, residents).Ok?
    ensures var ids := ResolveAgentLabAssignments(scenario, residents).value;
            && (forall i, j | 0 <= i < j < |ids| :: Dictionary(ids[i], ids[j]))
            && (scenario.assignments.Some? ==> multiset(ids) == multiset(scenario.assignments.value))
            && (scenario.assignments.None? && scenario.selection.None? ==> ids == [])
            && (scenario.assignments.None? && scenario.selection.Some? ==>
                  var drawn := SelectedResidents(scenario.selection.value, residents);
                  multiset(ids) == multiset(seq(|drawn|, i requires 0 <= i < |drawn| => drawn[i].id)))
  {
    var unsorted :=
      if scenario.assignments.Some? then scenario.assignments.value
      else if scenario.selection.None? then []
      else AgentIds(SelectedResidents(scenario.selection.value, residents));
    var ids := ResolveAgentLabAssignments(scenario, residents).value;
    assert ids == Sort(CodeUnitLe, unsorted);
    SortPermutes(CodeUnitLe, unsorted);
    CodeUnitsAreTotal();
    SortSorts(CodeUnitLe, unsorted);
    forall i, j | 0 <= i < j < |ids| ensures Dictionary(ids[i], ids[j]) {
      CodeUnitsCompareAsADictionary(ids[i], ids[j]);
    }
    if scenario.assignments.None? && scenario.selection.Some? {
      var drawn := SelectedResidents(scenario.selection.value, residents);
      assert unsorted == seq(|drawn|, i requires 0 <= i < |drawn| => drawn[i].id);
    }
  }

  /** Given assignments are refused exactly when one of them names nobody who lives here. */
  lemma AssignmentsRefusedExactlyWhen(given: seq<string>, selection: Option<Selection>, residents: seq<Resident>)
    ensures ResolveAgentLabAssignments(Scenario(Some(given), selection), residents).Err? <==>
            exists id :: id in given && forall r | r in residents :: r.id != id
  {
    if i :| 0 <= i < |given| && Unknown(residents, given[i]) {
      assert given[i] in given && forall r | r in residents :: r.id != given[i];
    }
    if id :| id in given && forall r | r in residents :: r.id != id {
      var i :| 0 <= i < |given| && given[i] == id;
      assert Unknown(residents, given[i]);
    }
  }

  /******* The order residents are supplied in *******/

  lemma HashSeparates(hash: (string, string) -> string, key: string, residents: seq<Resident>, own: seq<Resident>)
    requires KeysDistinct(IdOf, residents) && forall r | r in own :: r in residents
    ensures Separates(ByHash(hash, key), multiset(own))
  {
    forall x, y | x in multiset(own) && y in multiset(own) && HashLe(hash, key, x, y) && HashLe(hash, key, y, x)
      ensures x == y
    {
      CodeUnitTotal(hash(key, x.id), hash(key, y.id));
      CodeUnitTotal(x.id, y.id);
      assert x in own && y in own;
      var i :| 0 <= i < |residents| && residents[i] == x;
      var j :| 0 <= j < |residents| && residents[j] == y;
      assert IdOf(residents[i]) == IdOf(residents[j]);
    }
  }

  lemma GroupForgetsOrder(s: Selection, xs: seq<Resident>, ys: seq<Resident>, key: string)
    requires KeysDistinct(IdOf, xs) && multiset(xs) == multiset(ys)
    ensures GroupFor(s, xs, key) == GroupFor(s, ys, key)
  {
    var own := Filter(InStratum(s.strata, key), xs);
    FilterPermutes(InStratum(s.strata, key), xs, ys);
    HashOrderIsTotal(s.hash, key);
    forall r | r in own ensures r in xs {
      FilterCounts(InStratum(s.strata, key), xs, r);
      assert r in multiset(own);
    }
    HashSeparates(s.hash, key, xs, own);
    SortForgetsOrder(ByHash(s.hash, key), own, Filter(InStratum(s.strata, key), ys));
  }

  lemma KeysForgetOrder(strata: seq<Stratum>, xs: seq<Resident>, ys: seq<Resident>)
    requires multiset(xs) == multiset(ys)
    ensures Sort(CodeUnitLe, KeysOf(strata, xs)) == Sort(CodeUnitLe, KeysOf(strata, ys))
  {
    var kx, ky := KeysOf(strata, xs), KeysOf(strata, ys);
    KeysCover(strata, xs);
    KeysCover(strata, ys);
    forall key ensures multiset(kx)[key] == multiset(ky)[key] {
      NoRepeatsCount(kx, key);
      NoRepeatsCount(ky, key);
      KeyOccursInBoth(strata, xs, ys, key);
      KeyOccursInBoth(strata, ys, xs, key);
    }
    CodeUnitsAreTotal();
    forall a, b | a in multiset(kx) && b in multiset(kx) && CodeUnitLe(a, b) && CodeUnitLe(b, a) ensures a == b {
      CodeUnitTotal(a, b);
    }
    SortForgetsOrder(CodeUnitLe, kx, ky);
  }

  lemma KeyOccursInBoth(strata: seq<Stratum>, xs: seq<Resident>, ys: seq<Resident>, key: string)
    requires multiset(xs) == multiset(ys)
    ensures Occurs(strata, xs, key) ==> Occurs(strata, ys, key)
  {
    if i :| 0 <= i < |xs| && StratumKey(strata, xs[i]) == key {
      assert xs[i] in multiset(ys);
      var j :| 0 <= j < |ys| && ys[j] == xs[i];
    }
  }

  /** The order residents are supplied in does not matter. */
  lemma SelectionForgetsOrder(scenario: Scenario, xs: seq<Resident>, ys: seq<Resident>)
    requires KeysDistinct(IdOf, xs) && multiset(xs) == multiset(ys)
    ensures ResolveAgentLabAssignments(scenario, xs) == ResolveAgentLabAssignments(scenario, ys)
  {
    forall id ensures Unknown(xs, id) <==> Unknown(ys, id) {
      forall j | 0 <= j < |xs| ensures xs[j] in ys {
        assert xs[j] in multiset(ys);
      }
      forall j | 0 <= j < |ys| ensures ys[j] in xs {
        assert ys[j] in multiset(xs);
      }
    }
    if scenario.selection.Some? {
      var s := scenario.selection.value;
      KeysForgetOrder(s.strata, xs, ys);
      forall key {
        GroupForgetsOrder(s, xs, ys, key);
      }
      assert OrderedGroups(s, xs) == OrderedGroups(s, ys);
    }
  }
}
