/**
 * The LLM response cache: a memoising decorator around a provider, and the artifact through
 * which a recorded run is replayed without any provider.
 */
module Cache {
  import opened Shared
  import opened Ordering

  /******* Keys and records *******/

  datatype Route = Route(provider: string, model: string)

  /**
   * A request as the cache sees it: the hash of everything that shapes the output, the two
   * versions of its key, and the operational fields the hash leaves out.
   */
  datatype Request = Request(requestHash: string, promptPackVersion: int, schemaVersion: int, operational: string)

  datatype Key = Key(provider: string, model: string, promptPackVersion: int, schemaVersion: int, requestHash: string)

  /** A stored response; its value is given by its canonical text. */
  datatype Record = Record(
    key: Key, keyHash: string, value: string, responseModel: string, inputTokens: int, outputTokens: int, attempts: int)

  /** The surroundings: the key digest, the provider's routing and each request's output schema. */
  datatype Env = Env(sha: Key -> string, route: Request -> Option<Route>, parse: (Request, string) -> Option<string>)

  /** The key digest gives 64 hexadecimal digits, so it cannot tell all keys apart. */
  ghost predicate Digests(env: Env) {
    forall k :: IsSha256(env.sha(k))
  }

  /** Among these keys the digest happens to have no collision. */
  ghost predicate CollisionFree(env: Env, keys: set<Key>) {
    forall k, l | k in keys && l in keys && env.sha(k) == env.sha(l) :: k == l
  }

  predicate IsSha256(s: string) {
    |s| == 64 && forall i | 0 <= i < |s| :: '0' <= s[i] <= '9' || 'a' <= s[i] <= 'f'
  }

  predicate IsSpace(c: char) {
    c in " \t\n\r\U{0B}\U{0C}\U{A0}\U{1680}\U{2028}\U{2029}\U{202F}\U{205F}\U{3000}\U{FEFF}" || '\U{2000}' <= c <= '\U{200A}'
  }

  function TrimStart(s: string): string {
    if s != "" && IsSpace(s[0]) then TrimStart(s[1..]) else s
  }

  function TrimEnd(s: string): string {
    if s != "" && IsSpace(s[|s| - 1]) then TrimEnd(s[..|s| - 1]) else s
  }

  function Trim(s: string): string {
    TrimEnd(TrimStart(s))
  }

  lemma {:induction false} TrimEndKeepsStart(s: string)
    requires s == "" || !IsSpace(s[0])
    ensures var t := TrimEnd(s); t == "" || (!IsSpace(t[0]) && !IsSpace(t[|t| - 1]))
  {
    if s != "" && IsSpace(s[|s| - 1]) {
      TrimEndKeepsStart(s[..|s| - 1]);
    }
  }

  lemma {:induction false} TrimStartStrips(s: string)
    ensures var t := TrimStart(s); t == "" || !IsSpace(t[0])
  {
    if s != "" && IsSpace(s[0]) {
      TrimStartStrips(s[1..]);
    }
  }

  lemma TrimIdempotent(s: string)
    ensures Trim(Trim(s)) == Trim(s)
  {
    TrimStartStrips(s);
    TrimEndKeepsStart(TrimStart(s));
  }

  ghost predicate AllSpace(s: string) {
    forall i | 0 <= i < |s| :: IsSpace(s[i])
  }

  lemma {:induction false} TrimStartTakesSpace(s: string) returns (front: string)
    ensures s == front + TrimStart(s) && AllSpace(front)
  {
    front := "";
    if s != "" && IsSpace(s[0]) {
      var rest := TrimStartTakesSpace(s[1..]);
      front := [s[0]] + rest;
      assert s == [s[0]] + s[1..];
    }
  }

  lemma {:induction false} TrimEndTakesSpace(s: string) returns (back: string)
    ensures s == TrimEnd(s) + back && AllSpace(back)
  {
    back := "";
    if s != "" && IsSpace(s[|s| - 1]) {
      var rest := TrimEndTakesSpace(s[..|s| - 1]);
      back := rest + [s[|s| - 1]];
      assert s == s[..|s| - 1] + [s[|s| - 1]];
    }
  }

  /** Trimming takes the white space off both ends, all of it and nothing else. */
  lemma TrimIsExact(s: string) returns (front: string, back: string)
    ensures s == front + Trim(s) + back && AllSpace(front) && AllSpace(back)
    ensures Trim(s) != "" ==> !IsSpace(Trim(s)[0]) && !IsSpace(Trim(s)[|Trim(s)| - 1])
  {
    front := TrimStartTakesSpace(s);
    back := TrimEndTakesSpace(TrimStart(s));
    TrimStartStrips(s);
    TrimEndKeepsStart(TrimStart(s));
  }

  predicate PositiveSafe(n: int) {
    0 < n && SafeInteger(n)
  }

  /** Parses a cache key: names are trimmed and bounded, versions positive. */
  function NormalKey(k: Key): Result<Key> {
    var provider, model := Trim(k.provider), Trim(k.model);
    if 1 <= |provider| <= 100 && 1 <= |model| <= 200 && PositiveSafe(k.promptPackVersion)
       && PositiveSafe(k.schemaVersion) && IsSha256(k.requestHash)
    then Ok(k.(provider := provider, model := model))
    else Err(SchemaInvalid)
  }

  function KeyForRequest(env: Env, r: Request): Result<Key> {
    match env.route(r)
    case None => Err(Internal)
    case Some(route) => NormalKey(Key(route.provider, route.model, r.promptPackVersion, r.schemaVersion, r.requestHash))
  }

  predicate Version(n: int) {
    1 <= n < 0x20_0000_0000_0000
  }

  /** A request has a key exactly when its route is known and names, versions and hash are in bounds. */
  lemma KeyedExactlyWhen(env: Env, r: Request)
    ensures KeyForRequest(env, r).Ok? <==>
              && env.route(r).Some?
              && 1 <= |Trim(env.route(r).value.provider)| <= 100 && 1 <= |Trim(env.route(r).value.model)| <= 200
              && Version(r.promptPackVersion) && Version(r.schemaVersion) && IsSha256(r.requestHash)
  {
  }

  /** Requests share a key exactly when route names, versions and request hash agree; nothing else matters. */
  lemma SameKeyExactlyWhen(env: Env, r: Request, q: Request)
    requires KeyForRequest(env, r).Ok? && KeyForRequest(env, q).Ok?
    ensures KeyForRequest(env, r) == KeyForRequest(env, q) <==>
              && Trim(env.route(r).value.provider) == Trim(env.route(q).value.provider)
              && Trim(env.route(r).value.model) == Trim(env.route(q).value.model)
              && r.promptPackVersion == q.promptPackVersion && r.schemaVersion == q.schemaVersion
              && r.requestHash == q.requestHash
  {
  }

  /** The schema of a stored response: names are trimmed, numbers bounded. */
  function ParseRecord(record: Record): Result<Record> {
    var key := NormalKey(record.key);
    var responseModel := Trim(record.responseModel);
    if key.Err? then Err(SchemaInvalid)
    else if !(1 <= |responseModel| <= 200) || record.inputTokens < 0 || !SafeInteger(record.inputTokens)
            || record.outputTokens < 0 || !SafeInteger(record.outputTokens) || !(1 <= record.attempts <= 2)
            || !IsSha256(record.keyHash) then Err(SchemaInvalid)
    else Ok(record.(key := key.value, responseModel := responseModel))
  }

  function Normalize(env: Env, record: Record): Result<Record> {
    var parsed := ParseRecord(record);
    if parsed.Err? then parsed
    else if parsed.value.keyHash != env.sha(parsed.value.key) then Err(Conflict)
    else parsed
  }

  lemma NormalKeyIdempotent(k: Key)
    requires NormalKey(k).Ok?
    ensures NormalKey(NormalKey(k).value) == NormalKey(k)
  {
    TrimIdempotent(k.provider);
    TrimIdempotent(k.model);
  }

  /** Model name, token counts and attempts are within what a stored response may hold. */
  predicate FitsCache(model: string, inputTokens: int, outputTokens: int, attempts: int) {
    && 1 <= |Trim(model)| <= 200 && attempts in {1, 2}
    && 0 <= inputTokens < 0x20_0000_0000_0000 && 0 <= outputTokens < 0x20_0000_0000_0000
  }

  /**
   * A record can be stored exactly when its key and numbers are in bounds and its hash is the
   * digest of the key with trimmed names; it is stored with these and is otherwise unchanged.
   */
  lemma NormalizedExactlyWhen(env: Env, record: Record)
    requires Digests(env)
    ensures var key := record.key.(provider := Trim(record.key.provider), model := Trim(record.key.model));
            && (Normalize(env, record).Ok? <==>
                  && 1 <= |key.provider| <= 100 && 1 <= |key.model| <= 200 && IsSha256(key.requestHash)
                  && Version(key.promptPackVersion) && Version(key.schemaVersion)
                  && FitsCache(record.responseModel, record.inputTokens, record.outputTokens, record.attempts)
                  && record.keyHash == env.sha(key))
            && (Normalize(env, record).Ok? ==>
                  Normalize(env, record).value == record.(key := key, responseModel := Trim(record.responseModel)))
  {
    var key := record.key.(provider := Trim(record.key.provider), model := Trim(record.key.model));
    assert IsSha256(env.sha(key));
    assert NormalKey(record.key).Ok? ==> NormalKey(record.key).value == key;
  }

  lemma NormalizeIdempotent(env: Env, record: Record)
    requires Normalize(env, record).Ok?
    ensures Normalize(env, Normalize(env, record).value) == Normalize(env, record)
  {
    NormalKeyIdempotent(record.key);
    TrimIdempotent(record.responseModel);
  }

  /******* The in-memory cache: records in insertion order, at most one per key *******/

  function Find(records: seq<Record>, hash: string): Option<Record> {
    if records == [] then None
    else if records[0].keyHash == hash then Some(records[0])
    else Find(records[1..], hash)
  }

  function KeyHashOf(record: Record): string {
    record.keyHash
  }

  ghost predicate Distinct(records: seq<Record>) {
    KeysDistinct(KeyHashOf, records)
  }

  ghost predicate Stored(env: Env, records: seq<Record>) {
    Distinct(records) && forall i | 0 <= i < |records| :: Normalize(env, records[i]) == Ok(records[i])
  }

  /** Stores a record; an existing one is never replaced. */
  function Put(env: Env, records: seq<Record>, record: Record): (Result<()>, seq<Record>) {
    match Normalize(env, record)
    case Err(code) => (Err(code), records)
    case Ok(normal) =>
      match Find(records, normal.keyHash)
      case Some(existing) => (if existing == normal then Ok(()) else Err(Conflict), records)
      case None => (Ok(()), records + [normal])
  }

  lemma {:induction false} FindMeansMember(records: seq<Record>, hash: string)
    ensures Find(records, hash).Some? ==> Find(records, hash).value in records && Find(records, hash).value.keyHash == hash
    ensures Find(records, hash).None? <==> forall i | 0 <= i < |records| :: records[i].keyHash != hash
  {
    if records != [] {
      FindMeansMember(records[1..], hash);
    }
  }

  lemma FindIsMember(records: seq<Record>, record: Record)
    requires Distinct(records) && record in records
    ensures Find(records, record.keyHash) == Some(record)
  {
    FindMeansMember(records, record.keyHash);
  }

  lemma {:induction false} FindAppends(records: seq<Record>, more: seq<Record>, hash: string)
    ensures Find(records + more, hash) == if Find(records, hash).Some? then Find(records, hash) else Find(more, hash)
  {
    if records == [] {
      assert records + more == more;
    } else {
      assert (records + more)[1..] == records[1..] + more;
      FindAppends(records[1..], more, hash);
    }
  }

  /** A rearrangement finds the same records. */
  lemma FindForgetsOrder(xs: seq<Record>, ys: seq<Record>, hash: string)
    requires multiset(xs) == multiset(ys) && Distinct(xs) && Distinct(ys)
    ensures Find(xs, hash) == Find(ys, hash)
  {
    FindMeansMember(xs, hash);
    FindMeansMember(ys, hash);
    if Find(xs, hash).Some? {
      assert Find(xs, hash).value in multiset(ys);
      FindIsMember(ys, Find(xs, hash).value);
    }
    if Find(ys, hash).Some? {
      assert Find(ys, hash).value in multiset(xs);
      FindIsMember(xs, Find(ys, hash).value);
    }
  }

  lemma PutKeepsStored(env: Env, records: seq<Record>, record: Record)
    requires Stored(env, records)
    ensures Stored(env, Put(env, records, record).1)
    ensures records <= Put(env, records, record).1
    ensures Put(env, records, record).0.Ok? ==>
              Find(Put(env, records, record).1, record.keyHash) == Some(Normalize(env, record).value)
  {
    if Normalize(env, record).Ok? {
      var normal := Normalize(env, record).value;
      NormalizeIdempotent(env, record);
      FindMeansMember(records, normal.keyHash);
      FindAppends(records, [normal], normal.keyHash);
    }
  }

  class InMemoryLlmResponseCache {
    const env: Env
    var records: seq<Record>

    constructor (env: Env)
      ensures this.env == env && records == []
    {
      this.env := env;
      records := [];
    }

    method Get(hash: string) returns (found: Option<Result<Record>>)
      ensures found == match Find(records, hash) case None => None case Some(record) => Some(Normalize(env, record))
    {
      for i := 0 to |records|
        invariant Find(records, hash) == Find(records[i..], hash)
      {
        if records[i].keyHash == hash {
          return Some(Normalize(env, records[i]));
        }
      }
      return None;
    }

    method PutRecord(record: Record) returns (result: Result<()>)
      modifies this
      ensures (result, records) == Put(env, old(records), record)
    {
      var normal := Normalize(env, record);
      if normal.Err? {
        return Err(normal.code);
      }
      var existing := Find(records, normal.value.keyHash);
      if existing.Some? {
        return if existing.value == normal.value then Ok(()) else Err(Conflict);
      }
      records := records + [normal.value];
      return Ok(());
    }
  }

  /******* The caching decorator *******/

  datatype Mode = ReadWrite | CacheOnly

  datatype Success = Success(
    value: string, model: string, inputTokens: int, outputTokens: int, requestHash: string, attempts: Option<int>)

  /** What the wrapped provider comes back with when it is asked. */
  datatype Answer = Succeeded(success: Success) | Failed | Threw

  datatype FallbackReason = CacheMiss | SchemaInvalidOutput | ProviderError | ProviderFallback

  datatype Outcome =
    | Served(value: string, model: string, cached: bool, inputTokens: int, outputTokens: int, attempts: Option<int>)
    | Fallback(reason: FallbackReason)
    | Rejected

  datatype Looked = Decided(outcome: Outcome) | AskProvider(key: Key)

  /** The part of a proposal before the provider is asked. */
  function Look(env: Env, mode: Mode, records: seq<Record>, r: Request): Looked {
    match KeyForRequest(env, r)
    case Err(_) => Decided(Fallback(ProviderError))
    case Ok(key) =>
      match Find(records, env.sha(key))
      case Some(record) => Decided(ServeRecord(env, record, key, r))
      case None => if mode == CacheOnly then Decided(Fallback(CacheMiss)) else AskProvider(key)
  }

  function ServeRecord(env: Env, record: Record, key: Key, r: Request): Outcome {
    match Normalize(env, record)
    case Err(_) => Fallback(SchemaInvalidOutput)
    case Ok(normal) =>
      if normal.key != key then Fallback(SchemaInvalidOutput)
      else
        match env.parse(r, normal.value)
        case None => Fallback(SchemaInvalidOutput)
        case Some(value) =>
          Served(value, normal.responseModel, true, normal.inputTokens, normal.outputTokens, Some(normal.attempts))
  }

  function RecordOf(env: Env, key: Key, value: string, success: Success): Record {
    Record(key, env.sha(key), value, success.model, success.inputTokens, success.outputTokens,
           if success.attempts.Some? then success.attempts.value else 1)
  }

  /** The part after the provider answered; other calls may have stored records meanwhile. */
  function Land(env: Env, records: seq<Record>, r: Request, key: Key, answer: Answer): (Outcome, seq<Record>) {
    match answer
    case Threw => (Fallback(ProviderError), records)
    case Failed => (Fallback(ProviderFallback), records)
    case Succeeded(success) =>
      if success.requestHash != key.requestHash then (Fallback(SchemaInvalidOutput), records)
      else
        match env.parse(r, success.value)
        case None => (Fallback(SchemaInvalidOutput), records)
        case Some(value) =>
          match Normalize(env, RecordOf(env, key, value, success))
          case Err(_) => (Rejected, records)
          case Ok(record) =>
            var (stored, after) := Put(env, records, record);
            if stored.Err? then (Fallback(SchemaInvalidOutput), after)
            else
              (Served(value, success.model, false, success.inputTokens, success.outputTokens, success.attempts), after)
  }

  /**
   * What a proposal finds, read off the records alone. A hit is served only under its own key,
   * so a collision of digests is reported and never answered with another request's response.
   */
  lemma LooksUp(env: Env, mode: Mode, records: seq<Record>, r: Request)
    requires Stored(env, records)
    ensures var looked := Look(env, mode, records, r);
            if KeyForRequest(env, r).Err? then looked == Decided(Fallback(ProviderError))
            else
              var key := KeyForRequest(env, r).value;
              && (forall record | record in records && record.keyHash == env.sha(key) ::
                    var value := env.parse(r, record.value);
                    looked == Decided(
                      if record.key == key && value.Some? then
                        Served(value.value, record.responseModel, true, record.inputTokens, record.outputTokens,
                               Some(record.attempts))
                      else Fallback(SchemaInvalidOutput)))
              && ((forall record | record in records :: record.keyHash != env.sha(key)) ==>
                    looked == if mode == CacheOnly then Decided(Fallback(CacheMiss)) else AskProvider(key))
  {
    if KeyForRequest(env, r).Ok? {
      var key := KeyForRequest(env, r).value;
      FindMeansMember(records, env.sha(key));
      forall record | record in records && record.keyHash == env.sha(key)
        ensures Find(records, env.sha(key)) == Some(record) && Normalize(env, record) == Ok(record)
      {
        FindIsMember(records, record);
      }
    }
  }

  /**
   * What an answer leads to, read off the answer and the records. It is stored and served when
   * it fits, is served without being stored again when the same response is there already, and
   * never replaces another one.
   */
  lemma LandsAs(env: Env, records: seq<Record>, r: Request, key: Key, answer: Answer)
    requires Digests(env) && Stored(env, records) && NormalKey(key) == Ok(key)
    ensures var (outcome, after) := Land(env, records, r, key, answer);
            match answer
            case Threw => outcome == Fallback(ProviderError) && after == records
            case Failed => outcome == Fallback(ProviderFallback) && after == records
            case Succeeded(success) =>
              var value, attempts := env.parse(r, success.value), if success.attempts.Some? then success.attempts.value else 1;
              if success.requestHash != key.requestHash || value.None? then
                outcome == Fallback(SchemaInvalidOutput) && after == records
              else if !FitsCache(success.model, success.inputTokens, success.outputTokens, attempts) then
                outcome == Rejected && after == records
              else
                var record := Record(key, env.sha(key), value.value, Trim(success.model), success.inputTokens,
                                     success.outputTokens, attempts);
                var taken := exists other :: other in records && other != record && other.keyHash == env.sha(key);
                && (outcome == if taken then Fallback(SchemaInvalidOutput)
                               else Served(value.value, success.model, false, success.inputTokens, success.outputTokens,
                                           success.attempts))
                && after == if taken || record in records then records else records + [record]
  {
    if answer.Succeeded? && env.parse(r, answer.success.value).Some? {
      var success := answer.success;
      var landed := RecordOf(env, key, env.parse(r, success.value).value, success);
      NormalizedExactlyWhen(env, landed);
      if Normalize(env, landed).Ok? {
        NormalizeIdempotent(env, landed);
        StoredUnder(records, Normalize(env, landed).value);
      }
    }
  }

  /** At most one record is stored under a hash: this one, another one, or none. */
  lemma StoredUnder(records: seq<Record>, record: Record)
    requires Distinct(records)
    ensures Find(records, record.keyHash) == Some(record) <==> record in records
    ensures Find(records, record.keyHash).Some? && Find(records, record.keyHash).value != record <==>
            exists other :: other in records && other != record && other.keyHash == record.keyHash
  {
    FindMeansMember(records, record.keyHash);
    if record in records {
      FindIsMember(records, record);
    }
    if other :| other in records && other != record && other.keyHash == record.keyHash {
      FindIsMember(records, other);
    }
  }

  class CachedLlmProvider {
    const env: Env
    const mode: Mode
    const cache: InMemoryLlmResponseCache

    constructor (cache: InMemoryLlmResponseCache, mode: Mode)
      ensures this.cache == cache && this.mode == mode && env == cache.env
    {
      this.cache, this.mode, this.env := cache, mode, cache.env;
    }

    /** Answers from the cache, or hands back the key under which the provider must be asked. */
    method LookUp(r: Request) returns (looked: Looked)
      requires env == cache.env
      ensures looked == Look(env, mode, cache.records, r)
    {
      var key := KeyForRequest(env, r);
      if key.Err? {
        return Decided(Fallback(ProviderError));
      }
      var cached := cache.Get(env.sha(key.value));
      if cached.Some? {
        if cached.value.Err? || cached.value.value.key != key.value {
          return Decided(Fallback(SchemaInvalidOutput));
        }
        var normal := cached.value.value;
        var parsed := env.parse(r, normal.value);
        if parsed.None? {
          return Decided(Fallback(SchemaInvalidOutput));
        }
        return Decided(Served(parsed.value, normal.responseModel, true, normal.inputTokens, normal.outputTokens,
                              Some(normal.attempts)));
      }
      if mode == CacheOnly {
        return Decided(Fallback(CacheMiss));
      }
      return AskProvider(key.value);
    }

    /** Checks, stores and passes on what the provider answered. */
    method Receive(r: Request, key: Key, answer: Answer) returns (outcome: Outcome)
      requires env == cache.env
      modifies cache
      ensures (outcome, cache.records) == Land(env, old(cache.records), r, key, answer)
    {
      if answer.Threw? {
        return Fallback(ProviderError);
      }
      if answer.Failed? {
        return Fallback(ProviderFallback);
      }
      var success := answer.success;
      if success.requestHash != key.requestHash {
        return Fallback(SchemaInvalidOutput);
      }
      var parsed := env.parse(r, success.value);
      if parsed.None? {
        return Fallback(SchemaInvalidOutput);
      }
      var record := Normalize(env, RecordOf(env, key, parsed.value, success));
      if record.Err? {
        return Rejected;
      }
      var stored := cache.PutRecord(record.value);
      if stored.Err? {
        return Fallback(SchemaInvalidOutput);
      }
      return Served(parsed.value, success.model, false, success.inputTokens, success.outputTokens, success.attempts);
    }
  }

  /******* Runs with overlapping proposals *******/

  datatype Session = Session(records: seq<Record>, pending: map<nat, Request>, outcomes: seq<(Request, Outcome)>)

  datatype Step = Propose(id: nat, r: Request) | Arrive(id: nat, answer: Answer)

  const START := Session([], map[], [])

  function Exec(env: Env, mode: Mode, s: Session, step: Step): Session {
    match step
    case Propose(id, r) =>
      if id in s.pending then s
      else
        var looked := Look(env, mode, s.records, r);
        if looked.Decided? then s.(outcomes := s.outcomes + [(r, looked.outcome)])
        else s.(pending := s.pending[id := r])
    case Arrive(id, answer) =>
      if id !in s.pending || KeyForRequest(env, s.pending[id]).Err? then s
      else
        var r := s.pending[id];
        var (outcome, records) := Land(env, s.records, r, KeyForRequest(env, r).value, answer);
        Session(records, s.pending - {id}, s.outcomes + [(r, outcome)])
  }

  function Run(env: Env, mode: Mode, s: Session, steps: seq<Step>): Session
    decreases |steps|
  {
    if steps == [] then s else Run(env, mode, Exec(env, mode, s, steps[0]), steps[1..])
  }

  /** The keys of the proposals a run makes. */
  function KeysOf(env: Env, steps: seq<Step>): set<Key> {
    if steps == [] then {}
    else
      KeysOf(env, steps[1..]) +
      (if steps[0].Propose? && KeyForRequest(env, steps[0].r).Ok? then {KeyForRequest(env, steps[0].r).value} else {})
  }

  /** Everything the session knows of has a key among these. */
  ghost predicate KeysWithin(env: Env, s: Session, keys: set<Key>) {
    && (forall i | 0 <= i < |s.records| :: s.records[i].key in keys)
    && (forall id | id in s.pending && KeyForRequest(env, s.pending[id]).Ok? :: KeyForRequest(env, s.pending[id]).value in keys)
  }

  /** The step's answer, if it brings one to a pending request, is the provider's. */
  predicate Honest(s: Session, step: Step, provide: Request -> Answer) {
    step.Arrive? && step.id in s.pending ==> step.answer == provide(s.pending[step.id])
  }

  /** Every answer of the run is the one `provide` gives for its request. */
  ghost predicate AnsweredBy(env: Env, mode: Mode, s: Session, steps: seq<Step>, provide: Request -> Answer)
    decreases |steps|
  {
    if steps == [] then true
    else Honest(s, steps[0], provide) && AnsweredBy(env, mode, Exec(env, mode, s, steps[0]), steps[1..], provide)
  }

  /** The outcome is what calling the provider directly would have given. */
  predicate SameAsDirect(outcome: Outcome, direct: Answer) {
    if direct.Succeeded? then
      && outcome.Served?
      && outcome.value == direct.success.value
      && outcome.model == direct.success.model
      && outcome.inputTokens == direct.success.inputTokens
      && outcome.outputTokens == direct.success.outputTokens
    else outcome.Fallback?
  }

  ghost predicate AllSameAsDirect(s: Session, provide: Request -> Answer) {
    forall i | 0 <= i < |s.outcomes| :: SameAsDirect(s.outcomes[i].1, provide(s.outcomes[i].0))
  }

  /** A successful answer the cache can keep as it is. */
  predicate Keepable(env: Env, r: Request, success: Success) {
    && KeyForRequest(env, r).Ok?
    && success.requestHash == r.requestHash
    && env.parse(r, success.value) == Some(success.value)
    && Normalize(env, RecordOf(env, KeyForRequest(env, r).value, success.value, success))
       == Ok(RecordOf(env, KeyForRequest(env, r).value, success.value, success))
  }

  /**
   * Successes can be kept, and requests with the same key get answers that store alike; one
   * that the provider refuses must also be refused by its own schema.
   */
  ghost predicate Cacheable(env: Env, provide: Request -> Answer) {
    && (forall r | provide(r).Succeeded? :: Keepable(env, r, provide(r).success))
    && (forall r, q | provide(r).Succeeded? && KeyForRequest(env, r).Ok? && KeyForRequest(env, q) == KeyForRequest(env, r) ::
          if provide(q).Succeeded? then RecordFor(env, q, provide(q).success) == RecordFor(env, r, provide(r).success)
          else env.parse(q, provide(r).success.value).None?)
  }

  function RecordFor(env: Env, r: Request, success: Success): Record
    requires KeyForRequest(env, r).Ok?
  {
    RecordOf(env, KeyForRequest(env, r).value, success.value, success)
  }

  /** Every record stems from an answer to a request with its key. */
  ghost predicate Recorded(env: Env, records: seq<Record>, provide: Request -> Answer) {
    forall i | 0 <= i < |records| :: exists r ::
      provide(r).Succeeded? && KeyForRequest(env, r).Ok? && records[i] == RecordFor(env, r, provide(r).success)
  }

  lemma KeyHoldsRequestHash(env: Env, r: Request)
    requires KeyForRequest(env, r).Ok?
    ensures KeyForRequest(env, r).value.requestHash == r.requestHash
    ensures NormalKey(KeyForRequest(env, r).value) == KeyForRequest(env, r)
  {
    var route := env.route(r).value;
    NormalKeyIdempotent(Key(route.provider, route.model, r.promptPackVersion, r.schemaVersion, r.requestHash));
  }

  /** The digest tells the key of `r` from the keys of the records. */
  ghost predicate Distinguished(env: Env, records: seq<Record>, r: Request) {
    KeyForRequest(env, r).Ok? ==>
      forall i | 0 <= i < |records| && records[i].key != KeyForRequest(env, r).value ::
        env.sha(records[i].key) != env.sha(KeyForRequest(env, r).value)
  }

  lemma HitsAreTransparent(env: Env, mode: Mode, records: seq<Record>, provide: Request -> Answer, r: Request)
    requires Cacheable(env, provide) && Stored(env, records) && Recorded(env, records, provide)
    requires Distinguished(env, records, r)
    requires mode == ReadWrite && Look(env, mode, records, r).Decided?
    ensures SameAsDirect(Look(env, mode, records, r).outcome, provide(r))
  {
    if KeyForRequest(env, r).Ok? {
      var key := KeyForRequest(env, r).value;
      FindMeansMember(records, env.sha(key));
      var record := Find(records, env.sha(key)).value;
      var q :| provide(q).Succeeded? && KeyForRequest(env, q).Ok? && record == RecordFor(env, q, provide(q).success);
      assert KeyForRequest(env, q).value == record.key == key;
      assert Keepable(env, q, provide(q).success);
      if provide(r).Succeeded? {
        assert record == RecordFor(env, r, provide(r).success);
        assert Keepable(env, r, provide(r).success);
      }
    }
  }

  /** A record found under the key of `r` is the record of `r`. */
  lemma RecordedUnderKey(env: Env, records: seq<Record>, provide: Request -> Answer, r: Request, existing: Record)
    requires Cacheable(env, provide) && Recorded(env, records, provide) && existing in records
    requires Distinguished(env, records, r)
    requires provide(r).Succeeded? && KeyForRequest(env, r).Ok? && existing.keyHash == env.sha(KeyForRequest(env, r).value)
    ensures existing == RecordFor(env, r, provide(r).success)
  {
    var q :| provide(q).Succeeded? && KeyForRequest(env, q).Ok? && existing == RecordFor(env, q, provide(q).success);
    assert existing.key == KeyForRequest(env, q).value;
    assert KeyForRequest(env, q) == KeyForRequest(env, r);
  }

  lemma PutKeepsRecorded(env: Env, records: seq<Record>, provide: Request -> Answer, r: Request)
    requires Cacheable(env, provide) && Stored(env, records) && Recorded(env, records, provide)
    requires provide(r).Succeeded? && KeyForRequest(env, r).Ok? && Distinguished(env, records, r)
    ensures var (stored, after) := Put(env, records, RecordFor(env, r, provide(r).success));
            stored.Ok? && Stored(env, after) && Recorded(env, after, provide)
  {
    assert Keepable(env, r, provide(r).success);
    var record := RecordFor(env, r, provide(r).success);
    PutKeepsStored(env, records, record);
    FindMeansMember(records, record.keyHash);
    if Find(records, record.keyHash).Some? {
      RecordedUnderKey(env, records, provide, r, Find(records, record.keyHash).value);
    } else {
      RecordedGrows(env, records, provide, r);
    }
  }

  lemma RecordedGrows(env: Env, records: seq<Record>, provide: Request -> Answer, r: Request)
    requires Recorded(env, records, provide) && provide(r).Succeeded? && KeyForRequest(env, r).Ok?
    ensures Recorded(env, records + [RecordFor(env, r, provide(r).success)], provide)
  {
  }

  lemma ArrivalsAreTransparent(env: Env, records: seq<Record>, provide: Request -> Answer, r: Request)
    requires Cacheable(env, provide) && Stored(env, records) && Recorded(env, records, provide)
    requires KeyForRequest(env, r).Ok? && Distinguished(env, records, r)
    ensures var (outcome, after) := Land(env, records, r, KeyForRequest(env, r).value, provide(r));
            SameAsDirect(outcome, provide(r)) && Stored(env, after) && Recorded(env, after, provide)
  {
    if provide(r).Succeeded? {
      KeyHoldsRequestHash(env, r);
      PutKeepsRecorded(env, records, provide, r);
      assert Keepable(env, r, provide(r).success);
    }
  }

  /** What lands under a known key adds no unknown one. */
  lemma StepsKeepKeys(env: Env, s: Session, step: Step, keys: set<Key>)
    requires KeysWithin(env, s, keys) && KeysOf(env, [step]) <= keys
    ensures KeysWithin(env, Exec(env, ReadWrite, s, step), keys)
  {
    if step.Arrive? && step.id in s.pending && KeyForRequest(env, s.pending[step.id]).Ok? {
      KeyHoldsRequestHash(env, s.pending[step.id]);
    }
  }

  /** One step of a run keeps every outcome so far, and adds none, that differs from a direct call. */
  lemma StepIsTransparent(env: Env, keys: set<Key>, s: Session, step: Step, provide: Request -> Answer)
    requires CollisionFree(env, keys) && KeysWithin(env, s, keys) && KeysOf(env, [step]) <= keys
    requires Cacheable(env, provide) && Honest(s, step, provide)
    requires Stored(env, s.records) && Recorded(env, s.records, provide) && AllSameAsDirect(s, provide)
    ensures var next := Exec(env, ReadWrite, s, step);
            Stored(env, next.records) && Recorded(env, next.records, provide) && AllSameAsDirect(next, provide)
  {
    match step {
      case Propose(id, r) =>
        if id !in s.pending && Look(env, ReadWrite, s.records, r).Decided? {
          HitsAreTransparent(env, ReadWrite, s.records, provide, r);
        }
      case Arrive(id, answer) =>
        if id in s.pending && KeyForRequest(env, s.pending[id]).Ok? {
          ArrivalsAreTransparent(env, s.records, provide, s.pending[id]);
        }
    }
  }

  /**
   * Whatever the interleaving, every proposal ends as if the provider had been called directly,
   * as long as the digest does not confuse two keys of this very run.
   */
  lemma {:induction false} CachedRunsAreTransparent(
    env: Env, keys: set<Key>, s: Session, steps: seq<Step>, provide: Request -> Answer
  )
    requires CollisionFree(env, keys) && KeysWithin(env, s, keys) && KeysOf(env, steps) <= keys
    requires Cacheable(env, provide)
    requires Stored(env, s.records) && Recorded(env, s.records, provide) && AllSameAsDirect(s, provide)
    requires AnsweredBy(env, ReadWrite, s, steps, provide)
    ensures AllSameAsDirect(Run(env, ReadWrite, s, steps), provide)
    decreases |steps|
  {
    if steps != [] {
      var step := steps[0];
      StepIsTransparent(env, keys, s, step, provide);
      StepsKeepKeys(env, s, step, keys);
      CachedRunsAreTransparent(env, keys, Exec(env, ReadWrite, s, step), steps[1..], provide);
    }
  }

  /** The provider can be cached without anyone noticing: every run from an empty cache is transparent. */
  ghost predicate Transparent(env: Env, provide: Request -> Answer) {
    forall steps | CollisionFree(env, KeysOf(env, steps)) && AnsweredBy(env, ReadWrite, START, steps, provide) ::
      AllSameAsDirect(Run(env, ReadWrite, START, steps), provide)
  }

  /** What cannot be kept at all shows at once; a padded model name shows at the first hit. */
  lemma UnkeepableLanding(env: Env, r: Request, success: Success)
    requires Digests(env) && KeyForRequest(env, r).Ok? && !Keepable(env, r, success)
    ensures var key := KeyForRequest(env, r).value;
            var (outcome, after) := Land(env, [], r, key, Succeeded(success));
            || !SameAsDirect(outcome, Succeeded(success))
            || (|after| == 1 && Find(after, env.sha(key)).Some? && after[0].responseModel != success.model
                && Normalize(env, after[0]) == Ok(after[0]))
  {
    var key := KeyForRequest(env, r).value;
    KeyHoldsRequestHash(env, r);
    if success.requestHash == r.requestHash && env.parse(r, success.value) == Some(success.value) {
      var record := RecordOf(env, key, success.value, success);
      if Normalize(env, record).Ok? {
        NormalizeIdempotent(env, record);
        assert Normalize(env, record).value == record.(responseModel := Trim(record.responseModel));
      }
    }
  }

  lemma ServedModelIsStored(env: Env, record: Record, key: Key, r: Request)
    requires Normalize(env, record) == Ok(record)
    ensures ServeRecord(env, record, key, r).Served? ==> ServeRecord(env, record, key, r).model == record.responseModel
  {
  }

  /** A request whose key is not stored waits for the provider. */
  lemma ProposeWaits(env: Env, s: Session, id: nat, r: Request)
    requires id !in s.pending && KeyForRequest(env, r).Ok?
    requires Find(s.records, env.sha(KeyForRequest(env, r).value)).None?
    ensures Exec(env, ReadWrite, s, Propose(id, r)) == s.(pending := s.pending[id := r])
  {
  }

  /** A request whose key is stored is decided at once. */
  lemma ProposeHits(env: Env, s: Session, id: nat, r: Request, record: Record)
    requires id !in s.pending && KeyForRequest(env, r).Ok?
    requires Find(s.records, env.sha(KeyForRequest(env, r).value)) == Some(record)
    ensures Exec(env, ReadWrite, s, Propose(id, r)) ==
            s.(outcomes := s.outcomes + [(r, ServeRecord(env, record, KeyForRequest(env, r).value, r))])
  {
  }

  lemma ArriveLands(env: Env, s: Session, id: nat, answer: Answer)
    requires id in s.pending && KeyForRequest(env, s.pending[id]).Ok?
    ensures var r := s.pending[id];
            var (outcome, after) := Land(env, s.records, r, KeyForRequest(env, r).value, answer);
            Exec(env, ReadWrite, s, Arrive(id, answer)) == Session(after, s.pending - {id}, s.outcomes + [(r, outcome)])
  {
  }

  /** A keepable answer is stored as it is, unless something else is stored under its key. */
  lemma KeepableLands(env: Env, records: seq<Record>, r: Request, success: Success)
    requires Keepable(env, r, success) && Digests(env)
    ensures var record := RecordFor(env, r, success);
            var (outcome, after) := Land(env, records, r, KeyForRequest(env, r).value, Succeeded(success));
            && (Find(records, record.keyHash).None? ==> after == records + [record])
            && (Find(records, record.keyHash).Some? && Find(records, record.keyHash).value != record ==>
                  outcome == Fallback(SchemaInvalidOutput))
  {
    KeyHoldsRequestHash(env, r);
  }

  /** A run that proposes under one key only meets no collision. */
  lemma {:induction false} OneKeyIsCollisionFree(env: Env, steps: seq<Step>, key: Result<Key>)
    requires forall i | 0 <= i < |steps| && steps[i].Propose? :: KeyForRequest(env, steps[i].r) == key
    ensures KeysOf(env, steps) <= (if key.Ok? then {key.value} else {})
    ensures CollisionFree(env, KeysOf(env, steps))
  {
    if steps != [] {
      OneKeyIsCollisionFree(env, steps[1..], key);
    }
  }

  /** A request without a valid key never reaches the provider. */
  lemma UnkeyedShows(env: Env, provide: Request -> Answer, r: Request)
    requires provide(r).Succeeded? && KeyForRequest(env, r).Err?
    ensures !Transparent(env, provide)
  {
    var s1 := START.(outcomes := [(r, Fallback(ProviderError))]);
    FourStepsShow(env, provide, KeyForRequest(env, r), Propose(0, r), Arrive(0, Failed), Arrive(0, Failed),
                  Arrive(0, Failed), s1, s1, s1, s1, 0);
  }

  /** After an answer that cannot be kept, the first outcome differs or the second one will. */
  lemma UnkeepableAsksTwice(env: Env, r: Request, success: Success, s2: Session)
    requires Digests(env) && KeyForRequest(env, r).Ok? && !Keepable(env, r, success)
    requires s2 == Exec(env, ReadWrite, START.(pending := map[0 := r]), Arrive(0, Succeeded(success)))
    ensures |s2.outcomes| == 1 && s2.outcomes[0].0 == r && s2.pending == map[]
    ensures var s3 := Exec(env, ReadWrite, s2, Propose(1, r));
            && s2.outcomes <= s3.outcomes && 2 !in s3.pending
            && (SameAsDirect(s2.outcomes[0].1, Succeeded(success)) ==>
                  |s3.outcomes| == 2 && s3.outcomes[1].0 == r && !SameAsDirect(s3.outcomes[1].1, Succeeded(success)))
  {
    ArriveLands(env, START.(pending := map[0 := r]), 0, Succeeded(success));
    UnkeepableLanding(env, r, success);
    if SameAsDirect(s2.outcomes[0].1, Succeeded(success)) {
      ProposeHits(env, s2, 1, r, s2.records[0]);
      ServedModelIsStored(env, s2.records[0], KeyForRequest(env, r).value, r);
    }
  }

  /** One request, made twice, shows whether its answer can be kept. */
  lemma UnkeepableShows(env: Env, provide: Request -> Answer, r: Request)
    requires Digests(env) && provide(r).Succeeded? && !Keepable(env, r, provide(r).success)
    ensures !Transparent(env, provide)
  {
    if KeyForRequest(env, r).Err? {
      UnkeyedShows(env, provide, r);
    } else {
      var s1 := START.(pending := map[0 := r]);
      var s2 := Exec(env, ReadWrite, s1, Arrive(0, provide(r)));
      var s3 := Exec(env, ReadWrite, s2, Propose(1, r));
      ProposeWaits(env, START, 0, r);
      UnkeepableAsksTwice(env, r, provide(r).success, s2);
      FourStepsShow(env, provide, KeyForRequest(env, r), Propose(0, r), Arrive(0, provide(r)), Propose(1, r),
                    Arrive(2, Failed), s1, s2, s3, s3, if SameAsDirect(s2.outcomes[0].1, provide(r)) then 1 else 0);
    }
  }

  /** Two requests under one key wait; the first answer is stored, and the second meets it. */
  lemma SecondAnswerConflicts(env: Env, provide: Request -> Answer, r: Request, q: Request)
    returns (s3: Session, s4: Session)
    requires Digests(env) && provide(r).Succeeded? && provide(q).Succeeded?
    requires Keepable(env, r, provide(r).success) && Keepable(env, q, provide(q).success)
    requires KeyForRequest(env, q) == KeyForRequest(env, r)
    requires RecordFor(env, q, provide(q).success) != RecordFor(env, r, provide(r).success)
    ensures var s2 := START.(pending := map[0 := r, 1 := q]);
            s3 == Exec(env, ReadWrite, s2, Arrive(0, provide(r))) && s3.pending == map[1 := q] && |s3.outcomes| == 1
    ensures s4 == Exec(env, ReadWrite, s3, Arrive(1, provide(q)))
    ensures |s4.outcomes| == 2 && s4.outcomes[1] == (q, Fallback(SchemaInvalidOutput))
  {
    var a := RecordFor(env, r, provide(r).success);
    var s2 := START.(pending := map[0 := r, 1 := q]);
    ArriveLands(env, s2, 0, provide(r));
    KeepableLands(env, [], r, provide(r).success);
    s3 := Exec(env, ReadWrite, s2, Arrive(0, provide(r)));
    assert s3.records == [a];
    ArriveLands(env, s3, 1, provide(q));
    KeepableLands(env, [a], q, provide(q).success);
    s4 := Exec(env, ReadWrite, s3, Arrive(1, provide(q)));
  }

  lemma BothWait(env: Env, r: Request, q: Request)
    requires KeyForRequest(env, r).Ok? && KeyForRequest(env, q).Ok?
    ensures Exec(env, ReadWrite, Exec(env, ReadWrite, START, Propose(0, r)), Propose(1, q))
            == START.(pending := map[0 := r, 1 := q])
  {
    ProposeWaits(env, START, 0, r);
    ProposeWaits(env, START.(pending := map[0 := r]), 1, q);
  }

  /** Two overlapping requests under one key show answers that do not store alike. */
  lemma ConflictingAnswersShow(env: Env, provide: Request -> Answer, r: Request, q: Request)
    requires Digests(env) && provide(r).Succeeded? && provide(q).Succeeded?
    requires Keepable(env, r, provide(r).success) && Keepable(env, q, provide(q).success)
    requires KeyForRequest(env, q) == KeyForRequest(env, r)
    requires RecordFor(env, q, provide(q).success) != RecordFor(env, r, provide(r).success)
    ensures !Transparent(env, provide)
  {
    BothWait(env, r, q);
    var s1, s2 := Exec(env, ReadWrite, START, Propose(0, r)), START.(pending := map[0 := r, 1 := q]);
    var s3, s4 := SecondAnswerConflicts(env, provide, r, q);
    FourStepsShow(env, provide, KeyForRequest(env, r), Propose(0, r), Propose(1, q), Arrive(0, provide(r)),
                  Arrive(1, provide(q)), s1, s2, s3, s4, 1);
  }

  /** A stored answer is served to any request under its key whose schema takes it. */
  lemma StoredAnswerIsServed(env: Env, r: Request, success: Success, q: Request) returns (s2: Session)
    requires Digests(env) && Keepable(env, r, success)
    requires KeyForRequest(env, q) == KeyForRequest(env, r) && env.parse(q, success.value).Some?
    ensures s2 == Exec(env, ReadWrite, START.(pending := map[0 := r]), Arrive(0, Succeeded(success)))
    ensures s2.pending == map[] && |s2.outcomes| == 1
    ensures var s3 := Exec(env, ReadWrite, s2, Propose(1, q));
            s3.pending == map[] && |s3.outcomes| == 2 && s3.outcomes[1].0 == q && s3.outcomes[1].1.Served?
  {
    var s1 := START.(pending := map[0 := r]);
    ArriveLands(env, s1, 0, Succeeded(success));
    KeepableLands(env, [], r, success);
    s2 := Exec(env, ReadWrite, s1, Arrive(0, Succeeded(success)));
    ProposeHits(env, s2, 1, q, RecordFor(env, r, success));
  }

  /** A stored answer is served even to a request the provider itself would refuse. */
  lemma RefusedRequestShows(env: Env, provide: Request -> Answer, r: Request, q: Request)
    requires Digests(env) && provide(r).Succeeded? && !provide(q).Succeeded?
    requires Keepable(env, r, provide(r).success)
    requires KeyForRequest(env, q) == KeyForRequest(env, r) && env.parse(q, provide(r).success.value).Some?
    ensures !Transparent(env, provide)
  {
    var s1 := START.(pending := map[0 := r]);
    ProposeWaits(env, START, 0, r);
    var s2 := StoredAnswerIsServed(env, r, provide(r).success, q);
    var s3 := Exec(env, ReadWrite, s2, Propose(1, q));
    FourStepsShow(env, provide, KeyForRequest(env, r), Propose(0, r), Arrive(0, provide(r)), Propose(1, q),
                  Arrive(2, Failed), s1, s2, s3, s3, 1);
  }

  predicate ProposesUnder(env: Env, step: Step, key: Result<Key>) {
    step.Propose? ==> KeyForRequest(env, step.r) == key
  }

  /** Four honest steps under one key that show a difference refute transparency. */
  lemma FourStepsShow(
    env: Env, provide: Request -> Answer, key: Result<Key>, a: Step, b: Step, c: Step, d: Step,
    s1: Session, s2: Session, s3: Session, s4: Session, i: nat
  )
    requires ProposesUnder(env, a, key) && ProposesUnder(env, b, key)
    requires ProposesUnder(env, c, key) && ProposesUnder(env, d, key)
    requires Exec(env, ReadWrite, START, a) == s1 && Exec(env, ReadWrite, s1, b) == s2
    requires Exec(env, ReadWrite, s2, c) == s3 && Exec(env, ReadWrite, s3, d) == s4
    requires Honest(START, a, provide) && Honest(s1, b, provide) && Honest(s2, c, provide) && Honest(s3, d, provide)
    requires i < |s4.outcomes| && !SameAsDirect(s4.outcomes[i].1, provide(s4.outcomes[i].0))
    ensures !Transparent(env, provide)
  {
    var afterC := [d] + [];
    var afterB := [c] + afterC;
    var afterA := [b] + afterB;
    var steps := [a] + afterA;
    HonestStepAhead(env, s3, d, [], provide, s4);
    HonestStepAhead(env, s2, c, afterC, provide, s3);
    HonestStepAhead(env, s1, b, afterB, provide, s2);
    HonestStepAhead(env, START, a, afterA, provide, s1);
    FourUnderOneKey(env, key, a, b, c, d);
    assert Run(env, ReadWrite, START, steps) == s4;
  }

  lemma FourUnderOneKey(env: Env, key: Result<Key>, a: Step, b: Step, c: Step, d: Step)
    requires ProposesUnder(env, a, key) && ProposesUnder(env, b, key)
    requires ProposesUnder(env, c, key) && ProposesUnder(env, d, key)
    ensures CollisionFree(env, KeysOf(env, [a] + ([b] + ([c] + ([d] + [])))))
  {
    var steps := [a, b, c, d];
    assert [a] + ([b] + ([c] + ([d] + []))) == steps;
    forall i | 0 <= i < |steps| && steps[i].Propose? ensures KeyForRequest(env, steps[i].r) == key {
      assert ProposesUnder(env, steps[i], key);
    }
    OneKeyIsCollisionFree(env, steps, key);
  }

  lemma HonestStepAhead(env: Env, s: Session, step: Step, rest: seq<Step>, provide: Request -> Answer, next: Session)
    requires Exec(env, ReadWrite, s, step) == next && Honest(s, step, provide) && AnsweredBy(env, ReadWrite, next, rest, provide)
    ensures AnsweredBy(env, ReadWrite, s, [step] + rest, provide)
    ensures Run(env, ReadWrite, s, [step] + rest) == Run(env, ReadWrite, next, rest)
  {
    assert ([step] + rest)[1..] == rest;
  }

  lemma UncacheableShows(env: Env, provide: Request -> Answer)
    requires Digests(env) && !Cacheable(env, provide)
    ensures !Transparent(env, provide)
  {
    if r :| provide(r).Succeeded? && !Keepable(env, r, provide(r).success) {
      UnkeepableShows(env, provide, r);
    } else {
      var r, q :| && provide(r).Succeeded? && KeyForRequest(env, r).Ok? && KeyForRequest(env, q) == KeyForRequest(env, r)
                  && !(if provide(q).Succeeded? then
                         RecordFor(env, q, provide(q).success) == RecordFor(env, r, provide(r).success)
                       else env.parse(q, provide(r).success.value).None?);
      if provide(q).Succeeded? {
        ConflictingAnswersShow(env, provide, r, q);
      } else {
        RefusedRequestShows(env, provide, r, q);
      }
    }
  }

  /** Caching is transparent exactly for cacheable providers. */
  lemma TransparentExactlyWhenCacheable(env: Env, provide: Request -> Answer)
    requires Digests(env)
    ensures Transparent(env, provide) <==> Cacheable(env, provide)
  {
    if Cacheable(env, provide) {
      forall steps | CollisionFree(env, KeysOf(env, steps)) && AnsweredBy(env, ReadWrite, START, steps, provide)
        ensures AllSameAsDirect(Run(env, ReadWrite, START, steps), provide)
      {
        CachedRunsAreTransparent(env, KeysOf(env, steps), START, steps, provide);
      }
    } else {
      UncacheableShows(env, provide);
    }
  }

  /******* A world to which all of this applies *******/

  function Hex(last: char): (s: string)
    ensures '0' <= last <= '9' ==> IsSha256(s)
    ensures |s| == 64 && s[63] == last
  {
    seq(63, _ => '0') + [last]
  }

  /** One route, any text as output, and a digest that tells schema version 1 from all others. */
  const TOY: Env := Env((k: Key) => Hex(if k.schemaVersion == 1 then '1' else '2'),
                        (r: Request) => Some(Route("p", "m")),
                        (r: Request, v: string) => Some(v))

  function ToyAnswer(r: Request): Answer {
    if KeyForRequest(TOY, r).Ok? then Succeeded(Success("yes", "m", 1, 1, r.requestHash, Some(1))) else Failed
  }

  function ToyRequest(schemaVersion: int): Request {
    Request(Hex('0'), 1, schemaVersion, "")
  }

  lemma ToyKeys(r: Request)
    ensures KeyForRequest(TOY, r).Ok? ==>
              KeyForRequest(TOY, r).value == Key("p", "m", r.promptPackVersion, r.schemaVersion, r.requestHash)
    ensures KeyForRequest(TOY, r).Ok? <==>
              PositiveSafe(r.promptPackVersion) && PositiveSafe(r.schemaVersion) && IsSha256(r.requestHash)
  {
    assert Trim("p") == "p" && Trim("m") == "m";
  }

  lemma ToyAnswersAreCacheable()
    ensures Digests(TOY) && Cacheable(TOY, ToyAnswer)
  {
    forall r | ToyAnswer(r).Succeeded? ensures Keepable(TOY, r, ToyAnswer(r).success) {
      ToyAnswersAreKeepable(r);
    }
    forall r, q | ToyAnswer(r).Succeeded? && KeyForRequest(TOY, q) == KeyForRequest(TOY, r)
      ensures ToyAnswer(q) == ToyAnswer(r)
    {
      ToyKeys(r);
      ToyKeys(q);
    }
  }

  lemma ToyAnswersAreKeepable(r: Request)
    requires ToyAnswer(r).Succeeded?
    ensures Keepable(TOY, r, ToyAnswer(r).success)
  {
    ToyKeys(r);
    KeyHoldsRequestHash(TOY, r);
    assert Trim("m") == "m";
  }

  function ToyKey(schemaVersion: int): Key {
    Key("p", "m", 1, schemaVersion, Hex('0'))
  }

  lemma ToyPair(v: int, w: int)
    requires PositiveSafe(v) && PositiveSafe(w)
    ensures var steps := [Propose(0, ToyRequest(v)), Propose(1, ToyRequest(w))];
            && KeysOf(TOY, steps) == {ToyKey(v), ToyKey(w)}
            && AnsweredBy(TOY, ReadWrite, START, steps, ToyAnswer)
  {
    ToyKeys(ToyRequest(v));
    ToyKeys(ToyRequest(w));
    var first, second := Propose(0, ToyRequest(v)), Propose(1, ToyRequest(w));
    var s1 := Exec(TOY, ReadWrite, START, first);
    HonestStepAhead(TOY, s1, second, [], ToyAnswer, Exec(TOY, ReadWrite, s1, second));
    HonestStepAhead(TOY, START, first, [second] + [], ToyAnswer, s1);
    assert [first] + ([second] + []) == [first, second];
    assert [first, second][1..] == [second] && [second][1..] == [];
    assert KeysOf(TOY, [second]) == {ToyKey(w)};
  }

  lemma ToyCollisions()
    ensures CollisionFree(TOY, {ToyKey(1), ToyKey(2)}) && |{ToyKey(1), ToyKey(2)}| == 2
    ensures !CollisionFree(TOY, {ToyKey(2), ToyKey(3)})
  {
    assert Hex('1')[63] != Hex('2')[63];
    assert ToyKey(2) != ToyKey(3) && TOY.sha(ToyKey(2)) == TOY.sha(ToyKey(3));
  }

  /** The hypotheses of the results above hold together, in runs with several keys, though not in all. */
  lemma ToyWorldQualifies()
    ensures Digests(TOY) && SchemasIdempotent(TOY) && Cacheable(TOY, ToyAnswer) && Transparent(TOY, ToyAnswer)
    ensures var keys := KeysOf(TOY, [Propose(0, ToyRequest(1)), Propose(1, ToyRequest(2))]);
            |keys| == 2 && CollisionFree(TOY, keys)
    ensures AnsweredBy(TOY, ReadWrite, START, [Propose(0, ToyRequest(1)), Propose(1, ToyRequest(2))], ToyAnswer)
    ensures !CollisionFree(TOY, KeysOf(TOY, [Propose(0, ToyRequest(2)), Propose(1, ToyRequest(3))]))
  {
    ToyAnswersAreCacheable();
    TransparentExactlyWhenCacheable(TOY, ToyAnswer);
    ToyPair(1, 2);
    ToyPair(2, 3);
    ToyCollisions();
  }

  /******* The artifact of a recorded run *******/

  /** A SHA-256 of canonical text, taken as injective; a supplied digest may be any text. */
  datatype Digest = DigestOf(sourceRunId: string, entries: seq<Record>) | OtherText(text: string)

  datatype Artifact = Artifact(sourceRunId: string, entries: seq<Record>, digest: Digest)

  predicate IsRunId(s: string) {
    |s| == 12 && s[..4] == "run_" && forall i | 4 <= i < |s| :: '0' <= s[i] <= '9' || 'a' <= s[i] <= 'z'
  }

  predicate ByKeyHash(a: Record, b: Record) {
    CodeUnitLe(a.keyHash, b.keyHash)
  }

  /** The first record that `f` refuses decides the error. */
  function FirstFailure(f: Record -> Result<Record>, records: seq<Record>): (r: Option<ErrorCode>)
    ensures r.None? <==> forall i | 0 <= i < |records| :: f(records[i]).Ok?
  {
    if records == [] then None
    else if f(records[0]).Err? then Some(f(records[0]).code)
    else FirstFailure(f, records[1..])
  }

  function MapAll(f: Record -> Result<Record>, records: seq<Record>): (r: Result<seq<Record>>)
    ensures r.Ok? <==> forall i | 0 <= i < |records| :: f(records[i]).Ok?
    ensures r.Ok? ==> |r.value| == |records|
    ensures r.Ok? ==> forall i | 0 <= i < |records| :: f(records[i]) == Ok(r.value[i])
  {
    match FirstFailure(f, records)
    case Some(code) => Err(code)
    case None => Ok(seq(|records|, i requires 0 <= i < |records| => f(records[i]).value))
  }

  function NormalizeAll(env: Env, records: seq<Record>): (r: Result<seq<Record>>)
    ensures r.Ok? <==> forall i | 0 <= i < |records| :: Normalize(env, records[i]).Ok?
    ensures r.Ok? ==> |r.value| == |records|
    ensures r.Ok? ==> forall i | 0 <= i < |records| :: Normalize(env, records[i]) == Ok(r.value[i])
  {
    MapAll((record: Record) => Normalize(env, record), records)
  }

  predicate NeighboursDiffer(entries: seq<Record>) {
    forall i | 1 <= i < |entries| :: entries[i - 1].keyHash != entries[i].keyHash
  }

  /** The entries of an artifact: normalized, in key order, each key once. */
  function ArtifactEntries(env: Env, sourceRunId: string, records: seq<Record>): Result<seq<Record>> {
    var normal := NormalizeAll(env, records);
    if normal.Err? then normal
    else
      var entries := Sort(ByKeyHash, normal.value);
      if !NeighboursDiffer(entries) then Err(Conflict)
      else if !IsRunId(sourceRunId) then Err(SchemaInvalid)
      else Ok(entries)
  }

  function CreateLlmCacheArtifact(env: Env, sourceRunId: string, records: seq<Record>): Result<Artifact> {
    match ArtifactEntries(env, sourceRunId, records)
    case Err(code) => Err(code)
    case Ok(entries) => Ok(Artifact(sourceRunId, entries, DigestOf(sourceRunId, entries)))
  }

  function ParseAll(records: seq<Record>): (r: Result<seq<Record>>)
    ensures r.Ok? <==> forall i | 0 <= i < |records| :: ParseRecord(records[i]).Ok?
    ensures r.Ok? ==> |r.value| == |records|
    ensures r.Ok? ==> forall i | 0 <= i < |records| :: ParseRecord(records[i]) == Ok(r.value[i])
  {
    MapAll(ParseRecord, records)
  }

  function KeyHashes(entries: seq<Record>): seq<string> {
    seq(|entries|, i requires 0 <= i < |entries| => entries[i].keyHash)
  }

  function ValidateLlmCacheArtifact(env: Env, input: Artifact): Result<Artifact> {
    var parsed := ParseAll(input.entries);
    if !IsRunId(input.sourceRunId) then Err(SchemaInvalid)
    else if parsed.Err? then Err(parsed.code)
    else
      match ArtifactEntries(env, input.sourceRunId, parsed.value)
      case Err(code) => Err(code)
      case Ok(base) =>
        if input.digest != DigestOf(input.sourceRunId, base) then Err(Conflict)
        else if KeyHashes(parsed.value) != KeyHashes(base) then Err(Conflict)
        else CreateLlmCacheArtifact(env, input.sourceRunId, base)
  }

  lemma KeyOrderIsTotal()
    ensures TotalPreorder(ByKeyHash)
  {
    forall x: Record, y: Record ensures ByKeyHash(x, y) || ByKeyHash(y, x) {
      CodeUnitTotal(x.keyHash, y.keyHash);
    }
    forall x: Record, y: Record, z: Record | ByKeyHash(x, y) && ByKeyHash(y, z) ensures ByKeyHash(x, z) {
      CodeUnitTransitive(x.keyHash, y.keyHash, z.keyHash);
    }
  }

  lemma SortedNeighboursAreDistinct(entries: seq<Record>)
    requires Sorted(ByKeyHash, entries)
    ensures NeighboursDiffer(entries) <==> Distinct(entries)
  {
    if NeighboursDiffer(entries) {
      forall i, j | 0 <= i < j < |entries| ensures entries[i].keyHash != entries[j].keyHash {
        assert entries[i + 1 - 1].keyHash != entries[i + 1].keyHash;
        assert ByKeyHash(entries[i], entries[i + 1]) && ByKeyHash(entries[i + 1], entries[j]) by {
          CodeUnitTotal(entries[j].keyHash, entries[j].keyHash);
        }
        CodeUnitTotal(entries[i].keyHash, entries[i + 1].keyHash);
      }
    }
  }

  lemma DistinctSeparates(records: seq<Record>)
    requires Distinct(records)
    ensures Separates(ByKeyHash, multiset(records))
  {
    forall x, y | x in multiset(records) && y in multiset(records) && ByKeyHash(x, y) && ByKeyHash(y, x)
      ensures x == y
    {
      CodeUnitTotal(x.keyHash, y.keyHash);
      var i :| 0 <= i < |records| && records[i] == x;
      var j :| 0 <= j < |records| && records[j] == y;
      if i < j || j < i {
        assert false;
      }
    }
  }

  /** Sorted entries of a cache's records: still a valid cache, still the same records. */
  lemma EntriesOfStored(env: Env, sourceRunId: string, records: seq<Record>)
    requires Stored(env, records) && IsRunId(sourceRunId)
    ensures ArtifactEntries(env, sourceRunId, records) == Ok(Sort(ByKeyHash, records))
    ensures Stored(env, Sort(ByKeyHash, records)) && multiset(Sort(ByKeyHash, records)) == multiset(records)
    ensures Sort(ByKeyHash, Sort(ByKeyHash, records)) == Sort(ByKeyHash, records)
  {
    var entries := Sort(ByKeyHash, records);
    assert NormalizeAll(env, records).value == records;
    KeyOrderIsTotal();
    SortPermutes(ByKeyHash, records);
    SortSorts(ByKeyHash, records);
    KeysDistinctPermute(KeyHashOf, records, entries);
    SortedNeighboursAreDistinct(entries);
    DistinctSeparates(entries);
    SortIdempotent(ByKeyHash, entries);
    forall i | 0 <= i < |entries| ensures Normalize(env, entries[i]) == Ok(entries[i]) {
      assert entries[i] in multiset(records);
    }
  }

  /** The entries an artifact is created with form a valid cache in key order. */
  lemma CreatedEntriesAreStored(env: Env, sourceRunId: string, records: seq<Record>)
    requires ArtifactEntries(env, sourceRunId, records).Ok?
    ensures Stored(env, ArtifactEntries(env, sourceRunId, records).value)
    ensures Sort(ByKeyHash, ArtifactEntries(env, sourceRunId, records).value)
            == ArtifactEntries(env, sourceRunId, records).value
  {
    var normal := NormalizeAll(env, records).value;
    var entries := Sort(ByKeyHash, normal);
    KeyOrderIsTotal();
    SortSorts(ByKeyHash, normal);
    SortPermutes(ByKeyHash, normal);
    SortedNeighboursAreDistinct(entries);
    forall i | 0 <= i < |entries| ensures Normalize(env, entries[i]) == Ok(entries[i]) {
      assert entries[i] in multiset(normal);
      var j :| 0 <= j < |normal| && normal[j] == entries[i];
      NormalizeIdempotent(env, records[j]);
    }
    DistinctSeparates(entries);
    SortIdempotent(ByKeyHash, entries);
  }

  lemma NormalRecordsParseAsTheyAre(env: Env, records: seq<Record>)
    requires Stored(env, records)
    ensures ParseAll(records) == Ok(records) && NormalizeAll(env, records) == Ok(records)
  {
    assert NormalizeAll(env, records).value == records;
    forall i | 0 <= i < |records| ensures ParseRecord(records[i]) == Ok(records[i]) {
      assert Normalize(env, records[i]) == Ok(records[i]);
    }
    assert ParseAll(records).value == records;
  }

  /** The hashes increase strictly. */
  ghost predicate InKeyOrder(entries: seq<Record>) {
    forall i, j | 0 <= i < j < |entries| ::
      Dictionary(entries[i].keyHash, entries[j].keyHash) && entries[i].keyHash != entries[j].keyHash
  }

  lemma KeyOrderMeans(entries: seq<Record>)
    ensures InKeyOrder(entries) <==> Sorted(ByKeyHash, entries) && Distinct(entries)
  {
    forall i, j | 0 <= i < j < |entries|
      ensures Dictionary(entries[i].keyHash, entries[j].keyHash) <==> ByKeyHash(entries[i], entries[j])
    {
      CodeUnitsCompareAsADictionary(entries[i].keyHash, entries[j].keyHash);
    }
    if InKeyOrder(entries) {
      forall i, j | 0 <= i < j < |entries| ensures KeyHashOf(entries[i]) != KeyHashOf(entries[j]) {
      }
    }
    if Distinct(entries) {
      forall i, j | 0 <= i < j < |entries| ensures entries[i].keyHash != entries[j].keyHash {
        assert KeyHashOf(entries[i]) != KeyHashOf(entries[j]);
      }
    }
  }

  /** An artifact can be created exactly for a run id and storable records with different hashes. */
  lemma CreatedExactlyWhen(env: Env, sourceRunId: string, records: seq<Record>)
    ensures CreateLlmCacheArtifact(env, sourceRunId, records).Ok? <==>
              && |sourceRunId| == 12 && sourceRunId[..4] == "run_"
              && (forall i | 4 <= i < 12 :: '0' <= sourceRunId[i] <= '9' || 'a' <= sourceRunId[i] <= 'z')
              && (forall i | 0 <= i < |records| :: Normalize(env, records[i]).Ok?)
              && (forall i, j | 0 <= i < j < |records| :: records[i].keyHash != records[j].keyHash)
    ensures CreateLlmCacheArtifact(env, sourceRunId, records).Ok? ==>
              var artifact := CreateLlmCacheArtifact(env, sourceRunId, records).value;
              && artifact.sourceRunId == sourceRunId && artifact.digest == DigestOf(sourceRunId, artifact.entries)
              && InKeyOrder(artifact.entries) && |artifact.entries| == |records|
              && forall record | record in records :: Normalize(env, record).value in artifact.entries
  {
    if forall i | 0 <= i < |records| :: Normalize(env, records[i]).Ok? {
      var normal := NormalizeAll(env, records).value;
      EntriesInKeyOrder(normal);
      SameHashes(env, records, normal);
      forall record | record in records ensures Normalize(env, record).value in Sort(ByKeyHash, normal) {
        var i :| 0 <= i < |records| && records[i] == record;
        assert normal[i] in normal;
      }
    }
  }

  lemma EntriesInKeyOrder(records: seq<Record>)
    ensures var entries := Sort(ByKeyHash, records);
            && |entries| == |records| && (forall record :: record in entries <==> record in records)
            && (NeighboursDiffer(entries) <==> Distinct(records))
            && (NeighboursDiffer(entries) ==> InKeyOrder(entries))
  {
    var entries := Sort(ByKeyHash, records);
    KeyOrderIsTotal();
    SortSorts(ByKeyHash, records);
    SortKeeps(ByKeyHash, KeyHashOf, records);
    SortedNeighboursAreDistinct(entries);
    KeyOrderMeans(entries);
    SortPermutes(ByKeyHash, records);
    if Distinct(entries) {
      KeysDistinctPermute(KeyHashOf, entries, records);
    }
  }

  lemma SameHashes(env: Env, records: seq<Record>, normal: seq<Record>)
    requires |normal| == |records| && forall i | 0 <= i < |records| :: Normalize(env, records[i]) == Ok(normal[i])
    ensures Distinct(normal) <==> forall i, j | 0 <= i < j < |records| :: records[i].keyHash != records[j].keyHash
  {
    assert forall i | 0 <= i < |records| :: normal[i].keyHash == records[i].keyHash;
    if Distinct(normal) {
      forall i, j | 0 <= i < j < |records| ensures records[i].keyHash != records[j].keyHash {
        assert KeyHashOf(normal[i]) != KeyHashOf(normal[j]);
      }
    }
  }

  /** A supplied artifact validates exactly when its digest is right and its entries are storable and in key order. */
  lemma ValidatesExactlyWhen(env: Env, input: Artifact)
    requires forall i | 0 <= i < |input.entries| :: Normalize(env, input.entries[i]) == Ok(input.entries[i])
    ensures ValidateLlmCacheArtifact(env, input).Ok? <==>
              IsRunId(input.sourceRunId) && InKeyOrder(input.entries) && input.digest == DigestOf(input.sourceRunId, input.entries)
    ensures ValidateLlmCacheArtifact(env, input).Ok? ==> ValidateLlmCacheArtifact(env, input) == Ok(input)
  {
    assert ParseAll(input.entries).value == input.entries;
    assert NormalizeAll(env, input.entries).value == input.entries;
    if ValidateLlmCacheArtifact(env, input).Ok? {
      ValidIsInKeyOrder(env, input);
    }
    if InKeyOrder(input.entries) {
      InKeyOrderIsValid(env, input);
    }
  }

  lemma ValidIsInKeyOrder(env: Env, input: Artifact)
    requires ParseAll(input.entries) == Ok(input.entries) && NormalizeAll(env, input.entries) == Ok(input.entries)
    requires ValidateLlmCacheArtifact(env, input).Ok?
    ensures InKeyOrder(input.entries) && IsRunId(input.sourceRunId)
    ensures input.digest == DigestOf(input.sourceRunId, input.entries)
  {
    var sorted := Sort(ByKeyHash, input.entries);
    assert ArtifactEntries(env, input.sourceRunId, input.entries) == Ok(sorted);
    EntriesInKeyOrder(input.entries);
    SortPermutes(ByKeyHash, input.entries);
    SameHashesSameOrder(input.entries, sorted);
  }

  lemma InKeyOrderIsValid(env: Env, input: Artifact)
    requires ParseAll(input.entries) == Ok(input.entries) && NormalizeAll(env, input.entries) == Ok(input.entries)
    requires InKeyOrder(input.entries)
    ensures IsRunId(input.sourceRunId) && input.digest == DigestOf(input.sourceRunId, input.entries) ==>
              ValidateLlmCacheArtifact(env, input) == Ok(input)
  {
    KeyOrderMeans(input.entries);
    KeyOrderIsTotal();
    DistinctSeparates(input.entries);
    SortIdempotent(ByKeyHash, input.entries);
    SortedNeighboursAreDistinct(input.entries);
    if IsRunId(input.sourceRunId) {
      assert ArtifactEntries(env, input.sourceRunId, input.entries) == Ok(input.entries);
    }
  }

  /** Two arrangements of distinct records that agree in every hash are the same. */
  lemma SameHashesSameOrder(xs: seq<Record>, ys: seq<Record>)
    requires multiset(xs) == multiset(ys) && Distinct(xs) && KeyHashes(xs) == KeyHashes(ys)
    ensures xs == ys
  {
    assert |xs| == |KeyHashes(xs)| && |ys| == |KeyHashes(ys)|;
    forall i | 0 <= i < |xs| ensures xs[i] == ys[i] {
      assert ys[i] in multiset(xs);
      var j :| 0 <= j < |xs| && xs[j] == ys[i];
      assert KeyHashes(xs)[i] == KeyHashes(ys)[i];
      assert KeyHashOf(xs[i]) == KeyHashOf(xs[j]);
    }
  }

  /** Validation accepts every created artifact and returns it unchanged. */
  lemma ValidationUndoesCreation(env: Env, sourceRunId: string, records: seq<Record>)
    requires CreateLlmCacheArtifact(env, sourceRunId, records).Ok?
    ensures ValidateLlmCacheArtifact(env, CreateLlmCacheArtifact(env, sourceRunId, records).value)
            == CreateLlmCacheArtifact(env, sourceRunId, records)
  {
    var entries := ArtifactEntries(env, sourceRunId, records).value;
    CreatedEntriesAreStored(env, sourceRunId, records);
    NormalRecordsParseAsTheyAre(env, entries);
  }

  /** Whatever validates is a created artifact, and its digest determines it. */
  lemma OnlyCreatedArtifactsValidate(env: Env, input: Artifact, other: Artifact)
    requires ValidateLlmCacheArtifact(env, input).Ok?
    ensures ParseAll(input.entries).Ok?
    ensures ValidateLlmCacheArtifact(env, input) ==
            CreateLlmCacheArtifact(env, input.sourceRunId, ParseAll(input.entries).value)
    ensures ValidateLlmCacheArtifact(env, input).value.digest == input.digest
    ensures ValidateLlmCacheArtifact(env, other).Ok? && other.digest == input.digest ==>
              ValidateLlmCacheArtifact(env, other) == ValidateLlmCacheArtifact(env, input)
  {
    var parsed := ParseAll(input.entries).value;
    CreatedEntriesAreStored(env, input.sourceRunId, parsed);
    var base := ArtifactEntries(env, input.sourceRunId, parsed).value;
    EntriesOfStored(env, input.sourceRunId, base);
    if ValidateLlmCacheArtifact(env, other).Ok? && other.digest == input.digest {
      CreatedEntriesAreStored(env, other.sourceRunId, ParseAll(other.entries).value);
    }
  }

  /** The order in which records are supplied leaves no trace in the artifact or its digest. */
  lemma CreationForgetsOrder(env: Env, sourceRunId: string, xs: seq<Record>, ys: seq<Record>)
    requires multiset(xs) == multiset(ys)
    ensures CreateLlmCacheArtifact(env, sourceRunId, xs).Ok? <==> CreateLlmCacheArtifact(env, sourceRunId, ys).Ok?
    ensures CreateLlmCacheArtifact(env, sourceRunId, xs).Ok? ==>
              CreateLlmCacheArtifact(env, sourceRunId, xs) == CreateLlmCacheArtifact(env, sourceRunId, ys)
  {
    if CreateLlmCacheArtifact(env, sourceRunId, xs).Ok? {
      CreationFollows(env, sourceRunId, xs, ys);
    }
    if CreateLlmCacheArtifact(env, sourceRunId, ys).Ok? {
      CreationFollows(env, sourceRunId, ys, xs);
    }
  }

  function NormalForm(env: Env, record: Record): Record {
    if Normalize(env, record).Ok? then Normalize(env, record).value else record
  }

  lemma CreationFollows(env: Env, sourceRunId: string, xs: seq<Record>, ys: seq<Record>)
    requires multiset(xs) == multiset(ys) && CreateLlmCacheArtifact(env, sourceRunId, xs).Ok?
    ensures CreateLlmCacheArtifact(env, sourceRunId, ys) == CreateLlmCacheArtifact(env, sourceRunId, xs)
  {
    forall i | 0 <= i < |ys| ensures Normalize(env, ys[i]).Ok? {
      assert ys[i] in multiset(xs);
    }
    var nx, ny := NormalizeAll(env, xs).value, NormalizeAll(env, ys).value;
    ImagesPermute(r => NormalForm(env, r), xs, nx, ys, ny);
    KeyOrderIsTotal();
    SortPermutes(ByKeyHash, nx);
    SortSorts(ByKeyHash, nx);
    SortedNeighboursAreDistinct(Sort(ByKeyHash, nx));
    DistinctSeparates(Sort(ByKeyHash, nx));
    SortForgetsOrder(ByKeyHash, nx, ny);
  }

  /** `fx` lists the results of `f` on the elements of `xs`. */
  ghost predicate Image<T, U>(f: T -> U, xs: seq<T>, fx: seq<U>) {
    |fx| == |xs| && forall i | 0 <= i < |xs| :: fx[i] == f(xs[i])
  }

  lemma ImageWithout<T, U>(f: T -> U, xs: seq<T>, fx: seq<U>, i: nat)
    requires Image(f, xs, fx) && i < |xs|
    ensures Image(f, Without(xs, i), Without(fx, i))
  {
    forall k | 0 <= k < |xs| - 1 ensures Without(fx, i)[k] == f(Without(xs, i)[k]) {
      assert Without(xs, i)[k] == if k < i then xs[k] else xs[k + 1];
    }
  }

  /** Applying a function to rearranged elements rearranges the results. */
  lemma {:induction false} ImagesPermute<T, U>(f: T -> U, xs: seq<T>, fx: seq<U>, ys: seq<T>, fy: seq<U>)
    requires multiset(xs) == multiset(ys) && Image(f, xs, fx) && Image(f, ys, fy)
    ensures multiset(fx) == multiset(fy)
    decreases |xs|
  {
    assert |multiset(xs)| == |multiset(ys)|;
    if xs != [] {
      assert xs[0] in multiset(ys);
      var i :| 0 <= i < |ys| && ys[i] == xs[0];
      WithoutOne(xs, 0);
      WithoutOne(ys, i);
      WithoutOne(fx, 0);
      WithoutOne(fy, i);
      ImageWithout(f, xs, fx, 0);
      ImageWithout(f, ys, fy, i);
      ImagesPermute(f, Without(xs, 0), Without(fx, 0), Without(ys, i), Without(fy, i));
    }
  }

  /******* Replaying a recorded run without a provider *******/

  /** Loading an artifact stores its entries one after another. */
  function PutAll(env: Env, records: seq<Record>, entries: seq<Record>): seq<Record>
    decreases |entries|
  {
    if entries == [] then records else PutAll(env, Put(env, records, entries[0]).1, entries[1..])
  }

  lemma PutAppendsNew(env: Env, records: seq<Record>, entry: Record)
    requires Normalize(env, entry) == Ok(entry)
    requires forall i | 0 <= i < |records| :: records[i].keyHash != entry.keyHash
    ensures Put(env, records, entry).1 == records + [entry]
  {
    FindMeansMember(records, entry.keyHash);
  }

  lemma {:induction false} LoadingRestoresEntries(env: Env, all: seq<Record>, n: nat)
    requires Stored(env, all) && n <= |all|
    ensures PutAll(env, all[..n], all[n..]) == all
    decreases |all| - n
  {
    if n == |all| {
      assert all[..n] == all;
    } else {
      PutAppendsNew(env, all[..n], all[n]);
      assert all[n..][0] == all[n] && all[n..][1..] == all[n + 1..] && all[..n] + [all[n]] == all[..n + 1];
      LoadingRestoresEntries(env, all, n + 1);
    }
  }

  /** Output schemas accept their own output unchanged. */
  ghost predicate SchemasIdempotent(env: Env) {
    forall r, v | env.parse(r, v).Some? :: env.parse(r, env.parse(r, v).value) == env.parse(r, v)
  }

  /** The answer a replay owes for an outcome: the same value, model name as stored, and token counts. */
  function Replayed(outcome: Outcome): Outcome
    requires outcome.Served?
  {
    Served(outcome.value, Trim(outcome.model), true, outcome.inputTokens, outcome.outputTokens,
           Some(if outcome.attempts.Some? then outcome.attempts.value else 1))
  }

  ghost predicate Replays(env: Env, records: seq<Record>, r: Request, outcome: Outcome) {
    outcome.Served? ==> Look(env, CacheOnly, records, r) == Decided(Replayed(outcome))
  }

  lemma ReplayStillAnswers(env: Env, records: seq<Record>, more: seq<Record>, r: Request, outcome: Outcome)
    requires Replays(env, records, r, outcome)
    ensures Replays(env, records + more, r, outcome)
  {
    if outcome.Served? {
      FindAppends(records, more, env.sha(KeyForRequest(env, r).value));
    }
  }

  lemma HitsReplay(env: Env, mode: Mode, records: seq<Record>, r: Request)
    requires Stored(env, records) && Look(env, mode, records, r).Decided?
    ensures Replays(env, records, r, Look(env, mode, records, r).outcome)
  {
    if KeyForRequest(env, r).Ok? {
      var hash := env.sha(KeyForRequest(env, r).value);
      FindMeansMember(records, hash);
      if Find(records, hash).Some? {
        TrimIdempotent(Find(records, hash).value.responseModel);
      }
    }
  }

  lemma ArrivalsReplay(env: Env, records: seq<Record>, r: Request, answer: Answer)
    requires Digests(env) && SchemasIdempotent(env) && Stored(env, records) && KeyForRequest(env, r).Ok?
    ensures var (outcome, after) := Land(env, records, r, KeyForRequest(env, r).value, answer);
            Replays(env, after, r, outcome) && Stored(env, after) && records <= after
  {
    var key := KeyForRequest(env, r).value;
    if answer.Succeeded? && env.parse(r, answer.success.value).Some? {
      var record := RecordOf(env, key, env.parse(r, answer.success.value).value, answer.success);
      if Normalize(env, record).Ok? {
        var normal := Normalize(env, record).value;
        KeyHoldsRequestHash(env, r);
        NormalizeIdempotent(env, record);
        PutKeepsStored(env, records, normal);
        FindMeansMember(records, normal.keyHash);
        FindAppends(records, [normal], normal.keyHash);
        TrimIdempotent(record.responseModel);
      }
    }
  }

  /** Every outcome of a recorded run, whatever its provider did, can be replayed from its cache. */
  lemma {:induction false} RecordedRunsReplay(env: Env, s: Session, steps: seq<Step>)
    requires Digests(env) && SchemasIdempotent(env) && Stored(env, s.records)
    requires forall i | 0 <= i < |s.outcomes| :: Replays(env, s.records, s.outcomes[i].0, s.outcomes[i].1)
    ensures var after := Run(env, ReadWrite, s, steps);
            && Stored(env, after.records)
            && forall i | 0 <= i < |after.outcomes| :: Replays(env, after.records, after.outcomes[i].0, after.outcomes[i].1)
    decreases |steps|
  {
    if steps != [] {
      var next := Exec(env, ReadWrite, s, steps[0]);
      var step := steps[0];
      match step {
        case Propose(id, r) =>
          if id !in s.pending && Look(env, ReadWrite, s.records, r).Decided? {
            HitsReplay(env, ReadWrite, s.records, r);
          }
        case Arrive(id, answer) =>
          if id in s.pending && KeyForRequest(env, s.pending[id]).Ok? {
            ArrivalsReplay(env, s.records, s.pending[id], answer);
            assert next.records == s.records + next.records[|s.records|..];
            forall i | 0 <= i < |s.outcomes| ensures Replays(env, next.records, s.outcomes[i].0, s.outcomes[i].1) {
              ReplayStillAnswers(env, s.records, next.records[|s.records|..], s.outcomes[i].0, s.outcomes[i].1);
            }
          }
      }
      RecordedRunsReplay(env, next, steps[1..]);
    }
  }

  /**
   * Record, export, reload, replay: the artifact of any recorded run can be created and
   * validated, and the cache loaded from it answers every request that was ever served with the
   * same value, model and token counts, in cache-only mode and so without asking a provider.
   */
  lemma ExportedRunsReplay(env: Env, steps: seq<Step>, sourceRunId: string)
    requires Digests(env) && SchemasIdempotent(env) && IsRunId(sourceRunId)
    ensures var recorded := Run(env, ReadWrite, START, steps);
            var artifact := CreateLlmCacheArtifact(env, sourceRunId, Sort(ByKeyHash, recorded.records));
            && artifact.Ok?
            && ValidateLlmCacheArtifact(env, artifact.value) == artifact
            && var loaded := PutAll(env, [], artifact.value.entries);
               && multiset(loaded) == multiset(recorded.records)
               && forall i | 0 <= i < |recorded.outcomes| && recorded.outcomes[i].1.Served? ::
                    Look(env, CacheOnly, loaded, recorded.outcomes[i].0) == Decided(Replayed(recorded.outcomes[i].1))
  {
    var recorded := Run(env, ReadWrite, START, steps);
    RecordedRunsReplay(env, START, steps);
    var listed := Sort(ByKeyHash, recorded.records);
    EntriesOfStored(env, sourceRunId, recorded.records);
    EntriesOfStored(env, sourceRunId, listed);
    ValidationUndoesCreation(env, sourceRunId, listed);
    assert listed[..0] == [] && listed[0..] == listed;
    LoadingRestoresEntries(env, listed, 0);
    forall i | 0 <= i < |recorded.outcomes| && recorded.outcomes[i].1.Served?
      ensures Look(env, CacheOnly, listed, recorded.outcomes[i].0) == Decided(Replayed(recorded.outcomes[i].1))
    {
      var r := recorded.outcomes[i].0;
      assert Replays(env, recorded.records, r, recorded.outcomes[i].1);
      FindForgetsOrder(recorded.records, listed, env.sha(KeyForRequest(env, r).value));
    }
  }

  /** In cache-only mode no proposal ever waits for a provider, and no step changes the records. */
  lemma {:induction false} CacheOnlyRunsChangeNothing(env: Env, s: Session, steps: seq<Step>)
    requires s.pending == map[]
    ensures Run(env, CacheOnly, s, steps).records == s.records && Run(env, CacheOnly, s, steps).pending == map[]
    decreases |steps|
  {
    if steps != [] {
      CacheOnlyRunsChangeNothing(env, Exec(env, CacheOnly, s, steps[0]), steps[1..]);
    }
  }
}
