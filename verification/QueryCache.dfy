/** The async query cache: fetches that overlap, settle late or are invalidated while they run.  Each
    `await` is a boundary between two events, and the results hold for every order of events. */
module QueryCache {
  import opened Wrappers

  /******* State *******/

  /** Keys of strings and numbers, for which the JSON form is unambiguous. */
  datatype Part = Text(s: string) | Number(n: int)

  type QueryKey = seq<Part>

  predicate IsPrefixMatch(key: QueryKey, prefix: QueryKey) {
    |prefix| <= |key| && forall i :: 0 <= i < |prefix| ==> prefix[i] == key[i]
  }

  datatype QueryStatus = Idle | Loading | Success | Failed

  /** `None` in `data` means that no result has arrived yet. */
  datatype Snapshot<D, E> = Snapshot(data: Option<D>, error: Option<E>, status: QueryStatus, isLoading: bool,
                                     isFetching: bool,
                                     isStale: bool, updatedAt: Option<nat>, expiresAt: Option<int>, requestId: nat)

  /** A promise is named by the request it belongs to. */
  datatype Entry<D, E> = Entry(snapshot: Snapshot<D, E>, promise: Option<nat>, requestId: nat)

  datatype Flight = Flight(key: QueryKey, requestId: nat)

  /** The registry, and the async functions that wait for their fetcher, with the ttl they close over. */
  datatype Cache<D, E> = Cache(registry: map<QueryKey, Entry<D, E>>, flights: map<Flight, int>)

  function NewEntry<D, E>(): Entry<D, E> {
    Entry(Snapshot(None, None, Idle, false, false, false, None, None, 0), None, 0)
  }

  function EntryOf<D, E>(registry: map<QueryKey, Entry<D, E>>, key: QueryKey): Entry<D, E> {
    if key in registry then registry[key] else NewEntry()
  }

  /******* Events *******/

  datatype Outcome<D> = Served(data: D) | Shared(requestId: nat) | Started(requestId: nat)

  /** What can happen next: a call of `fetchWithCache`; its last line, which stores the promise; a fetcher
      that resolves or rejects, with the clock readings then taken; an invalidation; a mere read. */
  datatype Event<D, E> =
    | Fetch(key: QueryKey, ttl: int, force: bool, now: nat)
    | Attach(key: QueryKey, requestId: nat)
    | Resolve(key: QueryKey, requestId: nat, data: Option<D>, updatedAt: nat, later: nat)
    | Refuse(key: QueryKey, requestId: nat, error: E)
    | Invalidate(prefix: QueryKey)
    | Peek(key: QueryKey)

  predicate Fresh<D, E>(s: Snapshot<D, E>, now: nat) {
    s.data.Some? && s.expiresAt.Some? && s.expiresAt.value > now
  }

  function FetchOutcome<D, E>(e: Entry<D, E>, force: bool, now: nat): Outcome<D> {
    if Fresh(e.snapshot, now) && !force then Served(e.snapshot.data.value)
    else if e.promise.Some? && !force then Shared(e.promise.value)
    else Started(e.requestId + 1)
  }

  function Begun<D, E>(e: Entry<D, E>): Entry<D, E> {
    var keep := e.snapshot.data.Some?;
    e.(requestId := e.requestId + 1,
    snapshot := e.snapshot.(requestId := e.requestId + 1, isFetching := true, isLoading := !keep, isStale := keep,
    status := if keep then Success else Loading, error := None))
  }

  function Resolved<D, E>(e: Entry<D, E>, ttl: int, data: Option<D>, updatedAt: nat, later: nat): Entry<D, E> {
    e.(promise := None,
    snapshot := e.snapshot.(data := data, status := Success, error := None, isLoading := false, isFetching := false,
    isStale := false,
    updatedAt := Some(updatedAt), expiresAt := if ttl > 0 then Some(later + ttl) else None))
  }

  function Rejected<D, E>(e: Entry<D, E>, error: E): Entry<D, E> {
    e.(promise := None,
    snapshot := e.snapshot.(error := Some(error), isLoading := false, isFetching := false,
    status := if e.snapshot.data.Some? then Success else Failed, isStale := false))
  }

  function Invalidated<D, E>(e: Entry<D, E>): Entry<D, E> {
    e.(requestId := e.requestId + 1, promise := None,
    snapshot := e.snapshot.(isStale := true, isFetching := false, isLoading := false, error := None,
    expiresAt := Some(0),
    requestId := e.requestId + 1))
  }

  function DoFetch<D, E>(c: Cache<D, E>, key: QueryKey, ttl: int, force: bool, now: nat): Cache<D, E> {
    var e := EntryOf(c.registry, key);
    if FetchOutcome(e, force, now).Started? then
      Cache(c.registry[key := Begun(e)], c.flights[Flight(key, e.requestId + 1) := ttl])
    else
      c.(registry := c.registry[key := e])
  }

  /** A flight that lands: it writes only if its request is still the current one. */
  predicate Lands<D, E>(c: Cache<D, E>, key: QueryKey, requestId: nat) {
    Flight(key, requestId) in c.flights && key in c.registry && c.registry[key].requestId == requestId
  }

  function DoSettle<D, E>(c: Cache<D, E>, key: QueryKey, requestId: nat, settled: Entry<D, E>): Cache<D, E> {
    Cache(if Lands(c, key, requestId) then c.registry[key := settled] else c.registry,
          c.flights - {Flight(key, requestId)})
  }

  function DoInvalidate<D, E>(c: Cache<D, E>, prefix: QueryKey): Cache<D, E> {
    c.(registry := map key | key in c.registry :: if IsPrefixMatch(key, prefix) then Invalidated(c.registry[key])
                                                  else c.registry[key])
  }

  function Step<D, E>(c: Cache<D, E>, e: Event<D, E>): Cache<D, E> {
    match e
    case Fetch(key, ttl, force, now) => DoFetch(c, key, ttl, force, now)
    case Attach(key, requestId) =>
      if key in c.registry then c.(registry := c.registry[key := c.registry[key].(promise := Some(requestId))]) else c
    case Resolve(key, requestId, data, updatedAt, later) =>
      var ttl := if Flight(key, requestId) in c.flights then c.flights[Flight(key, requestId)] else 0;
      DoSettle(c, key, requestId, Resolved(EntryOf(c.registry, key), ttl, data, updatedAt, later))
    case Refuse(key, requestId, error) => DoSettle(c, key, requestId, Rejected(EntryOf(c.registry, key), error))
    case Invalidate(prefix) => DoInvalidate(c, prefix)
    case Peek(key) => c.(registry := c.registry[key := EntryOf(c.registry, key)])
  }

  /** The state after the first `n` events, from the empty registry. */
  function StateAt<D, E>(trace: seq<Event<D, E>>, n: nat): Cache<D, E>
    requires n <= |trace|
  {
    if n == 0 then Cache(map[], map[]) else Step(StateAt(trace, n - 1), trace[n - 1])
  }

  function Current<D, E>(trace: seq<Event<D, E>>, n: nat, key: QueryKey): Entry<D, E>
    requires n <= |trace|
  {
    EntryOf(StateAt(trace, n).registry, key)
  }

  /** The entry was overtaken: one request further, nothing in flight for it, and expired, with the data that it had. */
  predicate Overtakes<D(==), E(==)>(e: Entry<D, E>, next: Entry<D, E>) {
    var s, t := e.snapshot, next.snapshot;
    && next.requestId == t.requestId == e.requestId + 1 && next.promise == None && t.expiresAt == Some(0)
    && t.data == s.data && t.updatedAt == s.updatedAt && t.status == s.status
    && t.isStale && !t.isFetching && !t.isLoading && t.error == None
  }

  /******* The program *******/

  class QueryStore<D, E> {
    var registry: map<QueryKey, Entry<D, E>>
    var flights: map<Flight, int>

    ghost function Contents(): Cache<D, E>
      reads this
    {
      Cache(registry, flights)
    }

    constructor ()
      ensures Contents() == Cache(map[], map[])
    {
      registry, flights := map[], map[];
    }

    /** `getStore` */
    method GetStore(key: QueryKey) returns (e: Entry<D, E>)
      modifies this
      ensures Contents() == Step(old(Contents()), Peek(key))
      ensures e == EntryOf(old(registry), key)
    {
      if key in registry {
        assert registry == registry[key := registry[key]];
        return registry[key];
      }
      e := NewEntry();
      registry := registry[key := e];
    }

    /** `fetchWithCache` up to the point where the fetcher runs. */
    method FetchWithCache(key: QueryKey, ttl: int, force: bool, now: nat) returns (outcome: Outcome<D>)
      modifies this
      ensures Contents() == Step(old(Contents()), Fetch(key, ttl, force, now))
      ensures outcome == FetchOutcome(EntryOf(old(registry), key), force, now)
    {
      var e := GetStore(key);
      var hasFreshData := e.snapshot.data.Some? && e.snapshot.expiresAt.Some? && e.snapshot.expiresAt.value > now
                          && !force;
      if hasFreshData {
        return Served(e.snapshot.data.value);
      }
      if e.promise.Some? && !force {
        return Shared(e.promise.value);
      }
      var requestId := e.requestId + 1;
      e := e.(requestId := requestId);
      var preserveData := e.snapshot.data.Some?;
      e := e.(snapshot := e.snapshot.(requestId := requestId, isFetching := true, isLoading := !preserveData,
      isStale := preserveData,
      status := if preserveData then Success else Loading, error := None));
      registry := registry[key := e];
      flights := flights[Flight(key, requestId) := ttl];
      return Started(requestId);
    }

    /** The rest of the async function, after its fetcher resolved. */
    method OnResolved(key: QueryKey, requestId: nat, data: Option<D>, updatedAt: nat, later: nat)
      requires Flight(key, requestId) in flights && key in registry
      modifies this
      ensures Contents() == Step(old(Contents()), Resolve(key, requestId, data, updatedAt, later))
    {
      var e, ttl := registry[key], flights[Flight(key, requestId)];
      flights := flights - {Flight(key, requestId)};
      if e.requestId != requestId {
        return;
      }
      e := e.(snapshot := e.snapshot.(data := data, status := Success, error := None, isLoading := false,
      isFetching := false,
      isStale := false, updatedAt := Some(updatedAt),
      expiresAt := if ttl > 0 then Some(later + ttl) else None));
      if e.requestId == requestId {
        e := e.(promise := None);
      }
      registry := registry[key := e];
    }

    /** The rest of the async function, after its fetcher failed. */
    method OnRejected(key: QueryKey, requestId: nat, error: E)
      requires Flight(key, requestId) in flights && key in registry
      modifies this
      ensures Contents() == Step(old(Contents()), Refuse(key, requestId, error))
    {
      var e := registry[key];
      flights := flights - {Flight(key, requestId)};
      if e.requestId != requestId {
        return;
      }
      e := e.(snapshot := e.snapshot.(error := Some(error), isLoading := false, isFetching := false,
      status := if e.snapshot.data.Some? then Success else Failed, isStale := false));
      if e.requestId == requestId {
        e := e.(promise := None);
      }
      registry := registry[key := e];
    }

    /** `invalidateQuery`: the entries are visited one by one. */
    method InvalidateQuery(prefix: QueryKey)
      modifies this
      ensures Contents() == Step(old(Contents()), Invalidate(prefix))
      ensures registry.Keys == old(registry).Keys && flights == old(flights)
      ensures forall key :: key in registry ==>
                              if prefix <= key then Overtakes(old(registry)[key], registry[key])
                              else registry[key] == old(registry)[key]
    {
      var todo := registry.Keys;
      while todo != {}
        invariant todo <= registry.Keys == old(registry).Keys
        invariant flights == old(flights)
        invariant forall key :: key in todo ==> registry[key] == old(registry)[key]
        invariant forall key :: key in registry && key !in todo ==>
                                  registry[key] == DoInvalidate(old(Contents()), prefix).registry[key]
        decreases todo
      {
        var key :| key in todo;
        todo := todo - {key};
        if IsPrefixMatch(key, prefix) {
          var e := registry[key];
          e := e.(requestId := e.requestId + 1, promise := None);
          e := e.(snapshot := e.snapshot.(isStale := true, isFetching := false, isLoading := false, error := None,
          expiresAt := Some(0),
          requestId := e.requestId));
          registry := registry[key := e];
        }
      }
    }
  }

  /******* Invariants of every interleaving *******/

  /** A flight carries an id that was handed out. */
  predicate FlightAt<D, E>(c: Cache<D, E>, key: QueryKey, id: nat) {
    Flight(key, id) in c.flights ==> key in c.registry && id <= c.registry[key].requestId
  }

  /** The snapshot shows the current id, and an entry is fetching exactly while its current request flies. */
  predicate EntryAt<D, E>(c: Cache<D, E>, key: QueryKey) {
    var e := EntryOf(c.registry, key);
    e.snapshot.requestId == e.requestId && (e.snapshot.isFetching <==> Flight(key, e.requestId) in c.flights)
  }

  ghost predicate Ok<D, E>(c: Cache<D, E>) {
    (forall key, id: nat :: FlightAt(c, key, id)) && (forall key :: EntryAt(c, key))
  }

  lemma StepAt<D, E>(c: Cache<D, E>, e: Event<D, E>, key: QueryKey, id: nat)
    requires FlightAt(c, key, id) && FlightAt(c, key, EntryOf(c.registry, key).requestId + 1) && EntryAt(c, key)
    ensures FlightAt(Step(c, e), key, id) && EntryAt(Step(c, e), key)
    ensures EntryOf(c.registry, key).requestId <= EntryOf(Step(c, e).registry, key).requestId
    ensures key in c.registry ==> key in Step(c, e).registry
  {
  }

  lemma StepOk<D, E>(c: Cache<D, E>, e: Event<D, E>)
    requires Ok(c)
    ensures Ok(Step(c, e))
    ensures forall key :: EntryOf(c.registry, key).requestId <= EntryOf(Step(c, e).registry, key).requestId
    ensures c.registry.Keys <= Step(c, e).registry.Keys
  {
    forall key, id: nat
      ensures FlightAt(Step(c, e), key, id) && EntryAt(Step(c, e), key)
      ensures EntryOf(c.registry, key).requestId <= EntryOf(Step(c, e).registry, key).requestId
      ensures key in c.registry ==> key in Step(c, e).registry
    {
      assert FlightAt(c, key, EntryOf(c.registry, key).requestId + 1);
      StepAt(c, e, key, id);
    }
    forall key ensures EntryAt(Step(c, e), key) {
      assert FlightAt(Step(c, e), key, 0);
    }
  }

  lemma {:induction false} AlwaysOk<D, E>(trace: seq<Event<D, E>>, n: nat)
    requires n <= |trace|
    ensures Ok(StateAt(trace, n))
  {
    if n > 0 {
      AlwaysOk(trace, n - 1);
      StepOk(StateAt(trace, n - 1), trace[n - 1]);
    }
  }

  lemma {:induction false} RequestIdsGrow<D, E>(trace: seq<Event<D, E>>, m: nat, n: nat, key: QueryKey)
    requires m <= n <= |trace|
    ensures Current(trace, m, key).requestId <= Current(trace, n, key).requestId
    decreases n
  {
    if m < n {
      RequestIdsGrow(trace, m, n - 1, key);
      AlwaysOk(trace, n - 1);
      StepOk(StateAt(trace, n - 1), trace[n - 1]);
    }
  }

  /** A request that has been handed out and is not in flight never flies again. */
  lemma {:induction false} FlightGone<D, E>(trace: seq<Event<D, E>>, m: nat, n: nat, key: QueryKey, id: nat)
    requires m <= n <= |trace|
    requires id <= Current(trace, m, key).requestId && Flight(key, id) !in StateAt(trace, m).flights
    ensures Flight(key, id) !in StateAt(trace, n).flights
    decreases n
  {
    if m < n {
      FlightGone(trace, m, n - 1, key, id);
      RequestIdsGrow(trace, m, n - 1, key);
    }
  }

  /******* Results land in order *******/

  /** Event `n` writes a result of request `id` into the entry of `key`. */
  predicate Writes<D, E>(trace: seq<Event<D, E>>, n: nat, key: QueryKey, id: nat)
    requires n < |trace|
  {
    && (trace[n].Resolve? || trace[n].Refuse?) && trace[n].key == key && trace[n].requestId == id
    && Lands(StateAt(trace, n), key, id)
  }

  /** The requests that write a result are strictly increasing. */
  lemma WritesIncrease<D, E>(trace: seq<Event<D, E>>, i: nat, j: nat, key: QueryKey, first: nat, second: nat)
    requires i < j < |trace| && Writes(trace, i, key, first) && Writes(trace, j, key, second)
    ensures first < second
  {
    RequestIdsGrow(trace, i, j, key);
    FlightGone(trace, i + 1, j, key, first);
  }

  /** Event `n` starts request `id` for `key`. */
  predicate Starts<D, E>(trace: seq<Event<D, E>>, n: nat, key: QueryKey, id: nat)
    requires n < |trace|
  {
    && trace[n].Fetch? && trace[n].key == key
    && FetchOutcome(Current(trace, n, key), trace[n].force, trace[n].now) == Started(id)
  }

  predicate Clears<D, E>(trace: seq<Event<D, E>>, n: nat, key: QueryKey)
    requires n < |trace|
  {
    trace[n].Invalidate? && trace[n].prefix <= key
  }

  /** An invalidation overtakes exactly the entries whose keys continue the given one, and touches no other. */
  lemma InvalidationReaches<D, E>(c: Cache<D, E>, prefix: QueryKey, key: QueryKey)
    requires key in c.registry
    ensures var next := Step(c, Event<D, E>.Invalidate(prefix));
            && next.registry.Keys == c.registry.Keys && next.flights == c.flights
            && (forall rest :: key == prefix + rest ==> Overtakes(c.registry[key], next.registry[key]))
            && ((forall rest :: key != prefix + rest) ==> next.registry[key] == c.registry[key])
  {
    if IsPrefixMatch(key, prefix) {
      assert key == prefix + key[|prefix|..];
    }
  }

  /** A fetch begun before an invalidation never changes afterwards an entry that the invalidation reached. */
  lemma OvertakenFetchWritesNothing<D, E>(trace: seq<Event<D, E>>, i: nat, k: nat, j: nat, key: QueryKey, id: nat,
                                          prefix: QueryKey, rest: QueryKey)
    requires i < k < j < |trace| && Starts(trace, i, key, id)
    requires trace[k] == Event<D, E>.Invalidate(prefix) && key == prefix + rest
    requires (trace[j].Resolve? || trace[j].Refuse?) && trace[j].key == key && trace[j].requestId == id
    ensures !Writes(trace, j, key, id)
    ensures key in StateAt(trace, j + 1).registry && Current(trace, j + 1, key) == Current(trace, j, key)
  {
    assert key in StateAt(trace, i + 1).registry;
    StaysRegistered(trace, i + 1, k, key);
    StaysRegistered(trace, i + 1, j, key);
    InvalidationReaches(StateAt(trace, k), prefix, key);
    RequestIdsGrow(trace, i + 1, k, key);
    RequestIdsGrow(trace, k + 1, j, key);
  }

  lemma {:induction false} StaysRegistered<D, E>(trace: seq<Event<D, E>>, m: nat, n: nat, key: QueryKey)
    requires m <= n <= |trace| && key in StateAt(trace, m).registry
    ensures key in StateAt(trace, n).registry
    decreases n
  {
    if m < n {
      StaysRegistered(trace, m, n - 1, key);
      AlwaysOk(trace, n - 1);
      StepOk(StateAt(trace, n - 1), trace[n - 1]);
    }
  }

  /******* Fresh reads *******/

  /** Where a flight came from; while its request is current, nothing has cleared its entry since. */
  lemma {:induction false} FindStart<D, E>(trace: seq<Event<D, E>>, n: nat, key: QueryKey, id: nat) returns (i: nat)
    requires n <= |trace| && Flight(key, id) in StateAt(trace, n).flights
    ensures i < n && Starts(trace, i, key, id) && trace[i].ttl == StateAt(trace, n).flights[Flight(key, id)]
    ensures Current(trace, n, key).requestId == id ==> forall k :: i < k < n ==> !Clears(trace, k, key)
  {
    AlwaysOk(trace, n - 1);
    assert FlightAt(StateAt(trace, n - 1), key, id);
    if Starts(trace, n - 1, key, id) {
      i := n - 1;
    } else {
      FlightKept(trace, n - 1, key, id);
      i := FindStart(trace, n - 1, key, id);
    }
  }

  lemma FlightKept<D, E>(trace: seq<Event<D, E>>, m: nat, key: QueryKey, id: nat)
    requires m < |trace| && !Starts(trace, m, key, id) && FlightAt(StateAt(trace, m), key, id)
    requires Flight(key, id) in StateAt(trace, m + 1).flights
    ensures Flight(key, id) in StateAt(trace, m).flights
    ensures StateAt(trace, m).flights[Flight(key, id)] == StateAt(trace, m + 1).flights[Flight(key, id)]
    ensures Current(trace, m + 1, key).requestId == id ==>
              Current(trace, m, key).requestId == id && !Clears(trace, m, key)
  {
    var c := StateAt(trace, m);
    assert StateAt(trace, m + 1) == Step(c, trace[m]);
  }

  /** The data with its expiry came from a fetch that began after the last matching invalidation. */
  ghost predicate Explains<D, E>(trace: seq<Event<D, E>>, n: nat, key: QueryKey, i: nat, j: nat)
    requires n <= |trace|
  {
    && i < j < n
    && trace[i].Fetch? && trace[j].Resolve?
    && Starts(trace, i, key, trace[j].requestId) && Writes(trace, j, key, trace[j].requestId)
    && (forall k :: i < k < n ==> !Clears(trace, k, key))
    && Current(trace, n, key).snapshot.data == trace[j].data
    && trace[i].ttl > 0
    && Current(trace, n, key).snapshot.expiresAt == Some(trace[j].later + trace[i].ttl)
  }

  lemma {:induction false} ExpiryExplained<D, E>(trace: seq<Event<D, E>>, n: nat, key: QueryKey)
    returns (i: nat, j: nat)
    requires n <= |trace|
    requires var s := Current(trace, n, key).snapshot; s.expiresAt.Some? && s.expiresAt.value > 0
    ensures Explains(trace, n, key, i, j)
  {
    var m := n - 1;
    var s, t := Current(trace, m, key).snapshot, Current(trace, n, key).snapshot;
    if trace[m].Resolve? && trace[m].key == key && Writes(trace, m, key, trace[m].requestId) {
      j := m;
      i := FindStart(trace, m, key, trace[m].requestId);
    } else {
      assert t.expiresAt == s.expiresAt && t.data == s.data && !Clears(trace, m, key);
      i, j := ExpiryExplained(trace, m, key);
    }
  }

  /** Whatever the interleaving, a read served from the cache returns the data of a fetch that began after the last
      invalidation that reached the key, and it is served before that result's time to live has passed; a read that
      forces a fetch is never served. */
  lemma FreshReadExplained<D, E>(trace: seq<Event<D, E>>, n: nat, key: QueryKey) returns (i: nat, j: nat)
    requires n < |trace| && trace[n].Fetch? && trace[n].key == key
    requires FetchOutcome(Current(trace, n, key), trace[n].force, trace[n].now).Served?
    ensures !trace[n].force
    ensures i < j < n && trace[i].Fetch? && trace[j].Resolve?
    ensures Starts(trace, i, key, trace[j].requestId) && Writes(trace, j, key, trace[j].requestId)
    ensures forall k, prefix, rest :: i < k < n && key == prefix + rest ==> trace[k] != Event<D, E>.Invalidate(prefix)
    ensures trace[j].data == Some(FetchOutcome(Current(trace, n, key), trace[n].force, trace[n].now).data)
    ensures trace[n].now < trace[j].later + trace[i].ttl
  {
    i, j := ExpiryExplained(trace, n, key);
    forall k, prefix, rest | i < k < n && key == prefix + rest
      ensures trace[k] != Event<D, E>.Invalidate(prefix)
    {
      assert !Clears(trace, k, key);
    }
  }

  /** Event `k` writes a new result, or overtakes the entry. */
  predicate Replaces<D, E>(trace: seq<Event<D, E>>, k: nat, key: QueryKey)
    requires k < |trace|
  {
    Clears(trace, k, key) || (trace[k].Resolve? && Writes(trace, k, key, trace[k].requestId))
  }

  /** The other way round: a result that was written with a time to live is served to every read in that time, as long
      as no other result is written and no invalidation reaches the key, whatever else is going on. */
  lemma FreshResultServes<D, E>(trace: seq<Event<D, E>>, i: nat, j: nat, n: nat, key: QueryKey)
    requires i < j < n < |trace| && trace[i].Fetch? && trace[j].Resolve? && trace[j].data.Some?
    requires Starts(trace, i, key, trace[j].requestId) && Writes(trace, j, key, trace[j].requestId)
    requires forall k :: j < k < n ==> !Replaces(trace, k, key)
    requires trace[n].Fetch? && trace[n].key == key && !trace[n].force
    requires trace[i].ttl > 0 && trace[n].now < trace[j].later + trace[i].ttl
    ensures FetchOutcome(Current(trace, n, key), trace[n].force, trace[n].now) == Served(trace[j].data.value)
  {
    var first := FindStart(trace, j, key, trace[j].requestId);
    StartsOnce(trace, first, i, key, trace[j].requestId);
    ResultStays(trace, j, n, key);
  }

  /** No two fetches start the same request. */
  lemma StartsOnce<D, E>(trace: seq<Event<D, E>>, i: nat, j: nat, key: QueryKey, id: nat)
    requires i < |trace| && j < |trace| && Starts(trace, i, key, id) && Starts(trace, j, key, id)
    ensures i == j
  {
    if i < j {
      RequestIdsGrow(trace, i + 1, j, key);
    } else if j < i {
      RequestIdsGrow(trace, j + 1, i, key);
    }
  }

  lemma StepKeepsResult<D, E>(c: Cache<D, E>, e: Event<D, E>, key: QueryKey)
    requires !(e.Invalidate? && e.prefix <= key)
    requires !(e.Resolve? && e.key == key && Lands(c, key, e.requestId))
    ensures var s, t := EntryOf(c.registry, key).snapshot, EntryOf(Step(c, e).registry, key).snapshot;
            t.data == s.data && t.updatedAt == s.updatedAt && t.expiresAt == s.expiresAt
  {
  }

  lemma {:induction false} ResultStays<D, E>(trace: seq<Event<D, E>>, j: nat, n: nat, key: QueryKey)
    requires j < n <= |trace| && trace[j].Resolve? && trace[j].key == key && Writes(trace, j, key, trace[j].requestId)
    requires forall k :: j < k < n ==> !Replaces(trace, k, key)
    ensures var s := Current(trace, n, key).snapshot;
            && s.data == trace[j].data && s.updatedAt == Some(trace[j].updatedAt)
            && var ttl := StateAt(trace, j).flights[Flight(key, trace[j].requestId)];
            s.expiresAt == if ttl > 0 then Some(trace[j].later + ttl) else None
    decreases n
  {
    var m := n - 1;
    assert StateAt(trace, n) == Step(StateAt(trace, m), trace[m]);
    if m > j {
      ResultStays(trace, j, m, key);
      assert !Replaces(trace, m, key);
      StepKeepsResult(StateAt(trace, m), trace[m], key);
    }
  }

  /** What `fetchWithCache` does: it serves only fresh data, shares only a stored promise, and either way leaves the
      entry alone; a forced fetch always starts a request, the next one. */
  lemma FetchRule<D, E>(c: Cache<D, E>, key: QueryKey, ttl: int, force: bool, now: nat)
    requires key in c.registry
    ensures var e, next := c.registry[key], Step(c, Event<D, E>.Fetch(key, ttl, force, now));
            var s := e.snapshot;
            match FetchOutcome(e, force, now)
            case Served(data) => !force && s.data == Some(data) && s.expiresAt.Some? && now < s.expiresAt.value
                                 && next == c
            case Shared(id) => !force && e.promise == Some(id) && next == c
                               && (s.data == None || s.expiresAt == None || s.expiresAt.value <= now)
            case Started(id) => id == e.requestId + 1 && key in next.registry && next.registry[key].requestId == id
                                && next.flights == c.flights[Flight(key, id) := ttl]
                                && (force || (e.promise == None
                                              && (s.data == None || s.expiresAt == None || s.expiresAt.value <= now)))
  {
    assert c.registry[key := c.registry[key]] == c.registry;
  }

  /******* What a subscriber sees *******/

  /** While a request runs no error shows, and without data the entry is loading, with data stale; it is not loading
      otherwise.  An error shows only when nothing runs, as a failure unless there is data.  An entry that no request
      and no invalidation has touched is blank. */
  predicate Sensible<D, E>(s: Snapshot<D, E>) {
    && (s.isFetching ==>
          && s.error.None? && (s.isLoading <==> s.data.None?) && (s.isStale <==> s.data.Some?)
          && s.status == (if s.data.Some? then Success else Loading))
    && (s.isLoading ==> s.isFetching)
    && (s.error.Some? ==> !s.isStale && s.status == (if s.data.Some? then Success else Failed))
    && (s.status == Idle ==> s.data.None? && s.error.None? && !s.isFetching)
    && (s.requestId == 0 ==> s.status == Idle && !s.isStale && s.updatedAt.None? && s.expiresAt.None?)
  }

  lemma StepSensible<D, E>(c: Cache<D, E>, e: Event<D, E>, key: QueryKey)
    requires Sensible(EntryOf(c.registry, key).snapshot) && EntryAt(c, key)
    ensures Sensible(EntryOf(Step(c, e).registry, key).snapshot)
  {
  }

  lemma {:induction false} AlwaysSensible<D, E>(trace: seq<Event<D, E>>, n: nat, key: QueryKey)
    requires n <= |trace|
    ensures Sensible(Current(trace, n, key).snapshot)
  {
    if n > 0 {
      var c := StateAt(trace, n - 1);
      AlwaysSensible(trace, n - 1, key);
      AlwaysOk(trace, n - 1);
      assert EntryAt(c, key);
      StepSensible(c, trace[n - 1], key);
    }
  }

  /** When a result arrives for the current request, the entry shows it, fresh and without error, and is at rest. */
  lemma ArrivalRule<D, E>(trace: seq<Event<D, E>>, n: nat, key: QueryKey)
    requires n < |trace| && trace[n].Resolve? && Writes(trace, n, key, trace[n].requestId)
    ensures var e := Current(trace, n + 1, key);
            var s := e.snapshot;
            && s.data == trace[n].data && s.status == Success && s.error == None && !s.isStale
            && !s.isFetching && !s.isLoading && e.promise == None && e.requestId == trace[n].requestId
  {
    assert StateAt(trace, n + 1) == Step(StateAt(trace, n), trace[n]);
  }

  /** Data shown, fresh or stale, is what the last result written into the entry brought. */
  lemma {:induction false} DataExplained<D, E>(trace: seq<Event<D, E>>, n: nat, key: QueryKey) returns (j: nat)
    requires n <= |trace| && Current(trace, n, key).snapshot.data.Some?
    ensures j < n && trace[j].Resolve? && Writes(trace, j, key, trace[j].requestId)
    ensures Current(trace, n, key).snapshot.data == trace[j].data
    ensures forall k :: j < k < n && trace[k].Resolve? ==> !Writes(trace, k, key, trace[k].requestId)
  {
    var m := n - 1;
    if trace[m].Resolve? && Writes(trace, m, key, trace[m].requestId) {
      j := m;
    } else {
      assert Current(trace, n, key).snapshot.data == Current(trace, m, key).snapshot.data;
      j := DataExplained(trace, m, key);
    }
  }

  /** An error shown is that of a request which failed while it was the current one, and no fetch has started, no
      result was written and no invalidation has reached the key since. */
  lemma {:induction false} ErrorExplained<D, E>(trace: seq<Event<D, E>>, n: nat, key: QueryKey) returns (j: nat)
    requires n <= |trace| && Current(trace, n, key).snapshot.error.Some?
    ensures j < n && trace[j].Refuse? && Writes(trace, j, key, trace[j].requestId)
    ensures Current(trace, n, key).snapshot.error == Some(trace[j].error)
    ensures forall k :: j < k < n ==> !Replaces(trace, k, key)
    ensures forall k, id :: j < k < n ==> !Starts(trace, k, key, id)
  {
    var m := n - 1;
    if trace[m].Refuse? && Writes(trace, m, key, trace[m].requestId) {
      j := m;
    } else {
      assert Current(trace, n, key).snapshot.error == Current(trace, m, key).snapshot.error;
      assert !Replaces(trace, m, key) && forall id :: !Starts(trace, m, key, id);
      j := ErrorExplained(trace, m, key);
    }
  }
}
