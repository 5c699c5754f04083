/**
 * Every interleaving of calls to the configuration loader.
 *
 * A world is the loader, the callers suspended inside it, and the history of the remote
 * files and of the invalidations. Each step is one stretch of code between two suspension
 * points; the remote files and the clock may change at every step.
 */
module LoaderRuns {
  import opened OrderedDict
  import opened ConfigLoading

  datatype Touched = Untouched | One(key: Key) | All

  /** The remote files and the clock after a step, and which keys that step invalidated. */
  datatype Moment = Moment(files: map<Key, Raw>, touched: Touched, clock: real)

  predicate Touches(m: Moment, k: Key) {
    m.touched == All || m.touched == One(k)
  }

  function FileAt(trace: seq<Moment>, t: nat, k: Key): Option<Raw>
    requires t < |trace|
  {
    if k in trace[t].files then Some(trace[t].files[k]) else None
  }

  /** No invalidation touched `k` after moment `i`, up to moment `j`. */
  ghost predicate Quiet(trace: seq<Moment>, k: Key, i: nat, j: nat)
    requires j < |trace|
  {
    forall n :: i < n <= j ==> !Touches(trace[n], k)
  }

  /** How often `k` was invalidated up to moment `i`: a counter that never resets. */
  function Epoch(trace: seq<Moment>, k: Key, i: nat): nat
    requires i < |trace|
  {
    if i == 0 then 0 else Epoch(trace, k, i - 1) + if Touches(trace[i], k) then 1 else 0
  }

  type CallId = nat
  datatype How = FromCache | Led | Joined

  datatype Phase =
    | Leading(flight: FlightId)
    | Waiting(flight: FlightId)
    | Done(how: How, flight: FlightId, end: nat, outcome: Outcome)
    | Abandoned(flight: FlightId)

  /** One call of `load`. A call served from the cache names the flight that stored the entry. */
  datatype Call = Call(key: Key, start: nat, phase: Phase)

  /** Who leads a fetch, when it registered, which moment its response shows, when it ended and how. */
  datatype FlightLog = FlightLog(leader: CallId, begun: nat, read: nat, ended: nat, outcome: Option<Outcome>)

  datatype World = World(
    loader: Loader,
    trace: seq<Moment>,
    calls: seq<Call>,
    log: seq<FlightLog>,
    origin: map<Key, FlightId>,
    usedAt: map<Key, nat>)

  datatype Event =
    | Load(key: Key)
    | Fetched(call: CallId, reply: Reply, at: nat)
    | Wakes(call: CallId)
    | Cancels(call: CallId)
    | Invalidates(key: Key)
    | Clears
    | Elsewhere

  /** An event together with the remote files and the clock it leaves behind. */
  datatype Input = Input(event: Event, files: map<Key, Raw>, clock: real)

  function Start(files: map<Key, Raw>, clock: real): World {
    World(NEW_LOADER, [Moment(files, Untouched, clock)], [], [], map[], map[])
  }

  predicate Shows(reply: Reply, file: Option<Raw>) {
    match reply
    case Content(raw) => file == Some(raw)
    case Nothing => file == None
    case NotFound => file == None
    case _ => true
  }

  predicate Enabled(w: World, input: Input) {
    && |w.trace| > 0
    && input.clock >= w.trace[|w.trace| - 1].clock
    && match input.event
       case Fetched(c, reply, at) =>
         && c < |w.calls|
         && w.calls[c].phase.Leading?
         && w.calls[c].phase.flight < |w.loader.flights|
         && w.calls[c].phase.flight < |w.log|
         && w.log[w.calls[c].phase.flight].begun <= at < |w.trace|
         && Shows(reply, FileAt(w.trace, at, w.calls[c].key))
       case Wakes(c) =>
         && c < |w.calls|
         && w.calls[c].phase.Waiting?
         && w.calls[c].phase.flight < |w.loader.flights|
         && w.loader.flights[w.calls[c].phase.flight].signalled
       case Cancels(c) => c < |w.calls| && w.calls[c].phase.Waiting?
       case _ => true
  }

  function TouchOf(event: Event): Touched {
    match event
    case Invalidates(k) => One(k)
    case Clears => All
    case _ => Untouched
  }

  predicate Publishes(reply: Reply) {
    reply.Content? || reply.Nothing? || reply.NotFound?
  }

  function LoadStep(w: World, k: Key): World
    requires |w.trace| > 0
  {
    var here := |w.trace| - 1;
    var (l, begin) := BeginLoad(w.loader, k, w.trace[here].clock);
    match begin
    case Hit(outcome) =>
      var source := if k in w.origin then w.origin[k] else 0;
      w.(loader := l, calls := w.calls + [Call(k, here, Done(FromCache, source, here, outcome))],
         usedAt := w.usedAt[k := here + 1])
    case Lead(f) =>
      w.(loader := l, calls := w.calls + [Call(k, here, Leading(f))],
         log := w.log + [FlightLog(|w.calls|, here, here, here, None)])
    case Join(f) =>
      w.(loader := l, calls := w.calls + [Call(k, here, Waiting(f))])
  }

  function FetchStep(parse: Raw -> Parsed, w: World, c: CallId, reply: Reply, at: nat): World
    requires |w.trace| > 0 && c < |w.calls|
    requires w.calls[c].phase.flight < |w.loader.flights| && w.calls[c].phase.flight < |w.log|
  {
    var here, f := |w.trace| - 1, w.calls[c].phase.flight;
    var k := w.loader.flights[f].key;
    var (l, outcome) := EndFetch(w.loader, f, parse, reply, w.trace[here].clock);
    var stored := Publishes(reply) && CountAt(w.loader.generation, k) == w.loader.flights[f].generation;
    w.(loader := l,
       calls := w.calls[c := w.calls[c].(phase := Done(Led, f, here, outcome))],
       log := w.log[f := w.log[f].(read := at, ended := here, outcome := Some(outcome))],
       origin := if stored then w.origin[k := f] else w.origin,
       usedAt := if stored then w.usedAt[k := here + 1] else w.usedAt)
  }

  function WakeStep(w: World, c: CallId): World
    requires |w.trace| > 0 && c < |w.calls| && w.calls[c].phase.flight < |w.loader.flights|
  {
    var here, f := |w.trace| - 1, w.calls[c].phase.flight;
    var (l, outcome) := Wake(w.loader, f);
    w.(loader := l, calls := w.calls[c := w.calls[c].(phase := Done(Joined, f, here, outcome))])
  }

  function CancelStep(w: World, c: CallId): World
    requires c < |w.calls|
  {
    w.(calls := w.calls[c := w.calls[c].(phase := Abandoned(w.calls[c].phase.flight))])
  }

  function Acted(parse: Raw -> Parsed, w: World, input: Input): World
    requires Enabled(w, input)
  {
    match input.event
    case Load(k) => LoadStep(w, k)
    case Fetched(c, reply, at) => FetchStep(parse, w, c, reply, at)
    case Wakes(c) => WakeStep(w, c)
    case Cancels(c) => CancelStep(w, c)
    case Invalidates(k) => w.(loader := Invalidate(w.loader, k))
    case Clears => w.(loader := Clear(w.loader))
    case Elsewhere => w
  }

  function Step(parse: Raw -> Parsed, w: World, input: Input): World
    requires Enabled(w, input)
  {
    Acted(parse, w, input).(trace := w.trace + [Moment(input.files, TouchOf(input.event), input.clock)])
  }

  /** `ws` are the successive worlds of one run of the loader. */
  ghost predicate IsRun(parse: Raw -> Parsed, ws: seq<World>, inputs: seq<Input>) {
    && |ws| == |inputs| + 1
    && (exists files, clock :: ws[0] == Start(files, clock))
    && forall i :: 0 <= i < |inputs| ==> Enabled(ws[i], inputs[i]) && ws[i + 1] == Step(parse, ws[i], inputs[i])
  }

  // ---------------------------------------------------------------- what every step keeps

  function Pending(flights: seq<Flight>, k: Key): set<FlightId> {
    set f | 0 <= f < |flights| && flights[f].key == k && !flights[f].signalled
  }

  ghost predicate Shaped(trace: seq<Moment>, flights: seq<Flight>, log: seq<FlightLog>, calls: seq<Call>) {
    && |trace| > 0
    && |log| == |flights|
    && (forall c :: 0 <= c < |calls| ==>
          && calls[c].start < |trace|
          && calls[c].phase.flight < |flights|
          && flights[calls[c].phase.flight].key == calls[c].key)
    && (forall f :: 0 <= f < |log| ==> log[f].begun <= log[f].read <= log[f].ended < |trace|)
  }

  /** `_live` counts the unfinished fetches of each key; generations exist only for such keys. */
  ghost predicate LiveCounts(flights: seq<Flight>, live: map<Key, nat>, generation: map<Key, nat>) {
    && (forall k :: CountAt(live, k) == |Pending(flights, k)|)
    && (forall k :: k in live ==> live[k] > 0)
    && generation.Keys <= live.Keys
  }

  /** The generation gained since an unfinished fetch registered is the epoch gained since then. */
  ghost predicate TracksEpoch(trace: seq<Moment>, flights: seq<Flight>, log: seq<FlightLog>, generation: map<Key, nat>) {
    forall f :: 0 <= f < |flights| && f < |log| && !flights[f].signalled && log[f].begun < |trace| ==>
      CountAt(generation, flights[f].key) - flights[f].generation
      == Epoch(trace, flights[f].key, |trace| - 1) - Epoch(trace, flights[f].key, log[f].begun)
  }

  ghost predicate IsCurrent(flights: seq<Flight>, generation: map<Key, nat>, f: FlightId)
    requires f < |flights|
  {
    !flights[f].signalled && flights[f].generation == CountAt(generation, flights[f].key)
  }

  /** The in-flight table holds only unfinished fetches, among them every one of a current generation. */
  ghost predicate TableCurrent(flights: seq<Flight>, inFlight: map<Key, FlightId>, generation: map<Key, nat>) {
    && (forall k :: k in inFlight ==>
          inFlight[k] < |flights| && flights[inFlight[k]].key == k && !flights[inFlight[k]].signalled)
    && (forall f :: 0 <= f < |flights| && IsCurrent(flights, generation, f) ==>
          flights[f].key in inFlight && inFlight[flights[f].key] == f)
  }

  ghost predicate Rivals(flights: seq<Flight>, f: FlightId, g: FlightId)
    requires f < |flights| && g < |flights|
  {
    !flights[f].signalled && !flights[g].signalled && flights[f].key == flights[g].key
  }

  /** A generation has at most one unfinished fetch. */
  ghost predicate OnePerGeneration(flights: seq<Flight>) {
    forall f, g :: 0 <= f < g < |flights| && Rivals(flights, f, g) ==> flights[f].generation != flights[g].generation
  }

  /** Generations only grow while a fetch is unfinished. */
  ghost predicate NoneAhead(flights: seq<Flight>, generation: map<Key, nat>) {
    forall f :: 0 <= f < |flights| && !flights[f].signalled ==> flights[f].generation <= CountAt(generation, flights[f].key)
  }

  /** What the waiters of a fetch see when its leader ended with `outcome`. */
  function PassedOn(outcome: Outcome): Outcome {
    if outcome == Raised(Aborted) then Raised(Cancelled) else outcome
  }

  /** A finished fetch is signalled and holds what it passes on; an unfinished one holds nothing yet. */
  ghost predicate SignalsOutcome(flights: seq<Flight>, log: seq<FlightLog>) {
    forall f :: 0 <= f < |flights| && f < |log| ==>
      match log[f].outcome
      case None => !flights[f].signalled && flights[f].result == None && flights[f].error == None
      case Some(outcome) => flights[f].signalled && flights[f].Shared() == PassedOn(outcome)
  }

  /** An unfinished fetch has its leader suspended in it; a finished one gave its leader its outcome. */
  ghost predicate Leaders(log: seq<FlightLog>, calls: seq<Call>) {
    && (forall c :: 0 <= c < |calls| && calls[c].phase.Leading? && calls[c].phase.flight < |log| ==>
          log[calls[c].phase.flight].leader == c)
    && (forall f :: 0 <= f < |log| ==> log[f].leader < |calls| && LedBy(log[f], calls[log[f].leader], f))
  }

  ghost predicate LedBy(log: FlightLog, leader: Call, f: FlightId) {
    && leader.start == log.begun
    && leader.phase == match log.outcome
                       case None => Leading(f)
                       case Some(outcome) => Done(Led, f, log.ended, outcome)
  }

  /** The outcome tells what the file contained, rather than that it could not be read. */
  predicate TellsContent(outcome: Outcome) {
    outcome.Returned? || outcome.error.ConfigInvalid?
  }

  function OutcomeFor(parse: Raw -> Parsed, file: Option<Raw>): Outcome {
    match file
    case None => Returned(None)
    case Some(raw) =>
      match parse(raw)
      case Parsed(config) => Returned(Some(config))
      case Malformed(detail) => Raised(ConfigInvalid(detail))
  }

  /** An outcome that tells content is the one for the file at the moment the response shows. */
  ghost predicate Faithful(parse: Raw -> Parsed, trace: seq<Moment>, flights: seq<Flight>, log: seq<FlightLog>) {
    forall f :: 0 <= f < |flights| && f < |log| && log[f].outcome.Some? && TellsContent(log[f].outcome.value) ==>
      log[f].read < |trace| && log[f].outcome.value == OutcomeFor(parse, FileAt(trace, log[f].read, flights[f].key))
  }

  /** Callers join, and are answered by, only fetches begun after their key's last invalidation. */
  ghost predicate Served(trace: seq<Moment>, log: seq<FlightLog>, calls: seq<Call>) {
    forall c :: 0 <= c < |calls| && calls[c].phase.flight < |log| ==>
      ServedBy(trace, log[calls[c].phase.flight], calls[c])
  }

  ghost predicate ServedBy(trace: seq<Moment>, log: FlightLog, call: Call) {
    && log.begun <= call.start < |trace|
    && Quiet(trace, call.key, log.begun, call.start)
    && (call.phase.Done? ==>
          && log.outcome.Some?
          && call.start <= call.phase.end < |trace|
          && log.ended <= call.phase.end
          && match call.phase.how
             case Led => log.outcome == Some(call.phase.outcome)
             case Joined => call.phase.outcome == PassedOn(log.outcome.value)
             case FromCache =>
               && call.start == call.phase.end
               && log.outcome == Some(call.phase.outcome)
               && TellsContent(call.phase.outcome)
               && trace[call.phase.end].clock < trace[log.ended].clock + TtlOf(call.phase.outcome))
  }

  function TtlOf(outcome: Outcome): real {
    if outcome.Returned? && outcome.config.Some? then CACHE_TTL else NEGATIVE_CACHE_TTL
  }

  /** Every cached entry comes from a fetch begun after its key's last invalidation. */
  ghost predicate CacheCurrent(trace: seq<Moment>, flights: seq<Flight>, log: seq<FlightLog>,
                               cached: map<Key, Entry>, origin: map<Key, FlightId>)
  {
    forall k :: k in cached ==>
      && k in origin
      && origin[k] < |log|
      && origin[k] < |flights|
      && flights[origin[k]].key == k
      && StoredBy(trace, log[origin[k]], k, cached[k])
  }

  ghost predicate StoredBy(trace: seq<Moment>, log: FlightLog, k: Key, entry: Entry) {
    && log.ended < |trace|
    && Quiet(trace, k, log.begun, |trace| - 1)
    && log.outcome == Some(entry.Served())
    && TellsContent(entry.Served())
    && entry.expiresAt == trace[log.ended].clock + TtlOf(entry.Served())
  }

  ghost predicate Bounded(cache: OrderedDict<Key, Entry>) {
    cache.Valid() && |cache.keys| <= MAX_CACHE_ENTRIES
  }

  /** The cache lists its keys from least to most recently stored or read. */
  ghost predicate LeastRecentFirst(keys: seq<Key>, usedAt: map<Key, nat>, now: nat) {
    && Ascending(keys, usedAt)
    && forall k :: k in keys ==> k in usedAt && usedAt[k] < now
  }

  function CallsServed(calls: seq<Call>, how: How): set<CallId> {
    set c | 0 <= c < |calls| && calls[c].phase.Done? && calls[c].phase.how == how
  }

  function CallsLeading(calls: seq<Call>): set<CallId> {
    set c | 0 <= c < |calls| && calls[c].phase.Leading?
  }

  ghost predicate Counters(calls: seq<Call>, hits: nat, misses: nat, coalesced: nat) {
    && hits == |CallsServed(calls, FromCache)|
    && misses == |CallsServed(calls, Led)| + |CallsLeading(calls)|
    && coalesced == |CallsServed(calls, Joined)|
  }

  ghost predicate FlightsOk(l: Loader) {
    && LiveCounts(l.flights, l.live, l.generation)
    && TableCurrent(l.flights, l.inFlight, l.generation)
    && OnePerGeneration(l.flights)
    && NoneAhead(l.flights, l.generation)
  }

  ghost predicate Inv(parse: Raw -> Parsed, w: World) {
    && Shaped(w.trace, w.loader.flights, w.log, w.calls)
    && FlightsOk(w.loader)
    && TracksEpoch(w.trace, w.loader.flights, w.log, w.loader.generation)
    && SignalsOutcome(w.loader.flights, w.log)
    && Leaders(w.log, w.calls)
    && Faithful(parse, w.trace, w.loader.flights, w.log)
    && Served(w.trace, w.log, w.calls)
    && Bounded(w.loader.cache)
    && CacheCurrent(w.trace, w.loader.flights, w.log, w.loader.cache.values, w.origin)
    && LeastRecentFirst(w.loader.cache.keys, w.usedAt, |w.trace|)
    && Counters(w.calls, w.loader.hits, w.loader.misses, w.loader.coalesced)
  }

  // ---------------------------------------------------------------- the history grows at its end

  lemma {:induction false} EpochGrows(trace: seq<Moment>, m: Moment, k: Key, i: nat)
    requires i < |trace|
    ensures Epoch(trace + [m], k, i) == Epoch(trace, k, i)
  {
    if i > 0 { EpochGrows(trace, m, k, i - 1); }
  }

  /** The epoch stands still exactly when nothing touched the key. */
  lemma {:induction false} EpochQuiet(trace: seq<Moment>, k: Key, i: nat, j: nat)
    requires i <= j < |trace|
    ensures Epoch(trace, k, i) <= Epoch(trace, k, j)
    ensures Epoch(trace, k, i) == Epoch(trace, k, j) <==> Quiet(trace, k, i, j)
  {
    if i < j {
      EpochQuiet(trace, k, i, j - 1);
    }
  }

  lemma EpochFollows(trace: seq<Moment>, m: Moment, flights: seq<Flight>, log: seq<FlightLog>,
                     generation: map<Key, nat>, generation': map<Key, nat>)
    requires |trace| > 0 && |log| == |flights|
    requires TracksEpoch(trace, flights, log, generation)
    requires forall f :: 0 <= f < |log| ==> log[f].begun < |trace|
    requires forall f :: 0 <= f < |flights| && !flights[f].signalled ==>
      CountAt(generation', flights[f].key) == CountAt(generation, flights[f].key) + if Touches(m, flights[f].key) then 1 else 0
    ensures TracksEpoch(trace + [m], flights, log, generation')
  {
    forall f | 0 <= f < |flights| && !flights[f].signalled
      ensures CountAt(generation', flights[f].key) - flights[f].generation
        == Epoch(trace + [m], flights[f].key, |trace|) - Epoch(trace + [m], flights[f].key, log[f].begun)
    {
      EpochGrows(trace, m, flights[f].key, log[f].begun);
      EpochGrows(trace, m, flights[f].key, |trace| - 1);
    }
  }

  lemma ServedGrows(trace: seq<Moment>, m: Moment, log: seq<FlightLog>, calls: seq<Call>)
    requires Served(trace, log, calls)
    ensures Served(trace + [m], log, calls)
  {
    forall c | 0 <= c < |calls| && calls[c].phase.flight < |log|
      ensures ServedBy(trace + [m], log[calls[c].phase.flight], calls[c])
    {
      assert ServedBy(trace, log[calls[c].phase.flight], calls[c]);
    }
  }

  lemma FaithfulGrows(parse: Raw -> Parsed, trace: seq<Moment>, m: Moment, flights: seq<Flight>, log: seq<FlightLog>)
    requires Faithful(parse, trace, flights, log)
    ensures Faithful(parse, trace + [m], flights, log)
  {
  }

  lemma CacheGrows(trace: seq<Moment>, m: Moment, flights: seq<Flight>, log: seq<FlightLog>,
                   cached: map<Key, Entry>, cached': map<Key, Entry>, origin: map<Key, FlightId>)
    requires CacheCurrent(trace, flights, log, cached, origin)
    requires forall k :: k in cached' ==> k in cached && cached'[k] == cached[k] && !Touches(m, k)
    ensures CacheCurrent(trace + [m], flights, log, cached', origin)
  {
    forall k | k in cached' ensures StoredBy(trace + [m], log[origin[k]], k, cached'[k]) {
      assert StoredBy(trace, log[origin[k]], k, cached[k]);
    }
  }

  // ---------------------------------------------------------------- steps that leave the fetches alone

  lemma PendingLive(l: Loader, f: FlightId)
    requires FlightsOk(l) && f < |l.flights| && !l.flights[f].signalled
    ensures l.flights[f].key in l.live && l.live[l.flights[f].key] > 0
  {
    hide OnePerGeneration, NoneAhead, TableCurrent;
    assert f in Pending(l.flights, l.flights[f].key);
  }

  /** New generations keep the flight bookkeeping when those of the live keys never go back. */
  lemma GenerationsMoveOn(l: Loader, generation: map<Key, nat>)
    requires FlightsOk(l)
    requires generation.Keys <= l.live.Keys
    requires forall k :: k in l.live ==> CountAt(generation, k) >= CountAt(l.generation, k)
    ensures FlightsOk(l.(generation := generation))
  {
    hide OnePerGeneration;
    forall f | 0 <= f < |l.flights| && !l.flights[f].signalled ensures l.flights[f].key in l.live {
      PendingLive(l, f);
    }
    forall f | 0 <= f < |l.flights| && IsCurrent(l.flights, generation, f) ensures IsCurrent(l.flights, l.generation, f) {
    }
  }

  lemma InvalidateFlights(l: Loader, k: Key)
    requires FlightsOk(l)
    ensures FlightsOk(Invalidate(l, k))
    ensures forall f :: 0 <= f < |l.flights| && !l.flights[f].signalled ==>
      CountAt(Invalidate(l, k).generation, l.flights[f].key)
      == CountAt(l.generation, l.flights[f].key) + if l.flights[f].key == k then 1 else 0
  {
    hide OnePerGeneration, NoneAhead, TableCurrent;
    assert forall k' :: k' in l.live ==> l.live[k'] > 0;
    GenerationsMoveOn(l, Invalidate(l, k).generation);
    FlightsIgnoreCache(l.(generation := Invalidate(l, k).generation), Invalidate(l, k));
    forall f | 0 <= f < |l.flights| && !l.flights[f].signalled ensures l.flights[f].key in l.live { PendingLive(l, f); }
  }

  lemma ClearFlights(l: Loader)
    requires FlightsOk(l)
    ensures FlightsOk(Clear(l))
    ensures forall f :: 0 <= f < |l.flights| && !l.flights[f].signalled ==>
      CountAt(Clear(l).generation, l.flights[f].key) == CountAt(l.generation, l.flights[f].key) + 1
  {
    hide OnePerGeneration, NoneAhead, TableCurrent;
    assert forall k' :: k' in l.live ==> l.live[k'] > 0;
    GenerationsMoveOn(l, Clear(l).generation);
    FlightsIgnoreCache(l.(generation := Clear(l).generation), Clear(l));
    forall f | 0 <= f < |l.flights| && !l.flights[f].signalled ensures l.flights[f].key in l.live { PendingLive(l, f); }
  }

  lemma FlightsIgnoreCache(l: Loader, l': Loader)
    requires FlightsOk(l)
    requires l'.flights == l.flights && l'.inFlight == l.inFlight && l'.live == l.live && l'.generation == l.generation
    ensures FlightsOk(l')
  {
    hide OnePerGeneration, NoneAhead, TableCurrent, LiveCounts;
  }

  lemma ElsewhereKeeps(parse: Raw -> Parsed, w: World, input: Input)
    requires Inv(parse, w) && Enabled(w, input) && input.event.Elsewhere?
    ensures Inv(parse, Step(parse, w, input))
  {
    hide Served, Faithful, CacheCurrent, TracksEpoch, SignalsOutcome, Leaders, Counters, FlightsOk, Ascending, Epoch, LoadStep, FetchStep, WakeStep, CancelStep, Invalidate, Clear;
    var m := Moment(input.files, TouchOf(input.event), input.clock);
    EpochFollows(w.trace, m, w.loader.flights, w.log, w.loader.generation, w.loader.generation);
    ServedGrows(w.trace, m, w.log, w.calls);
    FaithfulGrows(parse, w.trace, m, w.loader.flights, w.log);
    CacheGrows(w.trace, m, w.loader.flights, w.log, w.loader.cache.values, w.loader.cache.values, w.origin);
  }

  lemma InvalidatesKeeps(parse: Raw -> Parsed, w: World, input: Input)
    requires Inv(parse, w) && Enabled(w, input) && input.event.Invalidates?
    ensures Inv(parse, Step(parse, w, input))
  {
    hide Served, Faithful, CacheCurrent, TracksEpoch, SignalsOutcome, Leaders, Counters, FlightsOk, Ascending, Epoch, CountAt, LoadStep, FetchStep, WakeStep, CancelStep, Clear;
    var k, l := input.event.key, w.loader;
    var m := Moment(input.files, TouchOf(input.event), input.clock);
    var l' := Invalidate(l, k);
    InvalidateFlights(l, k);
    EpochFollows(w.trace, m, l.flights, w.log, l.generation, l'.generation);
    ServedGrows(w.trace, m, w.log, w.calls);
    FaithfulGrows(parse, w.trace, m, l.flights, w.log);
    CacheGrows(w.trace, m, l.flights, w.log, l.cache.values, l'.cache.values, w.origin);
    Popped(l.cache, k);
    AscendingWithout(l.cache.keys, w.usedAt, k);
  }

  lemma ClearsKeeps(parse: Raw -> Parsed, w: World, input: Input)
    requires Inv(parse, w) && Enabled(w, input) && input.event.Clears?
    ensures Inv(parse, Step(parse, w, input))
  {
    hide Served, Faithful, CacheCurrent, TracksEpoch, SignalsOutcome, Leaders, Counters, FlightsOk, Epoch, CountAt, LoadStep, FetchStep, WakeStep, CancelStep, Invalidate;
    var l, l' := w.loader, Clear(w.loader);
    var m := Moment(input.files, TouchOf(input.event), input.clock);
    ClearFlights(l);
    EpochFollows(w.trace, m, l.flights, w.log, l.generation, l'.generation);
    ServedGrows(w.trace, m, w.log, w.calls);
    FaithfulGrows(parse, w.trace, m, l.flights, w.log);
    CacheGrows(w.trace, m, l.flights, w.log, l.cache.values, l'.cache.values, w.origin);
  }

  // ---------------------------------------------------------------- steps of one caller

  lemma ServedJoins(calls: seq<Call>, call: Call, how: How)
    ensures CallsServed(calls + [call], how)
      == CallsServed(calls, how) + if call.phase.Done? && call.phase.how == how then {|calls|} else {}
    ensures |CallsServed(calls + [call], how)|
      == |CallsServed(calls, how)| + if call.phase.Done? && call.phase.how == how then 1 else 0
  {
    var old', new' := CallsServed(calls, how), CallsServed(calls + [call], how);
    assert forall c :: 0 <= c < |calls| ==> (calls + [call])[c] == calls[c];
    assert forall c :: c in new' <==> c in old' || (c == |calls| && call.phase.Done? && call.phase.how == how);
  }

  lemma LeadingJoins(calls: seq<Call>, call: Call)
    ensures |CallsLeading(calls + [call])| == |CallsLeading(calls)| + if call.phase.Leading? then 1 else 0
  {
    var old', new' := CallsLeading(calls), CallsLeading(calls + [call]);
    assert forall c :: 0 <= c < |calls| ==> (calls + [call])[c] == calls[c];
    assert new' == old' + if call.phase.Leading? then {|calls|} else {};
  }

  lemma CallJoins(calls: seq<Call>, call: Call, hits: nat, misses: nat, coalesced: nat)
    requires Counters(calls, hits, misses, coalesced)
    ensures Counters(calls + [call],
                     hits + if call.phase.Done? && call.phase.how == FromCache then 1 else 0,
                     misses + if call.phase.Leading? || (call.phase.Done? && call.phase.how == Led) then 1 else 0,
                     coalesced + if call.phase.Done? && call.phase.how == Joined then 1 else 0)
  {
    hide CallsServed, CallsLeading;
    ServedJoins(calls, call, FromCache);
    ServedJoins(calls, call, Led);
    ServedJoins(calls, call, Joined);
    LeadingJoins(calls, call);
  }

  lemma ServedMoves(calls: seq<Call>, c: CallId, phase: Phase, how: How)
    requires c < |calls| && !calls[c].phase.Done?
    ensures |CallsServed(calls[c := calls[c].(phase := phase)], how)|
      == |CallsServed(calls, how)| + if phase.Done? && phase.how == how then 1 else 0
  {
    var calls' := calls[c := calls[c].(phase := phase)];
    var old', new' := CallsServed(calls, how), CallsServed(calls', how);
    assert forall b :: 0 <= b < |calls| && b != c ==> calls'[b] == calls[b];
    assert new' == old' + if phase.Done? && phase.how == how then {c} else {};
  }

  /** A caller that stops leading or waiting moves between the groups that the counters count. */
  lemma CallMoves(calls: seq<Call>, c: CallId, phase: Phase, hits: nat, misses: nat, coalesced: nat)
    requires Counters(calls, hits, misses, coalesced)
    requires c < |calls| && (calls[c].phase.Leading? || calls[c].phase.Waiting?)
    requires calls[c].phase.Leading? ==> phase.Done? && phase.how == Led
    requires calls[c].phase.Waiting? ==> phase.Abandoned? || (phase.Done? && phase.how == Joined)
    ensures Counters(calls[c := calls[c].(phase := phase)], hits, misses,
                     coalesced + if phase.Done? && phase.how == Joined then 1 else 0)
  {
    hide CallsServed;
    var calls' := calls[c := calls[c].(phase := phase)];
    ServedMoves(calls, c, phase, FromCache);
    ServedMoves(calls, c, phase, Led);
    ServedMoves(calls, c, phase, Joined);
    assert forall b :: 0 <= b < |calls| && b != c ==> calls'[b] == calls[b];
    assert CallsLeading(calls') == CallsLeading(calls) - {c};
  }

  /** A new caller that does not lead a fetch. */
  lemma CallerArrives(trace: seq<Moment>, flights: seq<Flight>, log: seq<FlightLog>, calls: seq<Call>, call: Call)
    requires Shaped(trace, flights, log, calls) && Leaders(log, calls) && Served(trace, log, calls)
    requires call.phase.flight < |log| && flights[call.phase.flight].key == call.key && !call.phase.Leading?
    requires ServedBy(trace, log[call.phase.flight], call)
    ensures Shaped(trace, flights, log, calls + [call]) && Leaders(log, calls + [call])
    ensures Served(trace, log, calls + [call])
  {
    hide LedBy, Quiet;
  }

  /** A suspended caller other than a leader goes on. */
  lemma CallerMoves(trace: seq<Moment>, flights: seq<Flight>, log: seq<FlightLog>, calls: seq<Call>,
                    c: CallId, phase: Phase)
    requires Shaped(trace, flights, log, calls) && Leaders(log, calls) && Served(trace, log, calls)
    requires c < |calls| && calls[c].phase.Waiting? && !phase.Leading? && phase.flight == calls[c].phase.flight
    requires ServedBy(trace, log[phase.flight], calls[c].(phase := phase))
    ensures Shaped(trace, flights, log, calls[c := calls[c].(phase := phase)])
    ensures Leaders(log, calls[c := calls[c].(phase := phase)])
    ensures Served(trace, log, calls[c := calls[c].(phase := phase)])
  {
    hide ServedBy;
    forall f | 0 <= f < |log| ensures log[f].leader != c {
      assert LedBy(log[f], calls[log[f].leader], f);
    }
  }

  lemma CachedServes(trace: seq<Moment>, flights: seq<Flight>, log: seq<FlightLog>,
                     cached: map<Key, Entry>, origin: map<Key, FlightId>, k: Key)
    requires CacheCurrent(trace, flights, log, cached, origin) && |trace| > 0 && |log| == |flights|
    requires forall f :: 0 <= f < |log| ==> log[f].begun <= log[f].read <= log[f].ended < |trace|
    requires k in cached && cached[k].Fresh(trace[|trace| - 1].clock)
    ensures k in origin && origin[k] < |log| && flights[origin[k]].key == k
    ensures var here := |trace| - 1;
      ServedBy(trace, log[origin[k]], Call(k, here, Done(FromCache, origin[k], here, cached[k].Served())))
  {
    assert StoredBy(trace, log[origin[k]], k, cached[k]);
  }

  lemma HitKeepsCache(cache: OrderedDict<Key, Entry>, k: Key, usedAt: map<Key, nat>, n: nat)
    requires Bounded(cache) && LeastRecentFirst(cache.keys, usedAt, n) && k in cache.values
    ensures Bounded(cache.MoveToEnd(k)) && LeastRecentFirst(cache.MoveToEnd(k).keys, usedAt[k := n], n + 1)
  {
    hide Ascending;
    Moved(cache, k);
    AscendingMoved(cache.keys, usedAt, k, n);
  }

  lemma LoadHitKeeps(parse: Raw -> Parsed, w: World, input: Input)
    requires Inv(parse, w) && Enabled(w, input) && input.event.Load?
    requires BeginLoad(w.loader, input.event.key, w.trace[|w.trace| - 1].clock).1.Hit?
    ensures Inv(parse, Step(parse, w, input))
  {
    hide Faithful, TracksEpoch, SignalsOutcome, Counters, FlightsOk, Ascending, Epoch, Leaders, Served, Quiet, CacheCurrent, ServedBy, FetchStep, WakeStep, CancelStep, Invalidate, Clear, Bounded, LeastRecentFirst;
    var k, l, here := input.event.key, w.loader, |w.trace| - 1;
    var m := Moment(input.files, TouchOf(input.event), input.clock);
    var w' := Step(parse, w, input);
    EpochFollows(w.trace, m, l.flights, w.log, l.generation, l.generation);
    FaithfulGrows(parse, w.trace, m, l.flights, w.log);
    CacheGrows(w.trace, m, l.flights, w.log, l.cache.values, l.cache.values, w.origin);
    FlightsIgnoreCache(l, w'.loader);
    HitKeepsCache(l.cache, k, w.usedAt, here + 1);
    CachedServes(w.trace, l.flights, w.log, l.cache.values, w.origin, k);
    var call := w'.calls[|w.calls|];
    CallJoins(w.calls, call, l.hits, l.misses, l.coalesced);
    CallerArrives(w.trace, l.flights, w.log, w.calls, call);
    ServedGrows(w.trace, m, w.log, w'.calls);
  }

  lemma CurrentIsQuiet(w: World, f: FlightId)
    requires Shaped(w.trace, w.loader.flights, w.log, w.calls)
    requires TracksEpoch(w.trace, w.loader.flights, w.log, w.loader.generation)
    requires f < |w.loader.flights| && !w.loader.flights[f].signalled
    ensures CountAt(w.loader.generation, w.loader.flights[f].key) == w.loader.flights[f].generation
      <==> Quiet(w.trace, w.loader.flights[f].key, w.log[f].begun, |w.trace| - 1)
  {
    hide Quiet;
    EpochQuiet(w.trace, w.loader.flights[f].key, w.log[f].begun, |w.trace| - 1);
  }

  lemma LoadJoinKeeps(parse: Raw -> Parsed, w: World, input: Input)
    requires Inv(parse, w) && Enabled(w, input) && input.event.Load?
    requires BeginLoad(w.loader, input.event.key, w.trace[|w.trace| - 1].clock).1.Join?
    ensures Inv(parse, Step(parse, w, input))
  {
    hide Faithful, CacheCurrent, TracksEpoch, SignalsOutcome, Counters, Ascending, Epoch, LiveCounts, OnePerGeneration, NoneAhead, Leaders, Served, Quiet, IsCurrent, FetchStep, WakeStep, CancelStep, Invalidate, Clear;
    var k, l, here := input.event.key, w.loader, |w.trace| - 1;
    var m := Moment(input.files, TouchOf(input.event), input.clock);
    var w' := Step(parse, w, input);
    EpochFollows(w.trace, m, l.flights, w.log, l.generation, l.generation);
    FaithfulGrows(parse, w.trace, m, l.flights, w.log);
    CacheGrows(w.trace, m, l.flights, w.log, l.cache.values, l.cache.values, w.origin);
    var call := w'.calls[|w.calls|];
    CallJoins(w.calls, call, l.hits, l.misses, l.coalesced);
    CurrentIsQuiet(w, l.inFlight[k]);
    assert ServedBy(w.trace, w.log[l.inFlight[k]], call);
    CallerArrives(w.trace, l.flights, w.log, w.calls, call);
    ServedGrows(w.trace, m, w.log, w'.calls);
  }

  lemma LeadFlights(l: Loader, k: Key, now: real)
    requires FlightsOk(l) && BeginLoad(l, k, now).1.Lead?
    ensures FlightsOk(BeginLoad(l, k, now).0)
  {
    var l' := BeginLoad(l, k, now).0;
    var flight := Flight(k, CountAt(l.generation, k), false, None, None);
    LeadLive(l, k, flight);
    assert forall g :: 0 <= g < |l.flights| && l.flights[g].key == k ==> !IsCurrent(l.flights, l.generation, g);
    LeadTable(l, k, flight);
    LeadAlone(l, flight);
    assert l'.flights == l.flights + [flight];
    hide LiveCounts, TableCurrent, OnePerGeneration;
  }

  lemma PendingLead(flights: seq<Flight>, flight: Flight, k: Key)
    requires !flight.signalled
    ensures Pending(flights + [flight], k) == Pending(flights, k) + if flight.key == k then {|flights|} else {}
    ensures |Pending(flights + [flight], k)| == |Pending(flights, k)| + if flight.key == k then 1 else 0
  {
    assert forall g :: 0 <= g < |flights| ==> (flights + [flight])[g] == flights[g];
    assert Pending(flights + [flight], k) == Pending(flights, k) + if flight.key == k then {|flights|} else {};
  }

  lemma LeadLive(l: Loader, k: Key, flight: Flight)
    requires LiveCounts(l.flights, l.live, l.generation) && flight.key == k && !flight.signalled
    ensures LiveCounts(l.flights + [flight], l.live[k := CountAt(l.live, k) + 1], l.generation)
  {
    hide Pending;
    forall k' ensures |Pending(l.flights + [flight], k')| == |Pending(l.flights, k')| + if k' == k then 1 else 0 {
      PendingLead(l.flights, flight, k');
    }
  }

  lemma LeadTable(l: Loader, k: Key, flight: Flight)
    requires TableCurrent(l.flights, l.inFlight, l.generation) && flight.key == k && !flight.signalled
    requires forall g :: 0 <= g < |l.flights| && l.flights[g].key == k ==> !IsCurrent(l.flights, l.generation, g)
    ensures TableCurrent(l.flights + [flight], l.inFlight[k := |l.flights|], l.generation)
  {
    var flights' := l.flights + [flight];
    forall g | 0 <= g < |l.flights| && IsCurrent(flights', l.generation, g) ensures IsCurrent(l.flights, l.generation, g) {
    }
  }

  lemma LeadAlone(l: Loader, flight: Flight)
    requires OnePerGeneration(l.flights)
    requires flight.generation == CountAt(l.generation, flight.key)
    requires forall g :: 0 <= g < |l.flights| && l.flights[g].key == flight.key ==> !IsCurrent(l.flights, l.generation, g)
    ensures OnePerGeneration(l.flights + [flight])
  {
    var flights' := l.flights + [flight];
    forall g, h | 0 <= g < h < |flights'| && Rivals(flights', g, h)
      ensures flights'[g].generation != flights'[h].generation
    {
      if h < |l.flights| {
        assert Rivals(l.flights, g, h);
      } else {
        assert !IsCurrent(l.flights, l.generation, g);
      }
    }
  }

  /** A caller that starts a fetch of its own. */
  lemma LeaderArrives(parse: Raw -> Parsed, trace: seq<Moment>, flights: seq<Flight>, log: seq<FlightLog>,
                      calls: seq<Call>, k: Key, generation: nat)
    requires Shaped(trace, flights, log, calls) && Leaders(log, calls) && Served(trace, log, calls)
    requires SignalsOutcome(flights, log) && Faithful(parse, trace, flights, log)
    ensures var here := |trace| - 1;
      var flights' := flights + [Flight(k, generation, false, None, None)];
      var log' := log + [FlightLog(|calls|, here, here, here, None)];
      var calls' := calls + [Call(k, here, Leading(|flights|))];
      && Shaped(trace, flights', log', calls') && Leaders(log', calls') && Served(trace, log', calls')
      && SignalsOutcome(flights', log') && Faithful(parse, trace, flights', log')
  {
    hide Quiet;
    var here := |trace| - 1;
    NoTimeIsQuiet(trace, k, here);
    var log' := log + [FlightLog(|calls|, here, here, here, None)];
    var calls' := calls + [Call(k, here, Leading(|flights|))];
    LeaderIsLed(log, calls, log', calls');
    hide LedBy, Leaders;
    forall c | 0 <= c < |calls'| ensures ServedBy(trace, log'[calls'[c].phase.flight], calls'[c]) {
      if c < |calls| { assert ServedBy(trace, log[calls[c].phase.flight], calls[c]); }
    }
  }

  lemma LeaderIsLed(log: seq<FlightLog>, calls: seq<Call>, log': seq<FlightLog>, calls': seq<Call>)
    requires Leaders(log, calls)
    requires forall c :: 0 <= c < |calls| ==> calls[c].phase.flight < |log|
    requires |log'| == |log| + 1 && |calls'| == |calls| + 1 && log'[..|log|] == log && calls'[..|calls|] == calls
    requires calls'[|calls|].phase == Leading(|log|) && log'[|log|].leader == |calls|
    requires log'[|log|].outcome == None && calls'[|calls|].start == log'[|log|].begun
    ensures Leaders(log', calls')
  {
    assert forall c :: 0 <= c < |calls| ==> calls'[c] == calls[c];
    assert forall f :: 0 <= f < |log| ==> log'[f] == log[f];
  }

  lemma LoadLeadKeeps(parse: Raw -> Parsed, w: World, input: Input)
    requires Inv(parse, w) && Enabled(w, input) && input.event.Load?
    requires BeginLoad(w.loader, input.event.key, w.trace[|w.trace| - 1].clock).1.Lead?
    ensures Inv(parse, Step(parse, w, input))
  {
    hide Counters, FlightsOk, Ascending, Epoch, Quiet, Leaders, Served, SignalsOutcome, Faithful, CacheCurrent, TracksEpoch, FetchStep, WakeStep, CancelStep, Invalidate, Clear, Bounded;
    var k, l, here := input.event.key, w.loader, |w.trace| - 1;
    var m := Moment(input.files, TouchOf(input.event), input.clock);
    var w' := Step(parse, w, input);
    LeadFlights(l, k, w.trace[here].clock);
    FlightsIgnoreCache(BeginLoad(l, k, w.trace[here].clock).0, w'.loader);
    CallJoins(w.calls, w'.calls[|w.calls|], l.hits, l.misses, l.coalesced);
    LeaderArrives(parse, w.trace, l.flights, w.log, w.calls, k, CountAt(l.generation, k));
    LeadEpoch(w, w'.loader.flights, w'.log);
    EpochFollows(w.trace, m, w'.loader.flights, w'.log, l.generation, l.generation);
    FaithfulGrows(parse, w.trace, m, w'.loader.flights, w'.log);
    CacheGrows(w.trace, m, l.flights, w.log, l.cache.values, l.cache.values, w.origin);
    LaterFlights(w, m, w'.loader.flights, w'.log);
    ServedGrows(w.trace, m, w'.log, w'.calls);
  }

  lemma LeadEpoch(w: World, flights: seq<Flight>, log: seq<FlightLog>)
    requires |w.trace| > 0 && |w.log| == |w.loader.flights|
    requires TracksEpoch(w.trace, w.loader.flights, w.log, w.loader.generation)
    requires |flights| == |w.loader.flights| + 1 && flights[..|w.loader.flights|] == w.loader.flights
    requires |log| == |w.log| + 1 && log[..|w.log|] == w.log && log[|w.log|].begun == |w.trace| - 1
    requires flights[|w.log|].generation == CountAt(w.loader.generation, flights[|w.log|].key)
    ensures TracksEpoch(w.trace, flights, log, w.loader.generation)
  {
    hide Epoch, CountAt;
    assert forall f :: 0 <= f < |w.log| ==> flights[f] == w.loader.flights[f] && log[f] == w.log[f];
  }

  lemma NoTimeIsQuiet(trace: seq<Moment>, k: Key, i: nat)
    requires i < |trace|
    ensures Quiet(trace, k, i, i)
  {
  }

  lemma LaterFlights(w: World, m: Moment, flights: seq<Flight>, log: seq<FlightLog>)
    requires |w.log| == |w.loader.flights| && w.loader.flights <= flights && w.log <= log
    requires CacheCurrent(w.trace + [m], w.loader.flights, w.log, w.loader.cache.values, w.origin)
    ensures CacheCurrent(w.trace + [m], flights, log, w.loader.cache.values, w.origin)
  {
    hide StoredBy;
  }

  lemma WakesKeeps(parse: Raw -> Parsed, w: World, input: Input)
    requires Inv(parse, w) && Enabled(w, input) && input.event.Wakes?
    ensures Inv(parse, Step(parse, w, input))
  {
    hide Faithful, CacheCurrent, TracksEpoch, Counters, Ascending, Epoch, FlightsOk, Quiet, LoadStep, FetchStep, CancelStep, Invalidate, Clear;
    var l, here := w.loader, |w.trace| - 1;
    var m := Moment(input.files, TouchOf(input.event), input.clock);
    var w' := Step(parse, w, input);
    var c := input.event.call;
    EpochFollows(w.trace, m, l.flights, w.log, l.generation, l.generation);
    FaithfulGrows(parse, w.trace, m, l.flights, w.log);
    CacheGrows(w.trace, m, l.flights, w.log, l.cache.values, l.cache.values, w.origin);
    FlightsIgnoreCache(l, w'.loader);
    CallMoves(w.calls, c, w'.calls[c].phase, l.hits, l.misses, l.coalesced);
    assert ServedBy(w.trace, w.log[w.calls[c].phase.flight], w.calls[c]);
    assert ServedBy(w.trace, w.log[w.calls[c].phase.flight], w'.calls[c]);
    CallerMoves(w.trace, l.flights, w.log, w.calls, c, w'.calls[c].phase);
    ServedGrows(w.trace, m, w.log, w'.calls);
  }

  lemma CancelsKeeps(parse: Raw -> Parsed, w: World, input: Input)
    requires Inv(parse, w) && Enabled(w, input) && input.event.Cancels?
    ensures Inv(parse, Step(parse, w, input))
  {
    hide Faithful, CacheCurrent, TracksEpoch, Counters, Ascending, Epoch, FlightsOk, Quiet, SignalsOutcome, LoadStep, FetchStep, WakeStep, Invalidate, Clear;
    var l, here := w.loader, |w.trace| - 1;
    var m := Moment(input.files, TouchOf(input.event), input.clock);
    var w' := Step(parse, w, input);
    var c := input.event.call;
    EpochFollows(w.trace, m, l.flights, w.log, l.generation, l.generation);
    FaithfulGrows(parse, w.trace, m, l.flights, w.log);
    CacheGrows(w.trace, m, l.flights, w.log, l.cache.values, l.cache.values, w.origin);
    CallMoves(w.calls, c, w'.calls[c].phase, l.hits, l.misses, l.coalesced);
    assert ServedBy(w.trace, w.log[w.calls[c].phase.flight], w.calls[c]);
    assert ServedBy(w.trace, w.log[w.calls[c].phase.flight], w'.calls[c]);
    CallerMoves(w.trace, l.flights, w.log, w.calls, c, w'.calls[c].phase);
    ServedGrows(w.trace, m, w.log, w'.calls);
  }

  // ---------------------------------------------------------------- the end of a fetch

  lemma PendingEnd(flights: seq<Flight>, f: FlightId, flight: Flight, k: Key)
    requires f < |flights| && !flights[f].signalled && flight.signalled && flight.key == flights[f].key
    ensures Pending(flights[f := flight], k) == Pending(flights, k) - {f}
    ensures |Pending(flights[f := flight], k)| == |Pending(flights, k)| - if flight.key == k then 1 else 0
  {
    var flights' := flights[f := flight];
    assert forall g :: 0 <= g < |flights| && g != f ==> flights'[g] == flights[g];
    assert Pending(flights', k) == Pending(flights, k) - {f};
    assert f in Pending(flights, k) <==> flight.key == k;
  }

  lemma PendingCounts(flights: seq<Flight>, f: FlightId)
    requires f < |flights| && !flights[f].signalled
    ensures |Pending(flights, flights[f].key)| > 0
  {
    assert f in Pending(flights, flights[f].key);
  }

  lemma EndLive(l: Loader, f: FlightId, outcome: Outcome)
    requires LiveCounts(l.flights, l.live, l.generation) && f < |l.flights| && !l.flights[f].signalled
    ensures var l' := FinishFlight(l, f, outcome); LiveCounts(l'.flights, l'.live, l'.generation)
  {
    hide Pending;
    var l', k := FinishFlight(l, f, outcome), l.flights[f].key;
    PendingCounts(l.flights, f);
    forall k' ensures |Pending(l'.flights, k')| == |Pending(l.flights, k')| - if k == k' then 1 else 0 {
      PendingEnd(l.flights, f, l'.flights[f], k');
    }
  }

  /** The generations of the fetches still unfinished are not recycled. */
  lemma EndGenerations(l: Loader, f: FlightId, outcome: Outcome, g: FlightId)
    requires LiveCounts(l.flights, l.live, l.generation) && f < |l.flights| && !l.flights[f].signalled
    requires g < |l.flights| && !FinishFlight(l, f, outcome).flights[g].signalled
    ensures CountAt(FinishFlight(l, f, outcome).generation, l.flights[g].key) == CountAt(l.generation, l.flights[g].key)
  {
    hide Pending;
    EndLive(l, f, outcome);
    PendingCounts(FinishFlight(l, f, outcome).flights, g);
  }

  lemma EndFlights(l: Loader, f: FlightId, outcome: Outcome)
    requires FlightsOk(l) && f < |l.flights| && !l.flights[f].signalled
    ensures FlightsOk(FinishFlight(l, f, outcome))
  {
    hide LiveCounts, CountAt;
    EndLive(l, f, outcome);
    var l' := FinishFlight(l, f, outcome);
    assert l'.flights[f].signalled;
    forall g | 0 <= g < |l.flights| && !l'.flights[g].signalled
      ensures CountAt(l'.generation, l.flights[g].key) == CountAt(l.generation, l.flights[g].key) {
      EndGenerations(l, f, outcome, g);
    }
    EndTable(l, f, l');
    EndRivals(l, f, l');
    hide FinishFlight, TableCurrent, OnePerGeneration;
  }

  lemma EndTable(l: Loader, f: FlightId, l': Loader)
    requires TableCurrent(l.flights, l.inFlight, l.generation) && f < |l.flights|
    requires |l'.flights| == |l.flights| && l'.flights == l.flights[f := l'.flights[f]] && l'.flights[f].signalled
    requires l'.inFlight == if l.flights[f].key in l.inFlight && l.inFlight[l.flights[f].key] == f
                            then l.inFlight - {l.flights[f].key} else l.inFlight
    requires forall g :: 0 <= g < |l.flights| && !l'.flights[g].signalled ==>
      CountAt(l'.generation, l.flights[g].key) == CountAt(l.generation, l.flights[g].key)
    ensures TableCurrent(l'.flights, l'.inFlight, l'.generation)
  {
    hide CountAt;
    forall g | 0 <= g < |l'.flights| && IsCurrent(l'.flights, l'.generation, g)
      ensures g != f && IsCurrent(l.flights, l.generation, g) {
    }
  }

  lemma EndRivals(l: Loader, f: FlightId, l': Loader)
    requires OnePerGeneration(l.flights) && f < |l.flights|
    requires |l'.flights| == |l.flights| && l'.flights == l.flights[f := l'.flights[f]] && l'.flights[f].signalled
    ensures OnePerGeneration(l'.flights)
  {
    forall g, h | 0 <= g < h < |l.flights| && Rivals(l'.flights, g, h)
      ensures l'.flights[g].generation != l'.flights[h].generation
    {
      assert Rivals(l.flights, g, h);
    }
  }

  lemma PutRecent(d: OrderedDict<Key, Entry>, k: Key, v: Entry, rank: map<Key, nat>, now: nat)
    requires d.Valid() && LeastRecentFirst(d.keys, rank, now)
    ensures var moved := d.Put(k, v).MoveToEnd(k);
      moved.Valid() && LeastRecentFirst(moved.keys, rank[k := now], now + 1)
  {
    hide Ascending, Distinct;
    PutMoved(d, k, v);
    AscendingMoved(d.keys, rank, k, now);
  }

  lemma NewestRecent(d: OrderedDict<Key, Entry>, n: nat, rank: map<Key, nat>, now: nat)
    requires d.Valid() && LeastRecentFirst(d.keys, rank, now)
    ensures LeastRecentFirst(d.Newest(n).keys, rank, now)
  {
    hide Ascending, Distinct;
    NewestValid(d, n);
    if |d.keys| > n { AscendingSuffix(d.keys, rank, |d.keys| - n); }
  }

  lemma StoreKeeps(l: Loader, key: Key, config: Option<Config>, detail: Option<Detail>, now: real,
                   usedAt: map<Key, nat>, n: nat)
    requires Bounded(l.cache) && LeastRecentFirst(l.cache.keys, usedAt, n)
    ensures Bounded(Store(l, key, config, detail, now).cache)
    ensures LeastRecentFirst(Store(l, key, config, detail, now).cache.keys, usedAt[key := n], n + 1)
  {
    hide LeastRecentFirst, Distinct;
    var entry := Entry(config, now + if config.Some? then CACHE_TTL else NEGATIVE_CACHE_TTL, detail);
    PutRecent(l.cache, key, entry, usedAt, n);
    NewestValid(l.cache.Put(key, entry).MoveToEnd(key), MAX_CACHE_ENTRIES);
    NewestRecent(l.cache.Put(key, entry).MoveToEnd(key), MAX_CACHE_ENTRIES, usedAt[key := n], n + 1);
  }

  /** What the cache holds after a store: the new entry, and otherwise only entries it held before. */
  lemma StoreHolds(l: Loader, key: Key, config: Option<Config>, detail: Option<Detail>, now: real, k: Key)
    requires Bounded(l.cache)
    ensures var cached := Store(l, key, config, detail, now).cache.values;
      k in cached ==>
        if k == key then cached[k] == Entry(config, now + if config.Some? then CACHE_TTL else NEGATIVE_CACHE_TTL, detail)
        else k in l.cache.values && cached[k] == l.cache.values[k]
  {
    var entry := Entry(config, now + if config.Some? then CACHE_TTL else NEGATIVE_CACHE_TTL, detail);
    PutMoved(l.cache, key, entry);
    NewestValid(l.cache.Put(key, entry).MoveToEnd(key), MAX_CACHE_ENTRIES);
  }

  lemma PublishKeepsFlights(l: Loader, f: FlightId, parse: Raw -> Parsed, reply: Reply, now: real)
    requires f < |l.flights|
    ensures Publish(l, f, parse, reply, now) == l.(cache := Publish(l, f, parse, reply, now).cache)
  {
  }

  /** A store happens exactly when the reply tells content and the fetch is of the current generation. */
  lemma PublishStores(l: Loader, f: FlightId, parse: Raw -> Parsed, reply: Reply, now: real)
    returns (config: Option<Config>, detail: Option<Detail>)
    requires f < |l.flights|
    ensures Publishes(reply) && CountAt(l.generation, l.flights[f].key) == l.flights[f].generation ==>
      && Publish(l, f, parse, reply, now) == Store(l, l.flights[f].key, config, detail, now)
      && Entry(config, 0.0, detail).Served() == Answer(parse, reply)
      && TellsContent(Answer(parse, reply))
      && (detail.Some? ==> config.None?)
    ensures !(Publishes(reply) && CountAt(l.generation, l.flights[f].key) == l.flights[f].generation) ==>
      Publish(l, f, parse, reply, now) == l
  {
    hide Store;
    config, detail := None, None;
    if reply.Content? {
      match parse(reply.raw)
      case Parsed(c) => config := Some(c);
      case Malformed(d) => detail := Some(d);
    }
  }

  /** The loader's invariants about one fetch, for a fetch whose leader is still suspended. */
  lemma LeadingIsPending(w: World, c: CallId)
    requires Shaped(w.trace, w.loader.flights, w.log, w.calls)
    requires SignalsOutcome(w.loader.flights, w.log) && Leaders(w.log, w.calls)
    requires c < |w.calls| && w.calls[c].phase.Leading?
    ensures var f := w.calls[c].phase.flight;
      && w.log[f].leader == c
      && w.log[f].outcome == None
      && w.log[f].begun == w.calls[c].start
      && !w.loader.flights[f].signalled
      && w.loader.flights[f].result == None && w.loader.flights[f].error == None
  {
    var f := w.calls[c].phase.flight;
    assert LedBy(w.log[f], w.calls[w.log[f].leader], f);
  }

  lemma EndedServed(trace: seq<Moment>, flights: seq<Flight>, log: seq<FlightLog>, calls: seq<Call>,
                    c: CallId, at: nat, outcome: Outcome)
    requires Shaped(trace, flights, log, calls) && Served(trace, log, calls)
    requires c < |calls| && calls[c].phase.Leading? && log[calls[c].phase.flight].outcome == None
    ensures var f, here := calls[c].phase.flight, |trace| - 1;
      Served(trace, log[f := log[f].(read := at, ended := here, outcome := Some(outcome))],
             calls[c := calls[c].(phase := Done(Led, f, here, outcome))])
  {
    var f, here := calls[c].phase.flight, |trace| - 1;
    var log' := log[f := log[f].(read := at, ended := here, outcome := Some(outcome))];
    var calls' := calls[c := calls[c].(phase := Done(Led, f, here, outcome))];
    forall b | 0 <= b < |calls'| ensures ServedBy(trace, log'[calls'[b].phase.flight], calls'[b]) {
      assert ServedBy(trace, log[calls[b].phase.flight], calls[b]);
    }
  }

  lemma EndedLeaders(log: seq<FlightLog>, calls: seq<Call>, c: CallId, at: nat, here: nat, outcome: Outcome)
    requires Leaders(log, calls)
    requires c < |calls| && calls[c].phase.Leading? && calls[c].phase.flight < |log|
    ensures var f := calls[c].phase.flight;
      Leaders(log[f := log[f].(read := at, ended := here, outcome := Some(outcome))],
              calls[c := calls[c].(phase := Done(Led, f, here, outcome))])
  {
    var f := calls[c].phase.flight;
    var log' := log[f := log[f].(read := at, ended := here, outcome := Some(outcome))];
    var calls' := calls[c := calls[c].(phase := Done(Led, f, here, outcome))];
    forall g | 0 <= g < |log| ensures LedBy(log'[g], calls'[log'[g].leader], g) {
      assert LedBy(log[g], calls[log[g].leader], g);
    }
  }

  lemma EndedSignals(flights: seq<Flight>, log: seq<FlightLog>, f: FlightId, at: nat, here: nat, outcome: Outcome)
    requires SignalsOutcome(flights, log) && f < |flights| == |log| && log[f].outcome == None
    ensures SignalsOutcome(flights[f := Signalled(flights[f], outcome)],
                           log[f := log[f].(read := at, ended := here, outcome := Some(outcome))])
  {
  }

  lemma EndedFaithful(parse: Raw -> Parsed, trace: seq<Moment>, flights: seq<Flight>, log: seq<FlightLog>,
                      f: FlightId, at: nat, here: nat, reply: Reply)
    requires Faithful(parse, trace, flights, log) && f < |flights| == |log|
    requires at < |trace| && Shows(reply, FileAt(trace, at, flights[f].key))
    ensures Faithful(parse, trace, flights[f := Signalled(flights[f], Answer(parse, reply))],
                     log[f := log[f].(read := at, ended := here, outcome := Some(Answer(parse, reply)))])
  {
  }

  lemma EndedCache(parse: Raw -> Parsed, w: World, f: FlightId, reply: Reply, at: nat, m: Moment)
    requires Shaped(w.trace, w.loader.flights, w.log, w.calls) && Bounded(w.loader.cache)
    requires TracksEpoch(w.trace, w.loader.flights, w.log, w.loader.generation)
    requires CacheCurrent(w.trace, w.loader.flights, w.log, w.loader.cache.values, w.origin)
    requires LeastRecentFirst(w.loader.cache.keys, w.usedAt, |w.trace|)
    requires f < |w.log| && w.log[f].outcome == None && !w.loader.flights[f].signalled && m.touched == Untouched
    ensures var here := |w.trace| - 1;
      var k := w.loader.flights[f].key;
      var cache := Publish(w.loader, f, parse, reply, w.trace[here].clock).cache;
      var stored := Publishes(reply) && CountAt(w.loader.generation, k) == w.loader.flights[f].generation;
      && Bounded(cache)
      && LeastRecentFirst(cache.keys, if stored then w.usedAt[k := here + 1] else w.usedAt, |w.trace| + 1)
      && CacheCurrent(w.trace + [m],
                      w.loader.flights[f := Signalled(w.loader.flights[f], Answer(parse, reply))],
                      w.log[f := w.log[f].(read := at, ended := here, outcome := Some(Answer(parse, reply)))],
                      cache.values, if stored then w.origin[k := f] else w.origin)
  {
    hide Quiet, TracksEpoch, Store, Ascending, Distinct, Answer, Publish, CountAt, Publishes;
    var l, here := w.loader, |w.trace| - 1;
    var k, now := l.flights[f].key, w.trace[here].clock;
    var config, detail := PublishStores(l, f, parse, reply, now);
    var flights' := l.flights[f := Signalled(l.flights[f], Answer(parse, reply))];
    var log' := w.log[f := w.log[f].(read := at, ended := here, outcome := Some(Answer(parse, reply)))];
    CurrentIsQuiet(w, f);
    var stored := Publishes(reply) && CountAt(l.generation, k) == l.flights[f].generation;
    var cache, origin := Publish(l, f, parse, reply, now).cache, if stored then w.origin[k := f] else w.origin;
    if stored { StoreKeeps(l, k, config, detail, now, w.usedAt, |w.trace|); }
    forall j | j in cache.values
      ensures j in origin && origin[j] < |log'| && flights'[origin[j]].key == j
      ensures StoredBy(w.trace + [m], log'[origin[j]], j, cache.values[j])
    {
      if stored { StoreHolds(l, k, config, detail, now, j); }
      if stored && j == k {
        StillQuiet(w.trace, m, k, w.log[f].begun);
      } else {
        assert StoredBy(w.trace, w.log[origin[j]], j, l.cache.values[j]);
        StillQuiet(w.trace, m, j, w.log[origin[j]].begun);
      }
    }
  }

  lemma StillQuiet(trace: seq<Moment>, m: Moment, k: Key, i: nat)
    requires |trace| > 0 && Quiet(trace, k, i, |trace| - 1) && !Touches(m, k)
    ensures Quiet(trace + [m], k, i, |trace|)
  {
  }

  /** A finished flight's log entry tells what its callers are given. */
  lemma FetchedLog(parse: Raw -> Parsed, w: World, input: Input)
    requires Enabled(w, input) && input.event.Fetched? && Shaped(w.trace, w.loader.flights, w.log, w.calls)
    requires FlightsOk(w.loader) && SignalsOutcome(w.loader.flights, w.log) && Leaders(w.log, w.calls)
    requires Faithful(parse, w.trace, w.loader.flights, w.log) && Served(w.trace, w.log, w.calls)
    ensures var w' := Step(parse, w, input);
      && FlightsOk(w'.loader)
      && SignalsOutcome(w'.loader.flights, w'.log)
      && Leaders(w'.log, w'.calls)
      && Faithful(parse, w'.trace, w'.loader.flights, w'.log)
      && Served(w'.trace, w'.log, w'.calls)
  {
    hide Faithful, CacheCurrent, Served, Leaders, SignalsOutcome, Counters, FlightsOk, LeastRecentFirst, TracksEpoch, Quiet, Publish, Answer, Shows, Bounded, LoadStep, WakeStep, CancelStep, Invalidate, Clear;
    var c, reply, at := input.event.call, input.event.reply, input.event.at;
    var l, here, f := w.loader, |w.trace| - 1, w.calls[c].phase.flight;
    var m := Moment(input.files, TouchOf(input.event), input.clock);
    var w', now, outcome := Step(parse, w, input), w.trace[here].clock, Answer(parse, reply);
    LeadingIsPending(w, c);
    PublishKeepsFlights(l, f, parse, reply, now);
    FlightsIgnoreCache(l, Publish(l, f, parse, reply, now));
    EndFlights(Publish(l, f, parse, reply, now), f, outcome);
    EndedSignals(l.flights, w.log, f, at, here, outcome);
    EndedLeaders(w.log, w.calls, c, at, here, outcome);
    EndedFaithful(parse, w.trace, l.flights, w.log, f, at, here, reply);
    FaithfulGrows(parse, w.trace, m, w'.loader.flights, w'.log);
    EndedServed(w.trace, l.flights, w.log, w.calls, c, at, outcome);
    ServedGrows(w.trace, m, w'.log, w'.calls);
  }

  lemma FetchedKeeps(parse: Raw -> Parsed, w: World, input: Input)
    requires Inv(parse, w) && Enabled(w, input) && input.event.Fetched?
    ensures Inv(parse, Step(parse, w, input))
  {
    hide Faithful, CacheCurrent, Served, Leaders, SignalsOutcome, Counters, FlightsOk, LeastRecentFirst, Epoch, Quiet, Publish, Answer, Shows, Bounded, LoadStep, WakeStep, CancelStep, Invalidate, Clear;
    var c, reply, at := input.event.call, input.event.reply, input.event.at;
    var l, here, f := w.loader, |w.trace| - 1, w.calls[c].phase.flight;
    var m := Moment(input.files, TouchOf(input.event), input.clock);
    var w', now, outcome := Step(parse, w, input), w.trace[here].clock, Answer(parse, reply);
    LeadingIsPending(w, c);
    PublishKeepsFlights(l, f, parse, reply, now);
    FetchedLog(parse, w, input);
    EndedCache(parse, w, f, reply, at, m);
    CallMoves(w.calls, c, w'.calls[c].phase, l.hits, l.misses, l.coalesced);
    EndedEpoch(w, f, outcome, w'.loader, w'.log, m);
  }

  lemma EndedEpoch(w: World, f: FlightId, outcome: Outcome, l': Loader, log': seq<FlightLog>, m: Moment)
    requires Shaped(w.trace, w.loader.flights, w.log, w.calls) && FlightsOk(w.loader)
    requires TracksEpoch(w.trace, w.loader.flights, w.log, w.loader.generation)
    requires f < |w.log| && !w.loader.flights[f].signalled && m.touched == Untouched
    requires l'.flights == FinishFlight(w.loader, f, outcome).flights
    requires l'.generation == FinishFlight(w.loader, f, outcome).generation
    requires |log'| == |w.log| && forall g :: 0 <= g < |w.log| ==> log'[g].begun == w.log[g].begun
    ensures TracksEpoch(w.trace + [m], l'.flights, log', l'.generation)
  {
    hide TableCurrent, OnePerGeneration, NoneAhead, Epoch, LiveCounts, CountAt;
    assert l'.flights[f].signalled;
    forall g | 0 <= g < |w.log| && !l'.flights[g].signalled
      ensures CountAt(l'.generation, l'.flights[g].key) == CountAt(w.loader.generation, l'.flights[g].key)
    {
      EndGenerations(w.loader, f, outcome, g);
    }
    EpochFollows(w.trace, m, l'.flights, log', w.loader.generation, l'.generation);
  }
}
