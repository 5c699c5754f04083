/**
 * The per-repository configuration cache: a single-flight, TTL-bounded LRU cache whose
 * fetches are tagged with a per-key generation.
 *
 * The functions describe what each stretch of code between two suspension points does to
 * the loader's fields; class `ConfigLoader` performs the same stretches in place.
 */
module ConfigLoading {
  import opened OrderedDict

  type Key = string
  type Raw = string
  type Detail = string
  type Config(==)

  const CACHE_TTL := 300.0
  const NEGATIVE_CACHE_TTL := 60.0
  const MAX_CACHE_ENTRIES := 512

  /** What parsing and validating a config file's content gives. */
  datatype Parsed = Parsed(config: Config) | Malformed(detail: Detail)

  datatype Error = ConfigInvalid(detail: Detail) | Failed(code: int) | Cancelled | Aborted

  /** How a call of `load` ends. */
  datatype Outcome = Returned(config: Option<Config>) | Raised(error: Error)

  datatype Entry = Entry(config: Option<Config>, expiresAt: real, invalidDetail: Option<Detail>) {
    predicate Fresh(now: real) { now < expiresAt }

    function Served(): Outcome {
      match invalidDetail
      case Some(detail) => Raised(ConfigInvalid(detail))
      case None => Returned(config)
    }
  }

  /** One contents-API request. Its number stands for the identity of the in-flight object. */
  type FlightId = nat
  datatype Flight = Flight(key: Key, generation: nat, signalled: bool, result: Option<Config>, error: Option<Error>) {
    function Shared(): Outcome {
      match error
      case Some(e) => Raised(e)
      case None => Returned(result)
    }
  }

  /** How the contents-API request ends. */
  datatype Reply = Content(raw: Raw) | Nothing | NotFound | Failure(code: int) | Cancellation | Abortion

  datatype Loader = Loader(
    cache: OrderedDict<Key, Entry>,
    inFlight: map<Key, FlightId>,
    flights: seq<Flight>,
    live: map<Key, nat>,
    generation: map<Key, nat>,
    hits: nat,
    misses: nat,
    coalesced: nat)

  const NEW_LOADER := Loader(Empty(), map[], [], map[], map[], 0, 0, 0)

  function CountAt(m: map<Key, nat>, key: Key): nat {
    if key in m then m[key] else 0
  }

  /** What a call of `load` does before its first suspension. */
  datatype Begin = Hit(outcome: Outcome) | Lead(flight: FlightId) | Join(flight: FlightId)

  function BeginLoad(l: Loader, key: Key, now: real): (Loader, Begin) {
    if key in l.cache.values && l.cache.values[key].Fresh(now) then
      (l.(hits := l.hits + 1, cache := l.cache.MoveToEnd(key)), Hit(l.cache.values[key].Served()))
    else
      var generation := CountAt(l.generation, key);
      if key in l.inFlight && l.inFlight[key] < |l.flights| && l.flights[l.inFlight[key]].generation == generation then
        (l, Join(l.inFlight[key]))
      else
        var f := |l.flights|;
        (l.(flights := l.flights + [Flight(key, generation, false, None, None)],
            inFlight := l.inFlight[key := f],
            live := l.live[key := CountAt(l.live, key) + 1],
            misses := l.misses + 1),
         Lead(f))
  }

  function Store(l: Loader, key: Key, config: Option<Config>, invalidDetail: Option<Detail>, now: real): Loader {
    var entry := Entry(config, now + if config.Some? then CACHE_TTL else NEGATIVE_CACHE_TTL, invalidDetail);
    l.(cache := l.cache.Put(key, entry).MoveToEnd(key).Newest(MAX_CACHE_ENTRIES))
  }

  function StoreIfCurrent(l: Loader, key: Key, config: Option<Config>, generation: nat,
                          invalidDetail: Option<Detail>, now: real): Loader
  {
    if CountAt(l.generation, key) == generation then Store(l, key, config, invalidDetail, now) else l
  }

  /** What the leader of a fetch answers, given how the request ended. */
  function Answer(parse: Raw -> Parsed, reply: Reply): Outcome {
    match reply
    case Content(raw) =>
      (match parse(raw)
       case Parsed(config) => Returned(Some(config))
       case Malformed(detail) => Raised(ConfigInvalid(detail)))
    case Nothing => Returned(None)
    case NotFound => Returned(None)
    case Failure(code) => Raised(Failed(code))
    case Cancellation => Raised(Cancelled)
    case Abortion => Raised(Aborted)
  }

  /** The cache part of the end of a fetch. */
  function Publish(l: Loader, f: FlightId, parse: Raw -> Parsed, reply: Reply, now: real): Loader
    requires f < |l.flights|
  {
    var key, generation := l.flights[f].key, l.flights[f].generation;
    match reply
    case Content(raw) =>
      (match parse(raw)
       case Parsed(config) => StoreIfCurrent(l, key, Some(config), generation, None, now)
       case Malformed(detail) => StoreIfCurrent(l, key, None, generation, Some(detail), now))
    case Nothing => StoreIfCurrent(l, key, None, generation, None, now)
    case NotFound => StoreIfCurrent(l, key, None, generation, None, now)
    case _ => l
  }

  /** The flight as its waiters see it: an abort of the leader reaches them as a cancellation. */
  function Signalled(flight: Flight, outcome: Outcome): Flight {
    match outcome
    case Returned(config) => flight.(signalled := true, result := config)
    case Raised(Aborted) => flight.(signalled := true, error := Some(Cancelled))
    case Raised(error) => flight.(signalled := true, error := Some(error))
  }

  function FinishFlight(l: Loader, f: FlightId, outcome: Outcome): Loader
    requires f < |l.flights|
  {
    var key := l.flights[f].key;
    var done := l.(
      flights := l.flights[f := Signalled(l.flights[f], outcome)],
      inFlight := if key in l.inFlight && l.inFlight[key] == f then l.inFlight - {key} else l.inFlight);
    if CountAt(l.live, key) > 1 then
      done.(live := l.live[key := l.live[key] - 1])
    else
      done.(live := l.live - {key}, generation := l.generation - {key})
  }

  function EndFetch(l: Loader, f: FlightId, parse: Raw -> Parsed, reply: Reply, now: real): (Loader, Outcome)
    requires f < |l.flights|
  {
    var outcome := Answer(parse, reply);
    (FinishFlight(Publish(l, f, parse, reply, now), f, outcome), outcome)
  }

  function Wake(l: Loader, f: FlightId): (Loader, Outcome)
    requires f < |l.flights|
  {
    (l.(coalesced := l.coalesced + 1), l.flights[f].Shared())
  }

  function BumpOrForget(generation: map<Key, nat>, live: map<Key, nat>, key: Key): map<Key, nat> {
    if CountAt(live, key) == 0 then generation - {key} else generation[key := CountAt(generation, key) + 1]
  }

  function Invalidate(l: Loader, key: Key): Loader {
    l.(cache := l.cache.Pop(key), generation := BumpOrForget(l.generation, l.live, key))
  }

  function Clear(l: Loader): Loader {
    l.(cache := Empty(),
       generation := map key | key in l.live && l.live[key] > 0 :: CountAt(l.generation, key) + 1)
  }

  /** The loader itself, its fields updated in place. */
  class ConfigLoader {
    const parse: Raw -> Parsed
    var cache: OrderedDict<Key, Entry>
    var inFlight: map<Key, FlightId>
    var flights: seq<Flight>
    var live: map<Key, nat>
    var generation: map<Key, nat>
    var hits: nat
    var misses: nat
    var coalesced: nat

    ghost function State(): Loader
      reads this
    {
      Loader(cache, inFlight, flights, live, generation, hits, misses, coalesced)
    }

    ghost predicate Valid()
      reads this
    {
      && cache.Valid()
      && |cache.keys| <= MAX_CACHE_ENTRIES
      && forall key :: key in inFlight ==> inFlight[key] < |flights|
    }

    constructor (parse: Raw -> Parsed)
      ensures Valid() && State() == NEW_LOADER && this.parse == parse
    {
      this.parse := parse;
      cache := Empty();
      inFlight, flights, live, generation := map[], [], map[], map[];
      hits, misses, coalesced := 0, 0, 0;
    }

    method ReadCache(key: Key, now: real) returns (served: Option<Outcome>)
      requires Valid()
      modifies this
      ensures Valid()
      ensures served.Some? <==> key in old(cache).values && old(cache).values[key].Fresh(now)
      ensures served.None? ==> State() == old(State())
      ensures served.Some? ==>
        && served.value == old(cache).values[key].Served()
        && State() == old(State()).(hits := old(hits) + 1, cache := old(cache).MoveToEnd(key))
    {
      var entry := cache.Get(key);
      if entry.None? || !entry.value.Fresh(now) { return None; }
      hits := hits + 1;
      Moved(cache, key);
      cache := cache.MoveToEnd(key);
      return Some(entry.value.Served());
    }

    /** `load` up to its first suspension. */
    method Begin(key: Key, now: real) returns (begin: Begin)
      requires Valid()
      modifies this
      ensures Valid()
      ensures (State(), begin) == BeginLoad(old(State()), key, now)
    {
      var served := ReadCache(key, now);
      if served.Some? { return Hit(served.value); }
      var current := CountAt(generation, key);
      if key in inFlight && flights[inFlight[key]].generation == current {
        return Join(inFlight[key]);
      }
      var flight := |flights|;
      flights := flights + [Flight(key, current, false, None, None)];
      inFlight := inFlight[key := flight];
      live := live[key := CountAt(live, key) + 1];
      misses := misses + 1;
      return Lead(flight);
    }

    method StoreEntry(key: Key, config: Option<Config>, invalidDetail: Option<Detail>, now: real)
      requires Valid()
      modifies this`cache
      ensures Valid()
      ensures State() == Store(old(State()), key, config, invalidDetail, now)
    {
      var ttl := if config.Some? then CACHE_TTL else NEGATIVE_CACHE_TTL;
      PutMoved(cache, key, Entry(config, now + ttl, invalidDetail));
      cache := cache.Put(key, Entry(config, now + ttl, invalidDetail));
      cache := cache.MoveToEnd(key);
      ghost var kept := cache.Newest(MAX_CACHE_ENTRIES);
      while |cache.keys| > MAX_CACHE_ENTRIES
        invariant cache.Valid()
        invariant cache.Newest(MAX_CACHE_ENTRIES) == kept
      {
        PoppedOldest(cache);
        cache := cache.PopOldest();
      }
    }

    method StoreEntryIfCurrent(key: Key, config: Option<Config>, flightGeneration: nat,
                               invalidDetail: Option<Detail>, now: real) returns (stored: bool)
      requires Valid()
      modifies this`cache
      ensures Valid()
      ensures stored <==> CountAt(generation, key) == flightGeneration
      ensures State() == StoreIfCurrent(old(State()), key, config, flightGeneration, invalidDetail, now)
    {
      if CountAt(generation, key) != flightGeneration { return false; }
      StoreEntry(key, config, invalidDetail, now);
      return true;
    }

    /** The leader from the moment its request ends: parse, store, record and finish, without suspending. */
    method End(flight: FlightId, reply: Reply, now: real) returns (outcome: Outcome)
      requires Valid() && flight < |flights|
      modifies this
      ensures Valid()
      ensures (State(), outcome) == EndFetch(old(State()), flight, parse, reply, now)
    {
      var key, started := flights[flight].key, flights[flight].generation;
      match reply {
        case Content(raw) =>
          var parsed := parse(raw);
          match parsed {
            case Parsed(config) =>
              var _ := StoreEntryIfCurrent(key, Some(config), started, None, now);
              outcome := Returned(Some(config));
            case Malformed(detail) =>
              var _ := StoreEntryIfCurrent(key, None, started, Some(detail), now);
              outcome := Raised(ConfigInvalid(detail));
          }
        case Nothing =>
          var _ := StoreEntryIfCurrent(key, None, started, None, now);
          outcome := Returned(None);
        case NotFound =>
          var _ := StoreEntryIfCurrent(key, None, started, None, now);
          outcome := Returned(None);
        case Failure(code) => outcome := Raised(Failed(code));
        case Cancellation => outcome := Raised(Cancelled);
        case Abortion => outcome := Raised(Aborted);
      }
      Finish(flight, outcome);
    }

    method Finish(flight: FlightId, outcome: Outcome)
      requires Valid() && flight < |flights|
      modifies this
      ensures Valid()
      ensures State() == FinishFlight(old(State()), flight, outcome)
    {
      var key := flights[flight].key;
      flights := flights[flight := Signalled(flights[flight], outcome)];
      if key in inFlight && inFlight[key] == flight {
        inFlight := inFlight - {key};
      }
      var remaining: int := CountAt(live, key) - 1;
      if remaining > 0 {
        live := live[key := remaining];
      } else {
        live := live - {key};
        generation := generation - {key};
      }
    }

    /** A waiter after the flight's event is set. */
    method WakeUp(flight: FlightId) returns (outcome: Outcome)
      requires Valid() && flight < |flights|
      modifies this`coalesced
      ensures Valid()
      ensures (State(), outcome) == Wake(old(State()), flight)
    {
      coalesced := coalesced + 1;
      outcome := flights[flight].Shared();
    }

    method BumpAndForgetIfIdle(key: Key)
      requires Valid()
      modifies this`generation
      ensures Valid()
      ensures generation == BumpOrForget(old(generation), live, key)
    {
      generation := generation[key := CountAt(generation, key) + 1];
      if CountAt(live, key) == 0 {
        generation := generation - {key};
      }
    }

    method InvalidateKey(key: Key)
      requires Valid()
      modifies this`cache, this`generation
      ensures Valid()
      ensures State() == Invalidate(old(State()), key)
    {
      Popped(cache, key);
      cache := cache.Pop(key);
      BumpAndForgetIfIdle(key);
    }

    method ClearAll()
      requires Valid()
      modifies this`cache, this`generation
      ensures Valid()
      ensures State() == Clear(old(State()))
    {
      ClearedNone(generation, live);
      ClearedAll(State());
      hide ClearedOf, BumpOrForget, CountAt;
      cache := Empty();
      var todo := generation.Keys + live.Keys;
      ghost var all := todo;
      assert all - todo == {};
      while todo != {}
        invariant Valid() && cache == Empty() && todo <= all
        invariant generation == ClearedOf(old(generation), live, all - todo)
        decreases todo
      {
        var key :| key in todo;
        assert all - (todo - {key}) == all - todo + {key};
        ClearedMore(old(generation), live, all - todo, key);
        BumpAndForgetIfIdle(key);
        todo := todo - {key};
      }
      assert all - todo == all;
    }
  }

  /** The generations once the counters of these keys are cleared. */
  ghost function ClearedOf(generation: map<Key, nat>, live: map<Key, nat>, done: set<Key>): map<Key, nat> {
    map key | key in generation.Keys + live.Keys && (if key in done then CountAt(live, key) > 0 else key in generation) ::
      CountAt(generation, key) + if key in done then 1 else 0
  }

  lemma ClearedNone(generation: map<Key, nat>, live: map<Key, nat>)
    ensures ClearedOf(generation, live, {}) == generation
  {
  }

  lemma ClearedMore(generation: map<Key, nat>, live: map<Key, nat>, done: set<Key>, key: Key)
    requires key !in done && key in generation.Keys + live.Keys
    ensures BumpOrForget(ClearedOf(generation, live, done), live, key) == ClearedOf(generation, live, done + {key})
  {
  }

  lemma ClearedAll(l: Loader)
    ensures ClearedOf(l.generation, l.live, l.generation.Keys + l.live.Keys) == Clear(l).generation
  {
  }
}
