/** What callers of the configuration loader can rely on, in every run. */
module LoaderGuarantees {
  import opened OrderedDict
  import opened ConfigLoading
  import opened LoaderRuns

  lemma StartKeeps(parse: Raw -> Parsed, files: map<Key, Raw>, clock: real)
    ensures Inv(parse, Start(files, clock))
  {
    var w := Start(files, clock);
    assert forall k :: Pending(w.loader.flights, k) == {};
    assert forall how :: CallsServed(w.calls, how) == {};
    assert CallsLeading(w.calls) == {};
  }

  lemma StepKeeps(parse: Raw -> Parsed, w: World, input: Input)
    requires Inv(parse, w) && Enabled(w, input)
    ensures Inv(parse, Step(parse, w, input))
  {
    hide Inv, Step;
    match input.event
    case Load(k) =>
      match BeginLoad(w.loader, k, w.trace[|w.trace| - 1].clock).1 {
        case Hit(_) => LoadHitKeeps(parse, w, input);
        case Lead(_) => LoadLeadKeeps(parse, w, input);
        case Join(_) => LoadJoinKeeps(parse, w, input);
      }
    case Fetched(_, _, _) => FetchedKeeps(parse, w, input);
    case Wakes(_) => WakesKeeps(parse, w, input);
    case Cancels(_) => CancelsKeeps(parse, w, input);
    case Invalidates(_) => InvalidatesKeeps(parse, w, input);
    case Clears => ClearsKeeps(parse, w, input);
    case Elsewhere => ElsewhereKeeps(parse, w, input);
  }

  lemma {:induction false} RunKeeps(parse: Raw -> Parsed, ws: seq<World>, inputs: seq<Input>, i: nat)
    requires IsRun(parse, ws, inputs) && i < |ws|
    ensures Inv(parse, ws[i])
  {
    hide Inv, Step, Enabled;
    if i == 0 {
      var files, clock :| ws[0] == Start(files, clock);
      StartKeeps(parse, files, clock);
    } else {
      RunKeeps(parse, ws, inputs, i - 1);
      StepKeeps(parse, ws[i - 1], inputs[i - 1]);
    }
  }

  /**
   * The recycled generation counter works like one that never resets: an unfinished fetch is of
   * the current generation exactly when nothing invalidated its key since it registered.
   */
  lemma GenerationRefinesEpoch(parse: Raw -> Parsed, ws: seq<World>, inputs: seq<Input>, i: nat, f: FlightId)
    requires IsRun(parse, ws, inputs) && i < |ws|
    requires f < |ws[i].loader.flights| && !ws[i].loader.flights[f].signalled
    ensures var w, flight := ws[i], ws[i].loader.flights[f];
      && f < |w.log| && w.log[f].begun < |w.trace|
      && CountAt(w.loader.generation, flight.key) - flight.generation
         == Epoch(w.trace, flight.key, |w.trace| - 1) - Epoch(w.trace, flight.key, w.log[f].begun)
      && (CountAt(w.loader.generation, flight.key) == flight.generation
          <==> Quiet(w.trace, flight.key, w.log[f].begun, |w.trace| - 1))
  {
    hide Faithful, CacheCurrent, Served, Leaders, SignalsOutcome, Counters, FlightsOk, LeastRecentFirst, Epoch, Quiet, IsRun, Bounded;
    RunKeeps(parse, ws, inputs, i);
    CurrentIsQuiet(ws[i], f);
  }

  /**
   * Every cached entry was stored by a finished fetch of its key that began after the key's last
   * invalidation, and tells what the file contained at a moment since then.
   */
  lemma CacheHoldsNothingInvalidated(parse: Raw -> Parsed, ws: seq<World>, inputs: seq<Input>, i: nat, k: Key)
    returns (begun: nat, read: nat)
    requires IsRun(parse, ws, inputs) && i < |ws| && k in ws[i].loader.cache.values
    ensures begun <= read < |ws[i].trace|
    ensures Quiet(ws[i].trace, k, begun, |ws[i].trace| - 1)
    ensures ws[i].loader.cache.values[k].Served() == OutcomeFor(parse, FileAt(ws[i].trace, read, k))
  {
    hide Served, Leaders, SignalsOutcome, Counters, FlightsOk, LeastRecentFirst, TracksEpoch, Quiet, IsRun, Bounded;
    RunKeeps(parse, ws, inputs, i);
    var w := ws[i];
    var f := w.origin[k];
    assert StoredBy(w.trace, w.log[f], k, w.loader.cache.values[k]);
    begun, read := w.log[f].begun, w.log[f].read;
  }

  /** The remote file of `k` only ever changes together with an invalidation of `k`. */
  ghost predicate Coherent(trace: seq<Moment>, k: Key) {
    forall j :: 0 < j < |trace| && FileAt(trace, j, k) != FileAt(trace, j - 1, k) ==> Touches(trace[j], k)
  }

  /**
   * However the remote files change: an answer that tells content, whether from the cache, a fetch
   * or a joined fetch, is the one for what the file contained at some moment up to the end of the
   * call and no earlier than the last invalidation before its start.
   */
  lemma AnswersAreRecent(parse: Raw -> Parsed, ws: seq<World>, inputs: seq<Input>, i: nat, c: CallId)
    returns (t: nat)
    requires IsRun(parse, ws, inputs) && i < |ws|
    requires c < |ws[i].calls| && ws[i].calls[c].phase.Done? && TellsContent(ws[i].calls[c].phase.outcome)
    ensures var w, call := ws[i], ws[i].calls[c];
      && t <= call.phase.end < |w.trace|
      && call.start <= call.phase.end
      && Quiet(w.trace, call.key, t, call.start)
      && call.phase.outcome == OutcomeFor(parse, FileAt(w.trace, t, call.key))
  {
    hide CacheCurrent, Leaders, SignalsOutcome, Counters, FlightsOk, LeastRecentFirst, TracksEpoch, IsRun, Bounded;
    RunKeeps(parse, ws, inputs, i);
    var w, call := ws[i], ws[i].calls[c];
    var log := w.log[call.phase.flight];
    assert ServedBy(w.trace, log, call);
    t := log.read;
  }

  lemma {:induction false} UnchangedWhileQuiet(trace: seq<Moment>, k: Key, i: nat, j: nat)
    requires i <= j < |trace| && Coherent(trace, k) && Quiet(trace, k, i, j)
    ensures FileAt(trace, i, k) == FileAt(trace, j, k)
  {
    if i < j {
      UnchangedWhileQuiet(trace, k, i, j - 1);
    }
  }

  /**
   * `load` is linearizable as a read of the remote file when the file changes only together with
   * an invalidation: each answer is the one for what the file contained at a moment during the call.
   */
  lemma LoadIsLinearizable(parse: Raw -> Parsed, ws: seq<World>, inputs: seq<Input>, i: nat, c: CallId)
    returns (t: nat)
    requires IsRun(parse, ws, inputs) && i < |ws|
    requires c < |ws[i].calls| && ws[i].calls[c].phase.Done? && TellsContent(ws[i].calls[c].phase.outcome)
    requires Coherent(ws[i].trace, ws[i].calls[c].key)
    ensures var w, call := ws[i], ws[i].calls[c];
      && call.start <= t <= call.phase.end < |w.trace|
      && call.phase.outcome == OutcomeFor(parse, FileAt(w.trace, t, call.key))
  {
    hide IsRun, Coherent;
    var w, call := ws[i], ws[i].calls[c];
    t := AnswersAreRecent(parse, ws, inputs, i, c);
    if t < call.start {
      UnchangedWhileQuiet(w.trace, call.key, t, call.start);
      t := call.start;
    }
  }

  /** A world where one call has just fetched and stored what the file of `k` contains. */
  ghost predicate JustStored(parse: Raw -> Parsed, w: World, k: Key, raw: Raw) {
    && |w.trace| == 3 && w.trace[2].clock == 0.0
    && |w.calls| == 1
    && k in w.loader.cache.values
    && w.loader.cache.values[k].Fresh(0.0)
    && w.loader.cache.values[k].Served() == OutcomeFor(parse, Some(raw))
  }

  lemma FirstLoadStores(parse: Raw -> Parsed, k: Key, raw: Raw) returns (w1: World, w2: World)
    ensures var files := map[k := raw];
      && Enabled(Start(files, 0.0), Input(Load(k), files, 0.0))
      && w1 == Step(parse, Start(files, 0.0), Input(Load(k), files, 0.0))
      && Enabled(w1, Input(Fetched(0, Content(raw), 0), files, 0.0))
      && w2 == Step(parse, w1, Input(Fetched(0, Content(raw), 0), files, 0.0))
      && JustStored(parse, w2, k, raw)
  {
    hide Clear, Invalidate, WakeStep, CancelStep;
    var files := map[k := raw];
    w1 := Step(parse, Start(files, 0.0), Input(Load(k), files, 0.0));
    assert w1.calls == [Call(k, 0, Leading(0))] && |w1.trace| == 2;
    assert FileAt(w1.trace, 0, k) == Some(raw);
    w2 := Step(parse, w1, Input(Fetched(0, Content(raw), 0), files, 0.0));
    var config, detail := PublishStores(w1.loader, 0, parse, Content(raw), 0.0);
    var entry := Entry(config, if config.Some? then CACHE_TTL else NEGATIVE_CACHE_TTL, detail);
    assert w2.loader.cache.values == map[k := entry];
  }

  lemma SecondLoadHits(parse: Raw -> Parsed, w2: World, k: Key, raw: Raw, files: map<Key, Raw>) returns (w3: World, w4: World)
    requires JustStored(parse, w2, k, raw)
    ensures Enabled(w2, Input(Elsewhere, files, 0.0)) && w3 == Step(parse, w2, Input(Elsewhere, files, 0.0))
    ensures Enabled(w3, Input(Load(k), files, 0.0)) && w4 == Step(parse, w3, Input(Load(k), files, 0.0))
    ensures |w4.trace| == 5 && w4.trace[3].files == files && |w4.calls| == 2
    ensures w4.calls[1].start == 3 && w4.calls[1].phase.Done? && w4.calls[1].phase.end == 3
    ensures w4.calls[1].phase.outcome == OutcomeFor(parse, Some(raw))
  {
    hide Clear, Invalidate, WakeStep, CancelStep, FetchStep, OutcomeFor;
    w3 := Step(parse, w2, Input(Elsewhere, files, 0.0));
    w4 := Step(parse, w3, Input(Load(k), files, 0.0));
  }

  /**
   * The hypothesis is needed: when a file changes without an invalidation, the next call can be
   * answered with what the file no longer contains.
   */
  lemma UnannouncedChangeIsMissed(parse: Raw -> Parsed, k: Key, before: Raw, after: Raw)
    returns (ws: seq<World>, inputs: seq<Input>)
    requires parse(before) != parse(after)
    ensures IsRun(parse, ws, inputs)
    ensures var w := ws[|ws| - 1];
      && |w.calls| == 2
      && var call := w.calls[1];
         && call.phase.Done? && call.phase.end < |w.trace|
         && call.phase.outcome == OutcomeFor(parse, Some(before))
         && forall t :: call.start <= t <= call.phase.end ==>
              call.phase.outcome != OutcomeFor(parse, FileAt(w.trace, t, k))
  {
    hide Step, Enabled, JustStored;
    var old', new' := map[k := before], map[k := after];
    inputs := [Input(Load(k), old', 0.0), Input(Fetched(0, Content(before), 0), old', 0.0),
               Input(Elsewhere, new', 0.0), Input(Load(k), new', 0.0)];
    var w1, w2 := FirstLoadStores(parse, k, before);
    var w3, w4 := SecondLoadHits(parse, w2, k, before, new');
    ws := [Start(old', 0.0), w1, w2, w3, w4];
  }

  /** A cache answer is never older than the entry's lifetime: 300 seconds for a config, else 60. */
  lemma CacheAnswersExpire(parse: Raw -> Parsed, ws: seq<World>, inputs: seq<Input>, i: nat, c: CallId)
    requires IsRun(parse, ws, inputs) && i < |ws|
    requires c < |ws[i].calls| && ws[i].calls[c].phase.Done? && ws[i].calls[c].phase.how == FromCache
    ensures var w, call := ws[i], ws[i].calls[c];
      && call.phase.flight < |w.log|
      && w.log[call.phase.flight].ended < |w.trace| && call.phase.end < |w.trace|
      && w.trace[call.phase.end].clock - w.trace[w.log[call.phase.flight].ended].clock
         < if call.phase.outcome.Returned? && call.phase.outcome.config.Some? then 300.0 else 60.0
  {
    hide CacheCurrent, Leaders, SignalsOutcome, Counters, FlightsOk, LeastRecentFirst, TracksEpoch, IsRun, Bounded;
    RunKeeps(parse, ws, inputs, i);
    var w, call := ws[i], ws[i].calls[c];
    assert ServedBy(w.trace, w.log[call.phase.flight], call);
  }

  /**
   * A call that misses the cache joins the fetch in progress exactly when nothing invalidated the
   * key since that fetch registered; otherwise it starts its own.
   */
  lemma MissesShareTheFetch(parse: Raw -> Parsed, ws: seq<World>, inputs: seq<Input>, i: nat, f: FlightId)
    requires IsRun(parse, ws, inputs) && i < |ws| && |ws[i].trace| > 0
    requires f < |ws[i].loader.flights| && !ws[i].loader.flights[f].signalled
    ensures f < |ws[i].log|
    ensures var w, k := ws[i], ws[i].loader.flights[f].key;
      var begin := BeginLoad(w.loader, k, w.trace[|w.trace| - 1].clock).1;
      !begin.Hit? ==> (begin == Join(f) <==> Quiet(w.trace, k, w.log[f].begun, |w.trace| - 1))
  {
    hide Faithful, CacheCurrent, Served, Leaders, SignalsOutcome, Counters, LiveCounts, OnePerGeneration, LeastRecentFirst, Epoch, Quiet, IsRun, Bounded;
    RunKeeps(parse, ws, inputs, i);
    CurrentIsQuiet(ws[i], f);
    assert IsCurrent(ws[i].loader.flights, ws[i].loader.generation, f) <==>
      ws[i].loader.flights[f].generation == CountAt(ws[i].loader.generation, ws[i].loader.flights[f].key);
  }

  function CallsWaiting(calls: seq<Call>): set<CallId> {
    set c | 0 <= c < |calls| && calls[c].phase.Waiting?
  }

  function CallsAbandoned(calls: seq<Call>): set<CallId> {
    set c | 0 <= c < |calls| && calls[c].phase.Abandoned?
  }

  /** `_live` counts unfinished fetches, replaced ones included, and bounds the generation table. */
  lemma LiveCountsFetches(parse: Raw -> Parsed, ws: seq<World>, inputs: seq<Input>, i: nat)
    requires IsRun(parse, ws, inputs) && i < |ws|
    ensures var l := ws[i].loader;
      && (forall k :: CountAt(l.live, k) == |Pending(l.flights, k)|)
      && l.generation.Keys <= l.live.Keys
      && (forall k :: k in l.live ==> Pending(l.flights, k) != {})
      && (forall f, g :: 0 <= f < g < |l.flights| && !l.flights[f].signalled && !l.flights[g].signalled
            && l.flights[f].key == l.flights[g].key
            ==> l.flights[f].generation != l.flights[g].generation)
  {
    hide Faithful, CacheCurrent, Served, Leaders, SignalsOutcome, Counters, TableCurrent, LeastRecentFirst, TracksEpoch, IsRun, Bounded, Shaped;
    RunKeeps(parse, ws, inputs, i);
    var l := ws[i].loader;
    forall f, g | 0 <= f < g < |l.flights| && !l.flights[f].signalled && !l.flights[g].signalled
      && l.flights[f].key == l.flights[g].key
      ensures l.flights[f].generation != l.flights[g].generation
    {
      assert Rivals(l.flights, f, g);
    }
    forall k | k in l.live ensures Pending(l.flights, k) != {} {
      assert CountAt(l.live, k) == |Pending(l.flights, k)|;
    }
  }

  /**
   * No waiter is left behind: its fetch is signalled, or its leader is still suspended in it. A
   * waiter that finished got its leader's outcome, an abort of the leader reaching it as a cancellation.
   */
  lemma WaitersFollowTheirLeader(parse: Raw -> Parsed, ws: seq<World>, inputs: seq<Input>, i: nat, c: CallId)
    returns (leader: CallId)
    requires IsRun(parse, ws, inputs) && i < |ws| && c < |ws[i].calls|
    ensures var w, call := ws[i], ws[i].calls[c];
      && leader < |w.calls| && call.phase.flight < |w.loader.flights|
      && w.calls[leader].key == call.key
      && (call.phase.Waiting? ==>
            w.loader.flights[call.phase.flight].signalled || w.calls[leader].phase == Leading(call.phase.flight))
      && (call.phase.Done? && call.phase.how == Joined ==>
            && w.calls[leader].phase.Done? && w.calls[leader].phase.how == Led
            && w.calls[leader].phase.end <= call.phase.end
            && call.phase.outcome == PassedOn(w.calls[leader].phase.outcome))
  {
    hide Faithful, CacheCurrent, Counters, FlightsOk, LeastRecentFirst, TracksEpoch, IsRun, Bounded, Quiet;
    RunKeeps(parse, ws, inputs, i);
    var w, call := ws[i], ws[i].calls[c];
    var f := call.phase.flight;
    leader := w.log[f].leader;
    assert LedBy(w.log[f], w.calls[leader], f);
    assert ServedBy(w.trace, w.log[f], call);
  }

  /** Every call is counted once: as a hit, a miss or a coalesced call, or it is waiting or was cancelled there. */
  lemma EveryCallIsCounted(parse: Raw -> Parsed, ws: seq<World>, inputs: seq<Input>, i: nat)
    requires IsRun(parse, ws, inputs) && i < |ws|
    ensures var l, calls := ws[i].loader, ws[i].calls;
      && l.hits == |CallsServed(calls, FromCache)|
      && l.misses == |CallsServed(calls, Led)| + |CallsLeading(calls)|
      && l.coalesced == |CallsServed(calls, Joined)|
      && l.hits + l.misses + l.coalesced + |CallsWaiting(calls)| + |CallsAbandoned(calls)| == |calls|
  {
    hide Faithful, CacheCurrent, Served, Leaders, SignalsOutcome, TracksEpoch, LeastRecentFirst, FlightsOk, IsRun, Bounded, Shaped;
    RunKeeps(parse, ws, inputs, i);
    PhasesPartition(ws[i].calls);
  }

  lemma {:induction false} PhasesPartition(calls: seq<Call>)
    ensures |CallsServed(calls, FromCache)| + |CallsServed(calls, Led)| + |CallsServed(calls, Joined)|
      + |CallsLeading(calls)| + |CallsWaiting(calls)| + |CallsAbandoned(calls)| == |calls|
  {
    if calls == [] {
      assert forall how :: CallsServed([], how) == {};
      assert CallsLeading([]) == {} && CallsWaiting([]) == {} && CallsAbandoned([]) == {};
    } else {
      var n := |calls| - 1;
      var rest, last := calls[..n], calls[n];
      PhasesPartition(rest);
      assert calls == rest + [last];
      ServedJoins(rest, last, FromCache);
      ServedJoins(rest, last, Led);
      ServedJoins(rest, last, Joined);
      LeadingJoins(rest, last);
      SuspendedJoins(rest, last);
      hide CallsServed, CallsLeading, CallsWaiting, CallsAbandoned;
    }
  }

  lemma SuspendedJoins(calls: seq<Call>, call: Call)
    ensures |CallsWaiting(calls + [call])| == |CallsWaiting(calls)| + if call.phase.Waiting? then 1 else 0
    ensures |CallsAbandoned(calls + [call])| == |CallsAbandoned(calls)| + if call.phase.Abandoned? then 1 else 0
  {
    assert forall c :: 0 <= c < |calls| ==> (calls + [call])[c] == calls[c];
    assert CallsWaiting(calls + [call]) == CallsWaiting(calls) + if call.phase.Waiting? then {|calls|} else {};
    assert CallsAbandoned(calls + [call]) == CallsAbandoned(calls) + if call.phase.Abandoned? then {|calls|} else {};
  }

  /** At every moment the cache holds at most 512 entries. */
  lemma CacheIsBounded(parse: Raw -> Parsed, ws: seq<World>, inputs: seq<Input>, i: nat)
    requires IsRun(parse, ws, inputs) && i < |ws|
    ensures |ws[i].loader.cache.keys| <= 512
    ensures |ws[i].loader.cache.values| == |ws[i].loader.cache.keys|
  {
    hide Faithful, CacheCurrent, Served, Leaders, SignalsOutcome, Counters, FlightsOk, LeastRecentFirst, TracksEpoch, IsRun, Shaped;
    RunKeeps(parse, ws, inputs, i);
    SizeOfValid(ws[i].loader.cache);
  }

  lemma SizeOfValid(d: OrderedDict<Key, Entry>)
    requires d.Valid()
    ensures |d.values| == |d.keys|
  {
    KeysOnce(d.keys);
    assert d.values.Keys == set k | k in d.keys;
  }

  lemma {:induction false} KeysOnce(keys: seq<Key>)
    requires Distinct(keys)
    ensures |set k | k in keys| == |keys|
  {
    if keys != [] {
      var last := |keys| - 1;
      KeysOnce(keys[..last]);
      assert keys[last] !in keys[..last];
      assert (set k | k in keys) == (set k | k in keys[..last]) + {keys[last]};
    } else {
      assert (set k | k in keys) == {};
    }
  }

  /** What a store pushes out of a full cache was used before all that stays. */
  lemma EvictsLeastRecentlyUsed(parse: Raw -> Parsed, ws: seq<World>, inputs: seq<Input>, i: nat, gone: Key, kept: Key)
    requires IsRun(parse, ws, inputs) && i < |inputs| && inputs[i].event.Fetched?
    requires gone in ws[i].loader.cache.values && gone !in ws[i + 1].loader.cache.values
    requires kept in ws[i + 1].loader.cache.values
    ensures |ws[i + 1].loader.cache.keys| == 512
    ensures gone in ws[i].usedAt && kept in ws[i + 1].usedAt && ws[i].usedAt[gone] < ws[i + 1].usedAt[kept]
  {
    hide Faithful, CacheCurrent, Served, Leaders, SignalsOutcome, TracksEpoch, FlightsOk, Bounded, LeastRecentFirst, Step, Shaped, Counters, Enabled;
    RunKeeps(parse, ws, inputs, i);
    assert Enabled(ws[i], inputs[i]) && ws[i + 1] == Step(parse, ws[i], inputs[i]);
    hide IsRun;
    var stored, k, entry := CacheAfterFetch(parse, ws[i], inputs[i]);
    StoreEvicts(ws[i].loader.cache, k, entry, ws[i].usedAt, |ws[i].trace|, gone, kept);
  }

  /** What the end of a fetch does to the cache and to the record of uses. */
  lemma CacheAfterFetch(parse: Raw -> Parsed, w: World, input: Input)
    returns (stored: bool, k: Key, entry: Entry)
    requires Enabled(w, input) && input.event.Fetched?
    ensures var w' := Step(parse, w, input);
      && w'.loader.cache == (if stored then w.loader.cache.Put(k, entry).MoveToEnd(k).Newest(MAX_CACHE_ENTRIES) else w.loader.cache)
      && w'.usedAt == (if stored then w.usedAt[k := |w.trace|] else w.usedAt)
  {
    hide Publish, Answer, Shows, Store, LoadStep, WakeStep, CancelStep, Invalidate, Clear;
    var f, l := w.calls[input.event.call].phase.flight, w.loader;
    var now := w.trace[|w.trace| - 1].clock;
    var config, detail := PublishStores(l, f, parse, input.event.reply, now);
    StoredCache(l, l.flights[f].key, config, detail, now);
    k := l.flights[f].key;
    stored := Publishes(input.event.reply) && CountAt(l.generation, k) == l.flights[f].generation;
    entry := Entry(config, now + if config.Some? then CACHE_TTL else NEGATIVE_CACHE_TTL, detail);
  }

  lemma StoredCache(l: Loader, key: Key, config: Option<Config>, detail: Option<Detail>, now: real)
    ensures Store(l, key, config, detail, now).cache
      == l.cache.Put(key, Entry(config, now + if config.Some? then CACHE_TTL else NEGATIVE_CACHE_TTL, detail))
           .MoveToEnd(key).Newest(MAX_CACHE_ENTRIES)
  {
  }

  lemma StoreEvicts(d: OrderedDict<Key, Entry>, k: Key, v: Entry, rank: map<Key, nat>, now: nat, gone: Key, kept: Key)
    requires Bounded(d) && LeastRecentFirst(d.keys, rank, now)
    requires var r := d.Put(k, v).MoveToEnd(k).Newest(MAX_CACHE_ENTRIES);
      gone in d.values && gone !in r.values && kept in r.values
    ensures |d.Put(k, v).MoveToEnd(k).Newest(MAX_CACHE_ENTRIES).keys| == MAX_CACHE_ENTRIES
    ensures gone in rank && kept in rank[k := now] && rank[gone] < rank[k := now][kept]
  {
    hide Ascending, Distinct;
    var moved := d.Put(k, v).MoveToEnd(k);
    var r := moved.Newest(MAX_CACHE_ENTRIES);
    PutMoved(d, k, v);
    PutRecent(d, k, v, rank, now);
    assert gone in moved.values;
    NewestValid(moved, MAX_CACHE_ENTRIES);
    assert |moved.keys| > MAX_CACHE_ENTRIES;
    DroppedBefore(moved, MAX_CACHE_ENTRIES, rank[k := now], gone, kept);
    assert moved.keys[|moved.keys| - 1] == k;
    assert k in r.keys by { assert r.keys[|r.keys| - 1] == k; }
  }

  lemma DroppedBefore(d: OrderedDict<Key, Entry>, n: nat, rank: map<Key, nat>, gone: Key, kept: Key)
    requires d.Valid() && |d.keys| > n && Ascending(d.keys, rank)
    requires gone in d.values && gone !in d.Newest(n).values && kept in d.Newest(n).values
    ensures gone in rank && kept in rank && rank[gone] < rank[kept]
  {
    hide Ascending, Distinct;
    NewestValid(d, n);
    var cut := |d.keys| - n;
    assert kept in d.keys[cut..];
    assert d.keys == d.keys[..cut] + d.keys[cut..];
    assert gone in d.keys[..cut];
    var a :| 0 <= a < cut && d.keys[a] == gone;
    var b :| cut <= b < |d.keys| && d.keys[b] == kept;
    AscendingOrder(d.keys, rank, a, b);
  }
}
