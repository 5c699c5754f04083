/** What each call of the loader is told, and what each event does to the cache. */
module LoaderAnswers {
  import opened OrderedDict
  import opened ConfigLoading
  import opened LoaderRuns
  import opened LoaderGuarantees

  /** What a leader is told when its request ends this way. */
  ghost predicate Tells(parse: Raw -> Parsed, reply: Reply, outcome: Outcome) {
    match reply
    case Content(raw) =>
      (match parse(raw)
       case Parsed(config) => outcome == Returned(Some(config))
       case Malformed(detail) => outcome == Raised(ConfigInvalid(detail)))
    case Nothing => outcome == Returned(None)
    case NotFound => outcome == Returned(None)
    case Failure(code) => outcome == Raised(Failed(code))
    case Cancellation => outcome == Raised(Cancelled)
    case Abortion => outcome == Raised(Aborted)
  }

  /** A waiter is told the same, except that an abort of the leader reaches it as a cancellation. */
  ghost predicate TellsWaiter(parse: Raw -> Parsed, reply: Reply, outcome: Outcome) {
    if reply.Abortion? then outcome == Raised(Cancelled) else Tells(parse, reply, outcome)
  }

  /** A fetch reads the file, or finds that there is none. */
  predicate Conclusive(reply: Reply) { reply.Content? || reply.Nothing? || reply.NotFound? }

  /** The leader is told how its request ended, and a request that failed leaves the cache alone. */
  lemma LeaderIsTold(parse: Raw -> Parsed, ws: seq<World>, inputs: seq<Input>, i: nat)
    requires IsRun(parse, ws, inputs) && i < |inputs| && inputs[i].event.Fetched?
    ensures var c, reply := inputs[i].event.call, inputs[i].event.reply;
      && c < |ws[i].calls| && ws[i].calls[c].phase.Leading?
      && c < |ws[i + 1].calls| && ws[i + 1].calls[c].phase.Done?
      && ws[i + 1].calls[c].phase == Done(Led, ws[i].calls[c].phase.flight, |ws[i].trace| - 1, ws[i + 1].calls[c].phase.outcome)
      && Tells(parse, reply, ws[i + 1].calls[c].phase.outcome)
      && (!Conclusive(reply) ==> ws[i + 1].loader.cache == ws[i].loader.cache)
  {
    assert Enabled(ws[i], inputs[i]) && ws[i + 1] == Step(parse, ws[i], inputs[i]);
    hide IsRun, StoreIfCurrent, Shows, Signalled;
  }

  /** The log of a finished fetch never changes. */
  lemma StepKeepsFinished(parse: Raw -> Parsed, w: World, input: Input, f: FlightId)
    requires Inv(parse, w) && Enabled(w, input) && f < |w.log| && w.log[f].outcome.Some?
    ensures var w' := Step(parse, w, input); f < |w'.log| && w'.log[f] == w.log[f]
  {
    hide Faithful, CacheCurrent, Served, Counters, FlightsOk, LeastRecentFirst, TracksEpoch, Bounded, Publish, Answer, Shows;
    if input.event.Fetched? { LeadingIsPending(w, input.event.call); }
  }

  lemma {:induction false} FinishedStays(parse: Raw -> Parsed, ws: seq<World>, inputs: seq<Input>, i: nat, j: nat, f: FlightId)
    requires IsRun(parse, ws, inputs) && i <= j < |ws| && f < |ws[i].log| && ws[i].log[f].outcome.Some?
    ensures f < |ws[j].log| && ws[j].log[f] == ws[i].log[f]
    decreases j
  {
    hide Inv, Step, Enabled;
    if i < j {
      FinishedStays(parse, ws, inputs, i, j - 1, f);
      RunKeeps(parse, ws, inputs, j - 1);
      StepKeepsFinished(parse, ws[j - 1], inputs[j - 1], f);
    }
  }

  /** Every waiter of a fetch that wakes up is told how the leader's request ended. */
  lemma WaitersAreTold(parse: Raw -> Parsed, ws: seq<World>, inputs: seq<Input>, i: nat, j: nat, c: CallId)
    requires IsRun(parse, ws, inputs) && i < |inputs| && inputs[i].event.Fetched? && i < j < |ws|
    requires inputs[i].event.call < |ws[i].calls|
    requires c < |ws[j].calls| && ws[j].calls[c].phase.Done? && ws[j].calls[c].phase.how == Joined
    requires ws[j].calls[c].phase.flight == ws[i].calls[inputs[i].event.call].phase.flight
    ensures TellsWaiter(parse, inputs[i].event.reply, ws[j].calls[c].phase.outcome)
  {
    var f, leader := ws[j].calls[c].phase.flight, inputs[i].event.call;
    LeaderIsTold(parse, ws, inputs, i);
    RunKeeps(parse, ws, inputs, i + 1);
    assert ws[i + 1].calls[leader].phase.flight == f;
    assert ServedBy(ws[i + 1].trace, ws[i + 1].log[f], ws[i + 1].calls[leader]);
    RunKeeps(parse, ws, inputs, j);
    assert ServedBy(ws[j].trace, ws[j].log[f], ws[j].calls[c]);
    hide Inv, ServedBy;
    FinishedStays(parse, ws, inputs, i + 1, j, f);
  }

  // ---------------------------------------------------------------- what is cached

  function Ttl(config: Option<Config>): real { if config.Some? then 300.0 else 60.0 }

  /** An entry that serves this outcome, for five minutes if it is a configuration and one if not. */
  ghost predicate Remembers(entry: Entry, outcome: Outcome, now: real) {
    && entry.Served() == outcome
    && entry.expiresAt == now + Ttl(if outcome.Returned? then outcome.config else None)
  }

  /**
   * A fetch is remembered if and only if it read the file, or found none, and nothing invalidated
   * its key since it registered; otherwise the cache stays as it was.
   */
  lemma RememberedIff(parse: Raw -> Parsed, ws: seq<World>, inputs: seq<Input>, i: nat)
    requires IsRun(parse, ws, inputs) && i < |inputs| && inputs[i].event.Fetched?
    ensures var w, w', c := ws[i], ws[i + 1], inputs[i].event.call;
      && c < |w.calls| && c < |w'.calls| && w'.calls[c].phase.Done? && w.calls[c].phase.flight < |w.log| && |w.trace| > 0
      && var k, here := w.calls[c].key, |w.trace| - 1;
      && if Conclusive(inputs[i].event.reply) && Quiet(w.trace, k, w.log[w.calls[c].phase.flight].begun, here) then
           k in w'.loader.cache.values
           && Remembers(w'.loader.cache.values[k], w'.calls[c].phase.outcome, w.trace[here].clock)
         else w'.loader.cache == w.loader.cache
  {
    LeaderIsTold(parse, ws, inputs, i);
    RunKeeps(parse, ws, inputs, i);
    assert Enabled(ws[i], inputs[i]) && ws[i + 1] == Step(parse, ws[i], inputs[i]);
    hide IsRun;
    FetchRemembers(parse, ws[i], inputs[i]);
  }

  lemma FetchRemembers(parse: Raw -> Parsed, w: World, input: Input)
    requires Inv(parse, w) && Enabled(w, input) && input.event.Fetched?
    ensures var w', c := Step(parse, w, input), input.event.call;
      && c < |w'.calls| && w'.calls[c].phase.Done?
      && var k, here := w.calls[c].key, |w.trace| - 1;
      && if Conclusive(input.event.reply) && Quiet(w.trace, k, w.log[w.calls[c].phase.flight].begun, here) then
           k in w'.loader.cache.values
           && Remembers(w'.loader.cache.values[k], w'.calls[c].phase.outcome, w.trace[here].clock)
         else w'.loader.cache == w.loader.cache
  {
    hide Faithful, CacheCurrent, Served, Counters, FlightsOk, LeastRecentFirst, Publish, Answer, Shows, Store, Quiet, LoadStep, WakeStep;
    var c, l := input.event.call, w.loader;
    var f, now := w.calls[c].phase.flight, w.trace[|w.trace| - 1].clock;
    LeadingIsPending(w, c);
    CurrentIsQuiet(w, f);
    var config, detail := PublishStores(l, f, parse, input.event.reply, now);
    StoredLast(l, l.flights[f].key, config, detail, now);
  }

  /** What is stored is in the cache afterwards. */
  lemma StoredLast(l: Loader, key: Key, config: Option<Config>, detail: Option<Detail>, now: real)
    requires Bounded(l.cache)
    ensures var cached := Store(l, key, config, detail, now).cache.values;
      key in cached && cached[key] == Entry(config, now + Ttl(config), detail)
  {
    hide Distinct;
    var entry := Entry(config, now + Ttl(config), detail);
    var moved := l.cache.Put(key, entry).MoveToEnd(key);
    PutMoved(l.cache, key, entry);
    NewestValid(moved, MAX_CACHE_ENTRIES);
    var kept := moved.Newest(MAX_CACHE_ENTRIES);
    assert kept.keys[|kept.keys| - 1] == key;
    assert key in kept.keys;
  }

  /**
   * A call is answered at once, by the entry, if and only if its key has one that has not expired;
   * otherwise it makes one request or waits for one, and the cache stays as it was.
   */
  lemma HitIff(parse: Raw -> Parsed, ws: seq<World>, inputs: seq<Input>, i: nat)
    requires IsRun(parse, ws, inputs) && i < |inputs| && inputs[i].event.Load?
    ensures |ws[i].trace| > 0 && |ws[i + 1].calls| == |ws[i].calls| + 1
    ensures Begins(ws[i], ws[i + 1], inputs[i].event.key, ws[i + 1].calls[|ws[i].calls|])
  {
    hide Step, Enabled, Begins;
    assert Enabled(ws[i], inputs[i]) && ws[i + 1] == Step(parse, ws[i], inputs[i]);
    hide IsRun;
    LoadBegins(parse, ws[i], inputs[i]);
  }

  ghost predicate Begins(w: World, w': World, k: Key, call: Call)
    requires |w.trace| > 0
  {
    && call.key == k && call.start == |w.trace| - 1
    && if k in w.loader.cache.values && w.trace[|w.trace| - 1].clock < w.loader.cache.values[k].expiresAt then
         && call.phase.Done? && call.phase.how == FromCache && call.phase.end == |w.trace| - 1
         && call.phase.outcome == w.loader.cache.values[k].Served()
         && w'.loader.flights == w.loader.flights && w'.loader.cache.values == w.loader.cache.values
       else
         && w'.loader.cache == w.loader.cache
         && ((call.phase == Leading(|w.loader.flights|) && |w'.loader.flights| == |w.loader.flights| + 1)
             || (call.phase.Waiting? && w'.loader.flights == w.loader.flights))
  }

  lemma LoadBegins(parse: Raw -> Parsed, w: World, input: Input)
    requires Enabled(w, input) && input.event.Load?
    ensures var w' := Step(parse, w, input);
      |w.trace| > 0 && |w'.calls| == |w.calls| + 1 && Begins(w, w', input.event.key, w'.calls[|w.calls|])
  {
    hide Shows, FetchStep, WakeStep, Invalidate, Clear, Entry.Served;
  }

  /** The answer of an entry: the error it remembers, or what it holds. */
  lemma EntryServes(entry: Entry)
    ensures entry.Served() == if entry.invalidDetail.Some? then Raised(ConfigInvalid(entry.invalidDetail.value)) else Returned(entry.config)
  {
  }

  /** Entries go only by an invalidation of their key, by clearing, or when a fetch is stored in a full cache. */
  lemma EntriesStay(parse: Raw -> Parsed, ws: seq<World>, inputs: seq<Input>, i: nat, k: Key)
    requires IsRun(parse, ws, inputs) && i < |inputs| && k in ws[i].loader.cache.values
    ensures var w, w', e := ws[i], ws[i + 1], inputs[i].event;
      && (k in w'.loader.cache.values && !(e.Fetched? && e.call < |w.calls| && w.calls[e.call].key == k) ==>
          w'.loader.cache.values[k] == w.loader.cache.values[k])
      && (k !in w'.loader.cache.values ==>
          e == Invalidates(k) || e == Clears || (e.Fetched? && |w.loader.cache.keys| == 512))
      && (e == Invalidates(k) || e == Clears ==> k !in w'.loader.cache.values)
  {
    hide Inv, Step, Enabled;
    RunKeeps(parse, ws, inputs, i);
    assert Enabled(ws[i], inputs[i]) && ws[i + 1] == Step(parse, ws[i], inputs[i]);
    hide IsRun;
    if inputs[i].event.Fetched? { FetchKeepsOthers(parse, ws[i], inputs[i], k); } else { OtherKeeps(parse, ws[i], inputs[i], k); }
  }

  lemma OtherKeeps(parse: Raw -> Parsed, w: World, input: Input, k: Key)
    requires Enabled(w, input) && !input.event.Fetched? && k in w.loader.cache.values
    ensures var cached := Step(parse, w, input).loader.cache.values;
      if input.event == Invalidates(k) || input.event == Clears then k !in cached
      else k in cached && cached[k] == w.loader.cache.values[k]
  {
    hide BumpOrForget, FetchStep, Shows;
  }

  lemma FetchKeepsOthers(parse: Raw -> Parsed, w: World, input: Input, k: Key)
    requires Inv(parse, w) && Enabled(w, input) && input.event.Fetched? && k in w.loader.cache.values
    ensures var w' := Step(parse, w, input);
      && input.event.call < |w.calls|
      && (k in w'.loader.cache.values && w.calls[input.event.call].key != k ==>
          w'.loader.cache.values[k] == w.loader.cache.values[k])
      && (k !in w'.loader.cache.values ==> |w.loader.cache.keys| == 512)
  {
    hide Faithful, CacheCurrent, Served, Counters, FlightsOk, LeastRecentFirst, Publish, Answer, Shows, Store, Quiet, LoadStep, WakeStep;
    var c, l := input.event.call, w.loader;
    var f, now := w.calls[c].phase.flight, w.trace[|w.trace| - 1].clock;
    var config, detail := PublishStores(l, f, parse, input.event.reply, now);
    StoreHolds(l, l.flights[f].key, config, detail, now, k);
    StoreDropsFromFull(l, l.flights[f].key, config, detail, now, k);
  }

  lemma StoreDropsFromFull(l: Loader, key: Key, config: Option<Config>, detail: Option<Detail>, now: real, k: Key)
    requires Bounded(l.cache) && k in l.cache.values
    ensures k !in Store(l, key, config, detail, now).cache.values ==> |l.cache.keys| == MAX_CACHE_ENTRIES
  {
    hide Distinct;
    var entry := Entry(config, now + Ttl(config), detail);
    var moved := l.cache.Put(key, entry).MoveToEnd(key);
    PutMoved(l.cache, key, entry);
    NewestValid(moved, MAX_CACHE_ENTRIES);
    if |moved.keys| <= MAX_CACHE_ENTRIES { assert moved.Newest(MAX_CACHE_ENTRIES) == moved; }
  }

  /** Each event is about one call at most, and leaves the others where they are. */
  lemma OthersGoOn(parse: Raw -> Parsed, ws: seq<World>, inputs: seq<Input>, i: nat, c: CallId)
    requires IsRun(parse, ws, inputs) && i < |inputs| && c < |ws[i].calls|
    ensures c < |ws[i + 1].calls|
    ensures var e := inputs[i].event;
      if (e.Fetched? || e.Wakes? || e.Cancels?) && e.call == c then
        && ws[i + 1].calls[c].key == ws[i].calls[c].key && ws[i + 1].calls[c].start == ws[i].calls[c].start
        && (if e.Cancels? then ws[i + 1].calls[c].phase.Abandoned? else ws[i + 1].calls[c].phase.Done?)
      else ws[i + 1].calls[c] == ws[i].calls[c]
  {
    assert Enabled(ws[i], inputs[i]) && ws[i + 1] == Step(parse, ws[i], inputs[i]);
    hide IsRun, BeginLoad, EndFetch, Shows;
  }
}
