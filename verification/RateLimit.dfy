/**
 * Token buckets, one per caller, that refill with time. Buckets of idle callers are pruned once
 * there are many of them.
 *
 * Times, tokens and rates are exact reals.
 */
module RateLimit {
  import opened OrderedDict

  const PRUNE_THRESHOLD: nat := 10_000

  function Least(x: real, y: real): real { if y < x then y else x }

  /** Python's `int(x)`, which cuts towards zero. */
  function Truncated(x: real): int {
    if x >= 0.0 then x.Floor else -((-x).Floor)
  }

  /** The tokens that accrue in this many seconds. */
  function Earned(seconds: real, rate: real): real { seconds * rate }

  datatype Tokens = Tokens(tokens: real, updatedAt: real) {
    function Refilled(rate: real, burst: real, now: real): real {
      Least(burst, tokens + Earned(now - updatedAt, rate))
    }

    function Taken(rate: real, burst: real, now: real): Tokens {
      var level := Refilled(rate, burst, now);
      Tokens(if level < 1.0 then level else level - 1.0, now)
    }
  }

  function RetryAfter(tokens: real, rate: real): int {
    if rate <= 0.0 then 60
    else
      var missing := if 1.0 - tokens > 0.0 then 1.0 - tokens else 0.0;
      var whole := Truncated(missing / rate) + 1;
      if whole > 1 then whole else 1
  }

  datatype Answer = Answer(allowed: bool, remaining: int, retryAfter: int)

  /** The answer to a call that finds this many tokens. */
  function AnswerAt(level: real, rate: real): Answer {
    if level < 1.0 then Answer(false, Truncated(level), RetryAfter(level, rate))
    else Answer(true, Truncated(level - 1.0), 0)
  }

  datatype Limiter = Limiter(rate: real, burst: real, buckets: map<string, Tokens>) {
    /** With a full bucket for `key` if it had none. */
    function With(key: string, now: real): Limiter {
      if key in buckets then this else this.(buckets := buckets[key := Tokens(burst, now)])
    }
  }

  function FullAfter(rate: real, burst: real): real {
    if rate > 0.0 then burst / rate else 0.0
  }

  function Prune(st: Limiter, now: real): Limiter {
    st.(buckets := map key | key in st.buckets && !(now - st.buckets[key].updatedAt > FullAfter(st.rate, st.burst)) ::
      st.buckets[key])
  }

  function BucketFor(st: Limiter, key: string, now: real): Tokens {
    if key in st.buckets then st.buckets[key] else Tokens(st.burst, now)
  }

  /** A call, without pruning. */
  function Serve(st: Limiter, key: string, now: real): Limiter {
    var found := st.With(key, now);
    found.(buckets := found.buckets[key := found.buckets[key].Taken(st.rate, st.burst, now)])
  }

  function ServeAnswer(st: Limiter, key: string, now: real): Answer {
    AnswerAt(BucketFor(st, key, now).Refilled(st.rate, st.burst, now), st.rate)
  }

  function BurstFor(perMinute: int, burst: Option<int>): int {
    match burst case Some(tokens) => tokens case None => perMinute
  }

  function PrunedFor(st: Limiter, key: string, now: real): Limiter {
    if key !in st.buckets && |st.buckets| >= PRUNE_THRESHOLD then Prune(st, now) else st
  }

  function Admit(st: Limiter, key: string, now: real): Limiter {
    Serve(PrunedFor(st, key, now), key, now)
  }

  function AdmitAnswer(st: Limiter, key: string, now: real): Answer {
    ServeAnswer(PrunedFor(st, key, now), key, now)
  }

  // ---------------------------------------------------------------- the code

  class Bucket {
    var tokens: real
    var updatedAt: real

    ghost function State(): Tokens
      reads this
    {
      Tokens(tokens, updatedAt)
    }

    constructor (tokens: real, updatedAt: real)
      ensures State() == Tokens(tokens, updatedAt)
    {
      this.tokens, this.updatedAt := tokens, updatedAt;
    }

    method Take(rate: real, burst: real, now: real) returns (ok: bool)
      modifies this
      ensures State() == old(State()).Taken(rate, burst, now)
      ensures ok <==> old(State()).Refilled(rate, burst, now) >= 1.0
    {
      var elapsed := now - updatedAt;
      tokens := Least(burst, tokens + Earned(elapsed, rate));
      updatedAt := now;
      if tokens < 1.0 {
        return false;
      }
      tokens := tokens - 1.0;
      return true;
    }
  }

  class RateLimiter {
    const rate: real
    const burst: real
    var buckets: map<string, Bucket>

    /** No two callers share a bucket. */
    ghost predicate Valid()
      reads this
    {
      forall j, k :: j in buckets && k in buckets && j != k ==> buckets[j] != buckets[k]
    }

    ghost function State(): Limiter
      reads this, buckets.Values
    {
      Limiter(rate, burst, map key | key in buckets :: buckets[key].State())
    }

    constructor (perMinute: int, burst: Option<int>)
      ensures Valid() && State() == Limiter(perMinute as real / 60.0, BurstFor(perMinute, burst) as real, map[])
    {
      this.rate := perMinute as real / 60.0;
      this.burst := BurstFor(perMinute, burst) as real;
      buckets := map[];
    }

    method PruneIdle(now: real)
      requires Valid()
      modifies this
      ensures Valid() && State() == Prune(old(State()), now)
      ensures forall key :: key in buckets ==> key in old(buckets) && buckets[key] == old(buckets[key])
    {
      var fullAfter := FullAfter(rate, burst);
      var stale := set key | key in buckets && now - buckets[key].updatedAt > fullAfter;
      ghost var all := stale;
      while stale != {}
        invariant stale <= all && buckets == old(buckets) - (all - stale)
      {
        var key :| key in stale;
        buckets := buckets - {key};
        stale := stale - {key};
      }
      assert buckets == old(buckets) - all;
    }

    /** The caller's bucket; a new caller's is full. */
    method FindBucket(key: string, now: real) returns (bucket: Bucket)
      requires Valid()
      modifies this
      ensures Valid() && State() == PrunedFor(old(State()), key, now).With(key, now)
      ensures key in buckets && buckets[key] == bucket && (bucket in old(buckets).Values || fresh(bucket))
    {
      hide Prune, Earned, Tokens.Refilled, Tokens.Taken, FullAfter;
      assert State().buckets.Keys == buckets.Keys;
      if key !in buckets {
        if |buckets| >= PRUNE_THRESHOLD {
          PruneIdle(now);
        }
        bucket := AddFull(key, now);
      } else {
        bucket := buckets[key];
      }
    }

    method AddFull(key: string, now: real) returns (bucket: Bucket)
      requires Valid() && key !in buckets
      modifies this
      ensures Valid() && State() == old(State()).With(key, now)
      ensures buckets == old(buckets)[key := bucket] && fresh(bucket)
    {
      bucket := new Bucket(burst, now);
      buckets := buckets[key := bucket];
      assert State().buckets == old(State()).buckets[key := Tokens(burst, now)];
    }

    method Allow(key: string, now: real) returns (allowed: bool, remaining: int, retryAfter: int)
      requires Valid()
      modifies this, buckets.Values
      ensures Valid() && State() == Admit(old(State()), key, now)
      ensures Answer(allowed, remaining, retryAfter) == AdmitAnswer(old(State()), key, now)
    {
      hide Prune, Earned, PrunedFor;
      var bucket := FindBucket(key, now);
      ghost var found := State().buckets;
      allowed := bucket.Take(rate, burst, now);
      assert State().buckets == found[key := found[key].Taken(rate, burst, now)];
      remaining := Truncated(bucket.tokens);
      retryAfter := if allowed then 0 else RetryAfter(bucket.tokens, rate);
    }
  }

  // ---------------------------------------------------------------- sequences of calls

  datatype Call = Call(key: string, now: real)

  /** The clock never goes back, and starts no earlier than `from`. */
  predicate InOrder(calls: seq<Call>, from: real) {
    calls != [] ==> from <= calls[0].now && InOrder(calls[1..], calls[0].now)
  }

  function After(st: Limiter, calls: seq<Call>): Limiter
    decreases calls
  {
    if calls == [] then st else After(Admit(st, calls[0].key, calls[0].now), calls[1..])
  }

  function Answers(st: Limiter, calls: seq<Call>): seq<Answer>
    decreases calls
  {
    if calls == [] then []
    else [AdmitAnswer(st, calls[0].key, calls[0].now)] + Answers(Admit(st, calls[0].key, calls[0].now), calls[1..])
  }

  function AnswersUnpruned(st: Limiter, calls: seq<Call>): seq<Answer>
    decreases calls
  {
    if calls == [] then []
    else [ServeAnswer(st, calls[0].key, calls[0].now)] + AnswersUnpruned(Serve(st, calls[0].key, calls[0].now), calls[1..])
  }

  function Level(st: Limiter, key: string, now: real): real {
    BucketFor(st, key, now).Refilled(st.rate, st.burst, now)
  }

  ghost predicate BucketOk(b: Tokens, burst: real, now: real) {
    b.updatedAt <= now && b.tokens <= burst && (b.tokens >= 0.0 || b.tokens == burst)
  }

  ghost predicate Ok(st: Limiter, now: real) {
    st.rate > 0.0 && forall key :: key in st.buckets ==> BucketOk(st.buckets[key], st.burst, now)
  }

  lemma Spread(a: real, b: real, rate: real)
    ensures Earned(a + b, rate) == Earned(a, rate) + Earned(b, rate)
  {
  }

  lemma Grows(a: real, rate: real)
    requires a >= 0.0 && rate > 0.0
    ensures Earned(a, rate) >= 0.0
  {
  }

  lemma Nothing(rate: real)
    ensures Earned(0.0, rate) == 0.0
  {
  }

  lemma RefilledLater(b: Tokens, rate: real, burst: real, now: real, later: real)
    requires rate > 0.0 && b.updatedAt <= now <= later
    ensures b.Refilled(rate, burst, later) == Least(burst, b.Refilled(rate, burst, now) + Earned(later - now, rate))
  {
    hide Earned;
    Spread(now - b.updatedAt, later - now, rate);
    Grows(later - now, rate);
  }

  /** The level at a time determines the level at all later times. */
  lemma LevelLater(st: Limiter, key: string, now: real, later: real)
    requires Ok(st, now) && now <= later
    ensures Level(st, key, later) == Least(st.burst, Level(st, key, now) + Earned(later - now, st.rate))
  {
    hide Earned;
    Nothing(st.rate);
    Grows(later - now, st.rate);
    if key in st.buckets { RefilledLater(st.buckets[key], st.rate, st.burst, now, later); }
  }

  lemma LevelRange(st: Limiter, key: string, now: real)
    requires Ok(st, now)
    ensures Level(st, key, now) <= st.burst
    ensures Level(st, key, now) >= 0.0 || Level(st, key, now) == st.burst
  {
    hide Earned;
    Nothing(st.rate);
    if key in st.buckets { Grows(now - st.buckets[key].updatedAt, st.rate); }
  }

  lemma OkLater(st: Limiter, now: real, later: real)
    requires Ok(st, now) && now <= later
    ensures Ok(st, later)
  {
  }

  /** A bucket old enough to be pruned is full again. */
  lemma PrunedWasFull(b: Tokens, rate: real, burst: real, now: real)
    requires rate > 0.0 && BucketOk(b, burst, now) && now - b.updatedAt > burst / rate
    ensures b.Refilled(rate, burst, now) == burst
  {
    var d := now - b.updatedAt;
    Spread(d - burst / rate, burst / rate, rate);
    Grows(d - burst / rate, rate);
    Grows(d, rate);
    assert Earned(burst / rate, rate) == burst;
    hide Earned;
  }

  lemma PruneKeepsLevels(st: Limiter, now: real)
    requires Ok(st, now)
    ensures Ok(Prune(st, now), now)
    ensures forall key :: Level(Prune(st, now), key, now) == Level(st, key, now)
  {
    hide Earned;
    Nothing(st.rate);
    forall key ensures Level(Prune(st, now), key, now) == Level(st, key, now) {
      if key in st.buckets && now - st.buckets[key].updatedAt > st.burst / st.rate {
        PrunedWasFull(st.buckets[key], st.rate, st.burst, now);
      }
    }
  }

  lemma ServeLevels(st: Limiter, key: string, now: real)
    requires Ok(st, now)
    ensures Ok(Serve(st, key, now), now)
    ensures ServeAnswer(st, key, now) == AnswerAt(Level(st, key, now), st.rate)
    ensures Level(Serve(st, key, now), key, now) == Level(st, key, now) - if Level(st, key, now) < 1.0 then 0.0 else 1.0
    ensures forall k :: k != key ==> Level(Serve(st, key, now), k, now) == Level(st, k, now)
  {
    LevelRange(st, key, now);
    Nothing(st.rate);
    hide Earned;
  }

  lemma AdmitLevels(st: Limiter, key: string, now: real)
    requires Ok(st, now)
    ensures Ok(Admit(st, key, now), now)
    ensures AdmitAnswer(st, key, now) == AnswerAt(Level(st, key, now), st.rate)
    ensures Level(Admit(st, key, now), key, now) == Level(st, key, now) - if Level(st, key, now) < 1.0 then 0.0 else 1.0
    ensures forall k :: k != key ==> Level(Admit(st, key, now), k, now) == Level(st, k, now)
  {
    PruneKeepsLevels(st, now);
    ServeLevels(PrunedFor(st, key, now), key, now);
    hide Level, Serve, ServeAnswer, AnswerAt, Prune, Ok, Earned;
  }

  /** Limiters that cannot be told apart from `now` on. */
  ghost predicate Same(st: Limiter, st': Limiter, now: real) {
    && Ok(st, now) && Ok(st', now)
    && st.rate == st'.rate && st.burst == st'.burst
    && forall key :: Level(st, key, now) == Level(st', key, now)
  }

  lemma SameLater(st: Limiter, st': Limiter, now: real, later: real)
    requires Same(st, st', now) && now <= later
    ensures Same(st, st', later)
  {
    hide Earned;
    OkLater(st, now, later);
    OkLater(st', now, later);
    hide Level, Ok, Earned;
    forall key ensures Level(st, key, later) == Level(st', key, later) {
      LevelLater(st, key, now, later);
      LevelLater(st', key, now, later);
    }
  }

  lemma {:induction false} SameAnswers(st: Limiter, st': Limiter, calls: seq<Call>, now: real)
    requires Same(st, st', now) && InOrder(calls, now)
    ensures Answers(st, calls) == AnswersUnpruned(st', calls)
    decreases calls
  {
    if calls != [] {
      hide Level, Ok, Earned, AnswerAt, Admit, Serve, AdmitAnswer, ServeAnswer;
      var key, at := calls[0].key, calls[0].now;
      SameLater(st, st', now, at);
      AdmitLevels(st, key, at);
      ServeLevels(st', key, at);
      RatesStay(st, key, at);
      RatesStay(st', key, at);
      SameAnswers(Admit(st, key, at), Serve(st', key, at), calls[1..], at);
    }
  }

  lemma RatesStay(st: Limiter, key: string, now: real)
    ensures Admit(st, key, now).rate == st.rate && Admit(st, key, now).burst == st.burst
    ensures Serve(st, key, now).rate == st.rate && Serve(st, key, now).burst == st.burst
  {
  }

  /** Pruning is invisible: every call of every sequence is answered as if nothing were ever pruned. */
  lemma PruningIsInvisible(rate: real, burst: real, calls: seq<Call>, start: real)
    requires rate > 0.0 && InOrder(calls, start)
    ensures Answers(Limiter(rate, burst, map[]), calls) == AnswersUnpruned(Limiter(rate, burst, map[]), calls)
  {
    SameAnswers(Limiter(rate, burst, map[]), Limiter(rate, burst, map[]), calls, start);
  }

  /** The time of the last call, or `from` if there is none. */
  function Last(calls: seq<Call>, from: real): real {
    if calls == [] then from else calls[|calls| - 1].now
  }

  lemma {:induction false} AfterOk(st: Limiter, calls: seq<Call>, from: real)
    requires Ok(st, from) && InOrder(calls, from)
    ensures Ok(After(st, calls), Last(calls, from))
    ensures After(st, calls).rate == st.rate && After(st, calls).burst == st.burst
    ensures from <= Last(calls, from)
    decreases calls
  {
    if calls != [] {
      hide Ok, Admit, Level, Earned;
      var key, at := calls[0].key, calls[0].now;
      OkLater(st, from, at);
      AdmitLevels(st, key, at);
      RatesStay(st, key, at);
      AfterOk(Admit(st, key, at), calls[1..], at);
      assert Last(calls[1..], at) == Last(calls, from);
    }
  }

  /** How many calls of `key` were allowed. */
  function Granted(calls: seq<Call>, answers: seq<Answer>, key: string): nat
    requires |calls| == |answers|
  {
    if calls == [] then 0
    else (if calls[0].key == key && answers[0].allowed then 1 else 0) + Granted(calls[1..], answers[1..], key)
  }

  lemma {:induction false} AnswersLength(st: Limiter, calls: seq<Call>)
    ensures |Answers(st, calls)| == |calls|
    decreases calls
  {
    if calls != [] { AnswersLength(Admit(st, calls[0].key, calls[0].now), calls[1..]); }
  }

  /** An allowed call is paid for by a token that was there or has accrued. */
  lemma CallCosts(st: Limiter, c: Call, key: string, from: real)
    requires Ok(st, from) && from <= c.now
    ensures Ok(Admit(st, c.key, c.now), c.now)
    ensures Admit(st, c.key, c.now).rate == st.rate && Admit(st, c.key, c.now).burst == st.burst
    ensures (if c.key == key && AdmitAnswer(st, c.key, c.now).allowed then 1.0 else 0.0) + Level(Admit(st, c.key, c.now), key, c.now)
      <= Level(st, key, from) + Earned(c.now - from, st.rate)
  {
    hide Ok, Admit, AdmitAnswer, Level, Earned;
    OkLater(st, from, c.now);
    AdmitLevels(st, c.key, c.now);
    RatesStay(st, c.key, c.now);
    LevelLater(st, key, from, c.now);
  }

  lemma GrantedFirst(st: Limiter, calls: seq<Call>, key: string)
    requires calls != []
    ensures var st' := Admit(st, calls[0].key, calls[0].now);
      && |Answers(st, calls)| == |calls| && |Answers(st', calls[1..])| == |calls[1..]|
      && Granted(calls, Answers(st, calls), key) as real ==
        (if calls[0].key == key && AdmitAnswer(st, calls[0].key, calls[0].now).allowed then 1.0 else 0.0)
        + Granted(calls[1..], Answers(st', calls[1..]), key) as real
  {
    hide Admit, AdmitAnswer;
    AnswersLength(st, calls);
    AnswersLength(Admit(st, calls[0].key, calls[0].now), calls[1..]);
    assert Answers(st, calls)[1..] == Answers(Admit(st, calls[0].key, calls[0].now), calls[1..]);
  }

  lemma {:induction false} GrantedWithin(st: Limiter, calls: seq<Call>, key: string, from: real, until: real)
    requires Ok(st, from) && InOrder(calls, from) && from <= until
    requires forall c :: c in calls ==> c.now <= until
    requires st.burst >= 0.0
    ensures |Answers(st, calls)| == |calls|
    ensures Granted(calls, Answers(st, calls), key) as real <= Level(st, key, from) + Earned(until - from, st.rate)
    decreases calls
  {
    hide Earned, Level, Admit, AdmitAnswer, AnswerAt;
    AnswersLength(st, calls);
    LevelRange(st, key, from);
    Grows(until - from, st.rate);
    if calls == [] {
      assert Granted(calls, Answers(st, calls), key) == 0;
    } else {
      hide Ok, Granted, Answers;
      var c := calls[0];
      var st' := Admit(st, c.key, c.now);
      assert c in calls && forall d :: d in calls[1..] ==> d in calls;
      CallCosts(st, c, key, from);
      GrantedWithin(st', calls[1..], key, c.now, until);
      Spread(c.now - from, until - c.now, st.rate);
      GrantedFirst(st, calls, key);
    }
  }

  lemma {:induction false} Refused(st: Limiter, calls: seq<Call>, key: string, from: real)
    requires Ok(st, from) && InOrder(calls, from) && st.burst < 1.0
    ensures |Answers(st, calls)| == |calls| && Granted(calls, Answers(st, calls), key) == 0
    decreases calls
  {
    AnswersLength(st, calls);
    if calls != [] {
      var c := calls[0];
      OkLater(st, from, c.now);
      LevelRange(st, c.key, c.now);
      AdmitLevels(st, c.key, c.now);
      RatesStay(st, c.key, c.now);
      hide Ok, Admit, Level, AdmitAnswer, Earned;
      Refused(Admit(st, c.key, c.now), calls[1..], key, c.now);
      assert Answers(st, calls)[1..] == Answers(Admit(st, c.key, c.now), calls[1..]);
    }
  }

  lemma {:induction false} InOrderSplit(first: seq<Call>, rest: seq<Call>, from: real)
    requires InOrder(first + rest, from)
    ensures InOrder(first, from) && InOrder(rest, Last(first, from))
    decreases first
  {
    if first == [] {
      assert first + rest == rest;
    } else {
      assert (first + rest)[1..] == first[1..] + rest;
      InOrderSplit(first[1..], rest, first[0].now);
      assert Last(first, from) == Last(first[1..], first[0].now);
    }
  }

  lemma {:induction false} OrderedFrom(calls: seq<Call>, from: real, later: real)
    requires InOrder(calls, from) && (forall c :: c in calls ==> later <= c.now)
    ensures InOrder(calls, later)
  {
    if calls != [] { assert calls[0] in calls; }
  }

  lemma FreshOk(rate: real, burst: real, start: real)
    requires rate > 0.0
    ensures Ok(Limiter(rate, burst, map[]), start)
  {
  }

  /**
   * In any window of time no caller is allowed more calls than a full bucket holds plus what
   * accrues in the window, whatever happened before it.
   */
  lemma RateBound(rate: real, burst: real, earlier: seq<Call>, calls: seq<Call>, key: string, start: real, s: real, t: real)
    requires rate > 0.0 && InOrder(earlier + calls, start) && start <= s <= t
    requires forall c :: c in earlier ==> c.now <= s
    requires forall c :: c in calls ==> s <= c.now <= t
    ensures var answers := Answers(After(Limiter(rate, burst, map[]), earlier), calls);
      && |answers| == |calls|
      && (Granted(calls, answers, key) == 0 || Granted(calls, answers, key) as real <= burst + Earned(t - s, rate))
  {
    hide Earned, Ok, Admit, Level;
    var st := Limiter(rate, burst, map[]);
    FreshOk(rate, burst, start);
    InOrderSplit(earlier, calls, start);
    AfterOk(st, earlier, start);
    assert Last(earlier, start) <= s;
    var st' := After(st, earlier);
    OkLater(st', Last(earlier, start), s);
    OrderedFrom(calls, Last(earlier, start), s);
    if burst < 1.0 {
      Refused(st', calls, key, s);
    } else {
      GrantedWithin(st', calls, key, s, t);
      LevelRange(st', key, s);
    }
  }

  /** Calls of other callers leave a caller's level alone. */
  lemma {:induction false} OthersLeaveLevel(st: Limiter, calls: seq<Call>, key: string, from: real, later: real)
    requires Ok(st, from) && InOrder(calls, from) && from <= later
    requires forall c :: c in calls ==> c.key != key && c.now <= later
    ensures Level(After(st, calls), key, later) == Level(st, key, later)
    decreases calls
  {
    if calls != [] {
      var c := calls[0];
      assert c in calls;
      var st' := Admit(st, c.key, c.now);
      OkLater(st, from, c.now);
      hide Earned, Ok, Admit, Level;
      AdmitLevels(st, c.key, c.now);
      RatesStay(st, c.key, c.now);
      LevelLater(st, key, c.now, later);
      LevelLater(st', key, c.now, later);
      OthersLeaveLevel(st', calls[1..], key, c.now, later);
    }
  }

  /** The wait is long enough for one token, and less than a second too long. */
  lemma WaitIsEnough(level: real, rate: real, wait: real)
    requires rate > 0.0 && level < 1.0 && wait >= 0.0
    ensures wait >= RetryAfter(level, rate) as real ==> level + Earned(wait, rate) >= 1.0
    ensures wait < RetryAfter(level, rate) as real - 1.0 ==> level + Earned(wait, rate) < 1.0
  {
    var missing := 1.0 - level;
    var exact := missing / rate;
    assert exact > 0.0 && Earned(exact, rate) == missing;
    Spread(wait - exact, exact, rate);
    if wait >= exact { Grows(wait - exact, rate); } else { Shrinks(wait - exact, rate); }
    hide Earned;
  }

  lemma Shrinks(a: real, rate: real)
    requires a < 0.0 && rate > 0.0
    ensures Earned(a, rate) < 0.0
  {
  }

  /**
   * A refused caller that stays quiet for the whole seconds it was told is allowed, provided a
   * bucket can hold one token, and is never allowed if it cannot. Coming back more than a second
   * early is refused.
   */
  lemma RetryIsHonest(rate: real, burst: real, start: real, earlier: seq<Call>, call: Call, between: seq<Call>, again: Call)
    requires rate > 0.0 && InOrder(earlier + [call], start) && InOrder(between + [again], call.now)
    requires again.key == call.key && forall c :: c in between ==> c.key != call.key
    ensures var st := After(Limiter(rate, burst, map[]), earlier);
      var first := AdmitAnswer(st, call.key, call.now);
      var second := AdmitAnswer(After(Admit(st, call.key, call.now), between), again.key, again.now);
      && (burst < 1.0 ==> !first.allowed && !second.allowed)
      && (!first.allowed && again.now >= call.now + first.retryAfter as real ==> (second.allowed <==> burst >= 1.0))
      && (!first.allowed && again.now < call.now + first.retryAfter as real - 1.0 ==> !second.allowed)
  {
    hide Earned, Ok, Admit, Level, AdmitAnswer, RetryAfter;
    FreshOk(rate, burst, start);
    InOrderSplit(earlier, [call], start);
    AfterOk(Limiter(rate, burst, map[]), earlier, start);
    var st := After(Limiter(rate, burst, map[]), earlier);
    OkLater(st, Last(earlier, start), call.now);
    AdmitLevels(st, call.key, call.now);
    RatesStay(st, call.key, call.now);
    var st' := Admit(st, call.key, call.now);
    InOrderSplit(between, [again], call.now);
    LastIsLatest(between, call.now, again.now);
    OthersLeaveLevel(st', between, call.key, call.now, again.now);
    AfterOk(st', between, call.now);
    var st'' := After(st', between);
    OkLater(st'', Last(between, call.now), again.now);
    AdmitLevels(st'', again.key, again.now);
    LevelLater(st', call.key, call.now, again.now);
    LevelRange(st, call.key, call.now);
    LevelRange(st'', again.key, again.now);
    var level := Level(st, call.key, call.now);
    if level < 1.0 { WaitIsEnough(level, rate, again.now - call.now); }
  }

  lemma {:induction false} LastIsLatest(calls: seq<Call>, from: real, later: real)
    requires InOrder(calls, from) && Last(calls, from) <= later
    ensures forall c :: c in calls ==> c.now <= later
  {
    if calls != [] {
      assert Last(calls[1..], calls[0].now) == Last(calls, from);
      LastIsLatest(calls[1..], calls[0].now, later);
      LastIsLeast(calls[1..], calls[0].now);
    }
  }

  lemma {:induction false} LastIsLeast(calls: seq<Call>, from: real)
    requires InOrder(calls, from)
    ensures from <= Last(calls, from)
  {
    if calls != [] {
      assert Last(calls[1..], calls[0].now) == Last(calls, from);
      LastIsLeast(calls[1..], calls[0].now);
    }
  }

  /** The remaining count is how many more calls would be allowed at once. */
  lemma {:induction false} RemainingIsExact(st: Limiter, key: string, now: real, more: seq<Call>)
    requires Ok(st, now) && AdmitAnswer(st, key, now).allowed
    requires |more| == AdmitAnswer(st, key, now).remaining
    requires forall c :: c in more ==> c == Call(key, now)
    ensures var st' := Admit(st, key, now);
      && (forall a :: a in Answers(st', more) ==> a.allowed)
      && !AdmitAnswer(After(st', more), key, now).allowed
    decreases more
  {
    hide Earned, Ok, Admit, Level, AdmitAnswer;
    AdmitLevels(st, key, now);
    var st' := Admit(st, key, now);
    AdmitLevels(st', key, now);
    if more != [] {
      assert more[0] in more && forall c :: c in more[1..] ==> c in more;
      RemainingIsExact(st', key, now, more[1..]);
    }
  }

  // ---------------------------------------------------------------- single answers

  /** Without an explicit burst a bucket holds a minute's budget. */
  lemma BurstIs(perMinute: int, burst: Option<int>)
    ensures burst.None? ==> BurstFor(perMinute, burst) == perMinute
    ensures burst.Some? ==> BurstFor(perMinute, burst) == burst.value
  {
  }

  /** A caller without a bucket finds a full one: it is allowed if a bucket can hold a token, and leaves one less. */
  lemma NewCallerFindsFullBucket(st: Limiter, key: string, now: real)
    requires key !in st.buckets && st.burst >= 0.0
    ensures var answer := AdmitAnswer(st, key, now);
      && (answer.allowed <==> st.burst >= 1.0)
      && (answer.allowed ==> answer.remaining as real <= st.burst - 1.0 < answer.remaining as real + 1.0)
    ensures key in Admit(st, key, now).buckets
    ensures Admit(st, key, now).buckets[key] == Tokens(if st.burst >= 1.0 then st.burst - 1.0 else st.burst, now)
  {
    Nothing(st.rate);
    hide Earned;
  }

  /** A call finds what was left, plus what accrued since, up to a full bucket; an allowed one takes a token. */
  lemma KnownCallerFindsRefill(st: Limiter, key: string, now: real)
    requires key in st.buckets
    ensures var b := st.buckets[key];
      var accrued := b.tokens + st.rate * (now - b.updatedAt);
      var level := if accrued < st.burst then accrued else st.burst;
      && (AdmitAnswer(st, key, now).allowed <==> level >= 1.0)
      && (AdmitAnswer(st, key, now).allowed && level >= 1.0 ==>
          AdmitAnswer(st, key, now).remaining as real <= level - 1.0 < AdmitAnswer(st, key, now).remaining as real + 1.0)
      && key in Admit(st, key, now).buckets
      && Admit(st, key, now).buckets[key] == Tokens(if level >= 1.0 then level - 1.0 else level, now)
      && forall other :: other in st.buckets && other != key ==>
           other in Admit(st, key, now).buckets && Admit(st, key, now).buckets[other] == st.buckets[other]
  {
    EarnedIs(now - st.buckets[key].updatedAt, st.rate);
    hide Earned;
  }

  lemma EarnedIs(seconds: real, rate: real)
    ensures Earned(seconds, rate) == rate * seconds
  {
  }

  /**
   * An allowed call is told to wait for nothing. A refused one is told the first whole number of
   * seconds that is longer than what is missing takes to accrue, or a minute if nothing accrues.
   */
  lemma WaitsAreTold(st: Limiter, key: string, now: real)
    ensures key in Admit(st, key, now).buckets
    ensures var answer, left := AdmitAnswer(st, key, now), Admit(st, key, now).buckets[key].tokens;
      && (answer.allowed ==> answer.retryAfter == 0)
      && (!answer.allowed && st.rate <= 0.0 ==> answer.retryAfter == 60)
      && (!answer.allowed && st.rate > 0.0 ==> answer.retryAfter >= 1 && FirstAfter(answer.retryAfter, 1.0 - left, st.rate))
      && (!answer.allowed && left >= 0.0 ==> left < 1.0 && answer.remaining == 0)
  {
    var left := Admit(st, key, now).buckets[key].tokens;
    if st.rate > 0.0 && left < 1.0 { RetryIsFirst(left, st.rate); }
    hide Earned, RetryAfter, FirstAfter;
  }

  /** In so many seconds more than this accrues, and in one second less no more. */
  predicate FirstAfter(seconds: int, missing: real, rate: real) {
    (seconds - 1) as real * rate <= missing && missing < seconds as real * rate
  }

  lemma RetryIsFirst(left: real, rate: real)
    requires left < 1.0 && rate > 0.0
    ensures RetryAfter(left, rate) >= 1 && FirstAfter(RetryAfter(left, rate), 1.0 - left, rate)
  {
    var seconds := (1.0 - left) / rate;
    var retry := RetryAfter(left, rate);
    assert seconds * rate == 1.0 - left;
    assert seconds >= 0.0;
    assert retry == seconds.Floor + 1;
    LessAccrues((retry - 1) as real, seconds, rate);
    LessAccrues(seconds, retry as real, rate);
    assert (retry - 1) as real * rate <= seconds * rate && seconds * rate < retry as real * rate;
    Brackets(retry, seconds, 1.0 - left, rate);
  }

  lemma Brackets(retry: int, seconds: real, missing: real, rate: real)
    requires seconds * rate == missing
    requires (retry - 1) as real * rate <= seconds * rate && seconds * rate < retry as real * rate
    ensures FirstAfter(retry, missing, rate)
  {
  }

  lemma LessAccrues(x: real, y: real, rate: real)
    requires x <= y && rate > 0.0
    ensures x * rate <= y * rate
    ensures x < y ==> x * rate < y * rate
  {
    assert y * rate - x * rate == (y - x) * rate;
  }

  /** The buckets that have not been used for longer than it takes to fill an empty one. */
  predicate Idle(st: Limiter, key: string, now: real) {
    key in st.buckets && now - st.buckets[key].updatedAt > if st.rate > 0.0 then st.burst / st.rate else 0.0
  }

  /** A new caller that finds ten thousand buckets clears out exactly the idle ones; no other call clears any. */
  lemma PrunesWhenCrowded(st: Limiter, key: string, now: real, other: string)
    requires other in st.buckets && other != key
    ensures var st' := Admit(st, key, now);
      if key !in st.buckets && |st.buckets| >= 10_000 && Idle(st, other, now) then other !in st'.buckets
      else other in st'.buckets && st'.buckets[other] == st.buckets[other]
  {
    hide Earned;
  }

  /** What a whole number is cut to: towards zero. */
  lemma TruncatedIs(x: real)
    ensures x >= 0.0 ==> Truncated(x) as real <= x < Truncated(x) as real + 1.0
    ensures x < 0.0 ==> Truncated(x) as real - 1.0 < x <= Truncated(x) as real
  {
  }
}
