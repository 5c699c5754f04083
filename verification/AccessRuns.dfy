/**
 * Concurrent calls for the accounts users may see. A call can be suspended while it reads GitHub's
 * pages, loads its user's links, commits the changes, queries the authorized accounts, and before
 * it caches the result. A commit writes the links the call changed, and fails when it adds one
 * that another call has added meanwhile.
 */
module AccessRuns {
  import opened OrderedDict
  import opened AccessSync

  datatype Place =
    | Fetching
    | Loading(listing: Listing)
    | Writing(accounts: map<AccountId, int>, listing: Listing, loaded: Links)
    | Querying
    | Caching(answer: set<AccountId>, readAt: nat)
    | Answered(answer: set<AccountId>)
    | Abandoned
  {
    predicate Finished() { Answered? || Abandoned? }
  }

  /** `start` is the step at which the call began, `now` the clock it read then. */
  datatype Call = Call(user: User, start: nat, now: real, force: bool, place: Place)

  datatype World = World(store: Store, calls: seq<Call>, clock: real, steps: nat)

  datatype Event =
    | Arrives(user: User, force: bool)
    | Lists(c: nat, pages: Option<seq<Page>>)
    | Loads(c: nat, accounts: map<AccountId, int>)
    | Commits(c: nat)
    | GivesUp(c: nat)
    | Queries(c: nat)
    | Caches(c: nat)
    | Aborts(c: nat)
    | Passes(time: real)
    | Alters(user: User, links: Links)

  /** Beside the calls' own steps, the clock moves on, and someone else may add or change a user's links. */
  predicate Enabled(w: World, e: Event) {
    match e
    case Arrives(_, _) => true
    case Lists(c, _) => c < |w.calls| && w.calls[c].place.Fetching?
    case Loads(c, _) => c < |w.calls| && w.calls[c].place.Loading?
    case Commits(c) => c < |w.calls| && w.calls[c].place.Writing?
    case GivesUp(c) => c < |w.calls| && (w.calls[c].place.Fetching? || w.calls[c].place.Loading? || w.calls[c].place.Writing?)
    case Queries(c) => c < |w.calls| && w.calls[c].place.Querying?
    case Caches(c) => c < |w.calls| && w.calls[c].place.Caching?
    case Aborts(c) => c < |w.calls| && !w.calls[c].place.Finished()
    case Passes(time) => time >= 0.0
    case Alters(user, links) => w.store.LinksOf(user).Keys <= links.Keys
  }

  function Target(place: Place): Links
    requires place.Writing?
  {
    Synced(place.loaded, place.accounts, place.listing)
  }

  /** The links a commit writes: those added, and those whose flag the call changed. */
  function Written(loaded: Links, target: Links): set<AccountId> {
    set a | a in target && (a !in loaded || loaded[a] != target[a])
  }

  /** A link to be added is there already, against the unique key. */
  predicate Conflicts(links: Links, loaded: Links, target: Links) {
    exists a :: a in target && a !in loaded && a in links
  }

  function Merged(links: Links, loaded: Links, target: Links): Links {
    map a | a in links.Keys + Written(loaded, target) ::
      if a in Written(loaded, target) then target[a] else links[a]
  }

  function Move(w: World, c: nat, place: Place): World
    requires c < |w.calls|
  {
    w.(calls := w.calls[c := w.calls[c].(place := place)], steps := w.steps + 1)
  }

  function Arrive(w: World, user: User, force: bool): World {
    var cache := Pruned(w.store.cache, w.clock);
    var r := Request(user, w.clock, force, map[], None);
    var place := if Hits(cache, r) then Answered(cache[user].accounts) else Fetching;
    w.(store := w.store.(cache := cache), calls := w.calls + [Call(user, w.steps, w.clock, force, place)], steps := w.steps + 1)
  }

  function Step(w: World, e: Event): World
    requires Enabled(w, e)
  {
    match e
    case Arrives(user, force) => Arrive(w, user, force)
    case Lists(c, pages) => Move(w, c, match pages case None => Querying case Some(answers) => Loading(Fetched(answers)))
    case Loads(c, accounts) => Move(w, c, Writing(accounts, w.calls[c].place.listing, w.store.LinksOf(w.calls[c].user)))
    case Commits(c) =>
      var user, place := w.calls[c].user, w.calls[c].place;
      if Conflicts(w.store.LinksOf(user), place.loaded, Target(place)) then Move(w, c, Abandoned)
      else Move(w, c, Querying).(
        store := w.store.(links := w.store.links[user := Merged(w.store.LinksOf(user), place.loaded, Target(place))]))
    case GivesUp(c) => Move(w, c, Querying)
    case Queries(c) => Move(w, c, Caching(Authorized(w.store.LinksOf(w.calls[c].user)), w.steps))
    case Caches(c) =>
      var call := w.calls[c];
      Move(w, c, Answered(call.place.answer)).(
        store := w.store.(cache := w.store.cache[call.user := Cached(call.now, call.place.answer)]))
    case Aborts(c) => Move(w, c, Abandoned)
    case Passes(time) => w.(clock := w.clock + time, steps := w.steps + 1)
    case Alters(user, links) => w.(store := w.store.(links := w.store.links[user := links]), steps := w.steps + 1)
  }

  ghost predicate IsRun(ws: seq<World>, es: seq<Event>) {
    && |ws| == |es| + 1
    && ws[0].calls == [] && ws[0].store.cache == map[] && ws[0].steps == 0
    && forall i :: 0 <= i < |es| ==> Enabled(ws[i], es[i]) && ws[i + 1] == Step(ws[i], es[i])
  }

  // ---------------------------------------------------------------- answers are recent

  lemma {:induction false} ClockMovesOn(ws: seq<World>, es: seq<Event>, i: nat, k: nat)
    requires IsRun(ws, es) && i <= k < |ws|
    ensures ws[i].clock <= ws[k].clock && ws[k].steps == k
    decreases k
  {
    if k > 0 {
      ClockMovesOn(ws, es, if i < k then i else k - 1, k - 1);
      assert Enabled(ws[k - 1], es[k - 1]) && ws[k] == Step(ws[k - 1], es[k - 1]);
      hide Authorized, Fetched, Synced, Merged, Pruned, Conflicts;
    }
  }

  /** By now, at a moment no earlier than that time, these were the user's authorized accounts. */
  ghost predicate WasTrue(ws: seq<World>, n: nat, user: User, answer: set<AccountId>, since: real)
    requires n < |ws|
  {
    exists k :: 0 <= k <= n && ws[k].clock >= since && Authorized(ws[k].store.LinksOf(user)) == answer
  }

  /** These were the caller's authorized accounts less than five minutes before the call, or later. */
  ghost predicate Recent(ws: seq<World>, n: nat, call: Call, answer: set<AccountId>)
    requires n < |ws|
  {
    exists k :: 0 <= k <= n && ws[k].clock > call.now - TTL && (call.force ==> call.start <= k)
      && Authorized(ws[k].store.LinksOf(call.user)) == answer
  }

  ghost predicate CallTrue(ws: seq<World>, n: nat, call: Call)
    requires n < |ws|
  {
    && call.now <= ws[n].clock && call.start <= n
    && (call.place.Caching? ==>
        && call.start <= call.place.readAt <= n && call.now <= ws[call.place.readAt].clock
        && Authorized(ws[call.place.readAt].store.LinksOf(call.user)) == call.place.answer)
    && (call.place.Answered? ==> Recent(ws, n, call, call.place.answer))
  }

  ghost predicate AllTrue(ws: seq<World>, n: nat)
    requires n < |ws|
  {
    && (forall c :: 0 <= c < |ws[n].calls| ==> CallTrue(ws, n, ws[n].calls[c]))
    && (forall user :: user in ws[n].store.cache ==>
        WasTrue(ws, n, user, ws[n].store.cache[user].accounts, ws[n].store.cache[user].at))
  }

  lemma StaysTrue(ws: seq<World>, n: nat, call: Call)
    requires n + 1 < |ws| && CallTrue(ws, n, call) && ws[n].clock <= ws[n + 1].clock
    ensures CallTrue(ws, n + 1, call)
  {
    hide Authorized;
    if call.place.Answered? {
      var k :| 0 <= k <= n && ws[k].clock > call.now - TTL && (call.force ==> call.start <= k)
        && Authorized(ws[k].store.LinksOf(call.user)) == call.place.answer;
    }
  }

  lemma CacheStays(ws: seq<World>, n: nat, user: User, answer: set<AccountId>, since: real)
    requires n + 1 < |ws| && WasTrue(ws, n, user, answer, since)
    ensures WasTrue(ws, n + 1, user, answer, since)
  {
    hide Authorized;
    var k :| 0 <= k <= n && ws[k].clock >= since && Authorized(ws[k].store.LinksOf(user)) == answer;
  }

  /** A call's own step makes what it knows of its answer true, a hit because the entry is. */
  lemma NewCallTrue(ws: seq<World>, n: nat, e: Event, c: nat)
    requires n + 1 < |ws| && AllTrue(ws, n) && ws[n].steps == n && ws[n].clock <= ws[n + 1].clock
    requires Enabled(ws[n], e) && ws[n + 1] == Step(ws[n], e)
    requires c < |ws[n + 1].calls| && (c < |ws[n].calls| ==> ws[n + 1].calls[c] != ws[n].calls[c])
    ensures CallTrue(ws, n + 1, ws[n + 1].calls[c])
  {
    hide Authorized, Fetched, Synced, Merged, Conflicts;
    var w, w', call := ws[n], ws[n + 1], ws[n + 1].calls[c];
    if c < |w.calls| { assert CallTrue(ws, n, w.calls[c]); }
    match e
    case Arrives(user, force) =>
      if call.place.Answered? {
        var at := w.store.cache[user].at;
        var k :| 0 <= k <= n && ws[k].clock >= at && Authorized(ws[k].store.LinksOf(user)) == call.place.answer;
        assert ws[k].clock > call.now - TTL;
      }
    case Caches(_) =>
      var k := w.calls[c].place.readAt;
      assert ws[k].clock > call.now - TTL && Authorized(ws[k].store.LinksOf(call.user)) == call.place.answer;
    case _ =>
  }

  lemma NewCacheTrue(ws: seq<World>, n: nat, e: Event, user: User)
    requires n + 1 < |ws| && AllTrue(ws, n)
    requires Enabled(ws[n], e) && ws[n + 1] == Step(ws[n], e) && user in ws[n + 1].store.cache
    ensures WasTrue(ws, n + 1, user, ws[n + 1].store.cache[user].accounts, ws[n + 1].store.cache[user].at)
  {
    hide Authorized, Fetched, Synced, Merged, Conflicts;
    var w, entry := ws[n], ws[n + 1].store.cache[user];
    if user in w.store.cache && entry == w.store.cache[user] {
      CacheStays(ws, n, user, entry.accounts, entry.at);
    } else {
      assert e.Caches? && CallTrue(ws, n, w.calls[e.c]);
      var k := w.calls[e.c].place.readAt;
      assert ws[k].clock >= entry.at && Authorized(ws[k].store.LinksOf(user)) == entry.accounts;
    }
  }

  lemma {:induction false} RunIsTrue(ws: seq<World>, es: seq<Event>, n: nat)
    requires IsRun(ws, es) && n < |ws|
    ensures AllTrue(ws, n)
  {
    if n > 0 {
      var m := n - 1;
      RunIsTrue(ws, es, m);
      ClockMovesOn(ws, es, m, n);
      ClockMovesOn(ws, es, m, m);
      assert Enabled(ws[m], es[m]) && ws[m + 1] == Step(ws[m], es[m]);
      hide Step, Enabled, IsRun, CallTrue, WasTrue;
      forall c | 0 <= c < |ws[n].calls| ensures CallTrue(ws, n, ws[n].calls[c]) {
        if c < |ws[m].calls| && ws[n].calls[c] == ws[m].calls[c] { StaysTrue(ws, m, ws[m].calls[c]); }
        else { NewCallTrue(ws, m, es[m], c); }
      }
      forall user | user in ws[n].store.cache
        ensures WasTrue(ws, n, user, ws[n].store.cache[user].accounts, ws[n].store.cache[user].at)
      {
        NewCacheTrue(ws, m, es[m], user);
      }
    }
  }

  /**
   * However calls interleave, each is answered with what the user's links authorized at a moment
   * less than five minutes before it began, or later; a forced one at a moment since it began.
   */
  lemma AnswersAreRecent(ws: seq<World>, es: seq<Event>, n: nat, c: nat) returns (k: nat)
    requires IsRun(ws, es) && n < |ws| && c < |ws[n].calls| && ws[n].calls[c].place.Answered?
    ensures var call := ws[n].calls[c];
      && k <= n && call.start <= n && ws[k].clock > call.now - 300.0 && (call.force ==> call.start <= k)
      && forall a :: a in call.place.answer <==> Allowed(ws[k].store.LinksOf(call.user), a)
  {
    hide IsRun, Authorized, WasTrue, Allowed;
    RunIsTrue(ws, es, n);
    var call := ws[n].calls[c];
    forall i | 0 <= i <= n { AuthorizedIs(ws[i].store.LinksOf(call.user)); }
    assert CallTrue(ws, n, call);
    k :| 0 <= k <= n && ws[k].clock > call.now - TTL && (call.force ==> call.start <= k)
      && Authorized(ws[k].store.LinksOf(call.user)) == call.place.answer;
  }

  // ---------------------------------------------------------------- what a commit leaves

  /** What a commit does not write is as it was loaded. */
  ghost predicate Undisturbed(links: Links, loaded: Links, target: Links) {
    forall a :: !(a in target && (a !in loaded || loaded[a] != target[a])) ==> (Allowed(links, a) <==> Allowed(loaded, a))
  }

  /**
   * After a commit the user may see what the call worked out if and only if no other link of the
   * user changed since the call loaded them: after a complete list, the known accounts in it, and
   * after an incomplete one, those loaded and those seen.
   */
  lemma CommitIsExactIff(w: World, c: nat)
    requires Enabled(w, Commits(c))
    requires w.calls[c].place.loaded.Keys <= w.calls[c].place.accounts.Keys
    requires Step(w, Commits(c)).calls[c].place == Querying
    ensures var place, before := w.calls[c].place, w.store.LinksOf(w.calls[c].user);
      var after := Step(w, Commits(c)).store.LinksOf(w.calls[c].user);
      (forall a :: Allowed(after, a) <==>
        Listed(place.accounts, place.listing.ids, a) || (!place.listing.complete && Allowed(place.loaded, a)))
      <==> Undisturbed(before, place.loaded, Target(place))
  {
    var place, before := w.calls[c].place, w.store.LinksOf(w.calls[c].user);
    var target := Target(place);
    var after := Step(w, Commits(c)).store.LinksOf(w.calls[c].user);
    SyncedIs(place.loaded, place.accounts, place.listing);
    assert after == Merged(before, place.loaded, target);
    forall a
      ensures Allowed(target, a) <==>
        Listed(place.accounts, place.listing.ids, a) || (!place.listing.complete && Allowed(place.loaded, a))
    {
      SyncedIff(place.loaded, place.accounts, place.listing, a);
    }
    forall a ensures Allowed(after, a) <==> if a in Written(place.loaded, target) then Allowed(target, a) else Allowed(before, a) {
      MergedAllows(before, place.loaded, target, a);
    }
    forall a | a !in Written(place.loaded, target) ensures Allowed(target, a) <==> Allowed(place.loaded, a) {
      UnwrittenStays(place.loaded, target, a);
    }
    hide Synced, Step, Allowed, Merged, Listed;
  }

  lemma SyncedIs(links: Links, accounts: map<AccountId, int>, listing: Listing)
    ensures links.Keys <= Synced(links, accounts, listing).Keys
  {
  }

  lemma MergedAllows(links: Links, loaded: Links, target: Links, a: AccountId)
    ensures Allowed(Merged(links, loaded, target), a) <==>
      if a in Written(loaded, target) then Allowed(target, a) else Allowed(links, a)
  {
  }

  lemma UnwrittenStays(loaded: Links, target: Links, a: AccountId)
    requires loaded.Keys <= target.Keys && a !in Written(loaded, target)
    ensures Allowed(target, a) <==> Allowed(loaded, a)
  {
  }

  /**
   * A call is answered at once if and only if it is not forced and the cache has an entry less than
   * five minutes old for the user; otherwise it asks GitHub. Entries older than ten minutes go.
   */
  lemma ArrivesDecides(w: World, user: User, force: bool)
    ensures Enabled(w, Arrives(user, force))
    ensures var w', c := Step(w, Arrives(user, force)), |w.calls|;
      && |w'.calls| == c + 1 && w'.store.links == w.store.links
      && w'.calls[c].user == user && w'.calls[c].now == w.clock && w'.calls[c].force == force
      && (if !force && user in w.store.cache && w.clock - w.store.cache[user].at < 300.0 then
            w'.calls[c].place == Answered(w.store.cache[user].accounts)
          else w'.calls[c].place == Fetching)
      && forall u :: u in w'.store.cache <==> u in w.store.cache && w.clock - w.store.cache[u].at <= 600.0
  {
  }

  /** A commit fails exactly when it adds a link that is there already, and then changes nothing. */
  lemma CommitFailsIff(w: World, c: nat)
    requires Enabled(w, Commits(c))
    ensures var place, w' := w.calls[c].place, Step(w, Commits(c));
      var links, target := w.store.LinksOf(w.calls[c].user), Synced(place.loaded, place.accounts, place.listing);
      && |w'.calls| == |w.calls|
      && (w'.calls[c].place == Abandoned <==> exists a :: a in target && a !in place.loaded && a in links)
      && (w'.calls[c].place == Abandoned || w'.calls[c].place == Querying)
      && (w'.calls[c].place == Abandoned ==> w'.store == w.store)
      && w'.store.cache == w.store.cache
  {
    hide Synced, Merged;
  }

  /** A call whose sync fails changes no link, and goes on to answer with what the user's links allow. */
  lemma FailedSyncIsAnswered(w: World, c: nat) returns (w': World)
    requires Enabled(w, GivesUp(c))
    ensures var w1 := Step(w, GivesUp(c));
      Enabled(w1, Queries(c)) && Enabled(Step(w1, Queries(c)), Caches(c)) && w' == Step(Step(w1, Queries(c)), Caches(c))
    ensures c < |w'.calls| && w'.calls[c].place.Answered? && w'.store.links == w.store.links
    ensures forall a :: a in w'.calls[c].place.answer <==> Allowed(w.store.LinksOf(w.calls[c].user), a)
    ensures w'.store.cache == w.store.cache[w.calls[c].user := Cached(w.calls[c].now, w'.calls[c].place.answer)]
  {
    w' := Step(Step(Step(w, GivesUp(c)), Queries(c)), Caches(c));
    AuthorizedIs(w.store.LinksOf(w.calls[c].user));
    hide Authorized, Allowed;
  }

  /** A call lists once, and queries once its sync is over; its sync may fail at any moment, and itself until it is finished. */
  lemma CallsGoInOrder(w: World, c: nat, pages: Option<seq<Page>>)
    requires c < |w.calls|
    ensures var place := w.calls[c].place;
      && (Enabled(w, Lists(c, pages)) <==> place == Fetching)
      && (Enabled(w, Queries(c)) <==> place == Querying)
      && (Enabled(w, GivesUp(c)) <==> place != Querying && !place.Caching? && !place.Finished())
      && (Enabled(w, Aborts(c)) <==> !place.Answered? && place != Abandoned)
  {
  }

  /** Time goes by but not back, and others add and change a user's links but delete none. */
  lemma OthersAddAndChange(w: World, user: User, links: Links, time: real)
    ensures Enabled(w, Passes(time)) <==> time >= 0.0
    ensures Enabled(w, Alters(user, links)) <==> forall a :: a in w.store.LinksOf(user) ==> a in links
    ensures Enabled(w, Alters(user, links)) ==>
      var w' := Step(w, Alters(user, links));
      w'.store.LinksOf(user) == links && w'.store.cache == w.store.cache && w'.calls == w.calls
  {
  }

  /** A call that is cancelled, or whose own request to the database fails, ends without an answer and changes nothing. */
  lemma AbortChangesNothing(w: World, c: nat)
    requires Enabled(w, Aborts(c))
    ensures Step(w, Aborts(c)).store == w.store
    ensures Step(w, Aborts(c)).calls == w.calls[c := w.calls[c].(place := Abandoned)]
  {
  }

  // ---------------------------------------------------------------- an older list

  const U := User(1)
  const A := AccountId(1)
  const ACCOUNTS: map<AccountId, int> := map[A := 7]
  const OLD: seq<Page> := [Batch([Some(7)])]
  const NEW: seq<Page> := [Batch([])]

  lemma ListsRead()
    ensures Fetched(OLD) == Listing({7}, true) && Fetched(NEW) == Listing({}, true)
  {
    assert OLD[..1] == OLD && NEW[..1] == NEW;
    assert OLD[0].Ids() == {7} by {
      assert Some(7) in OLD[0].installations;
    }
    assert IdsOf(OLD) == {7} by { assert OLD[0] in OLD; }
    assert IdsOf(NEW) == {};
  }

  function Linked(authorized: bool, calls: seq<Call>, steps: nat): World {
    World(Store(map[U := map[A := authorized]], map[]), calls, 0.0, steps)
  }

  function Both(first: Place, second: Place): seq<Call> {
    [Call(U, 0, 0.0, true, first), Call(U, 1, 0.0, true, second)]
  }

  lemma BothList()
    ensures var w0, w1 := Linked(true, [], 0), Linked(true, [Call(U, 0, 0.0, true, Fetching)], 1);
      var w2, w3 := Linked(true, Both(Fetching, Fetching), 2), Linked(true, Both(Loading(Listing({7}, true)), Fetching), 3);
      && Enabled(w0, Arrives(U, true)) && Step(w0, Arrives(U, true)) == w1
      && Enabled(w1, Arrives(U, true)) && Step(w1, Arrives(U, true)) == w2
      && Enabled(w2, Lists(0, Some(OLD))) && Step(w2, Lists(0, Some(OLD))) == w3
      && Enabled(w3, Lists(1, Some(NEW)))
      && Step(w3, Lists(1, Some(NEW))) == Linked(true, Both(Loading(Listing({7}, true)), Loading(Listing({}, true))), 4)
  {
    ListsRead();
    assert Pruned(map[], 0.0) == map[];
    hide Fetched;
  }

  lemma SecondRevokes()
    ensures var first := Loading(Listing({7}, true));
      var w4 := Linked(true, Both(first, Loading(Listing({}, true))), 4);
      var w5 := Linked(true, Both(first, Writing(ACCOUNTS, Listing({}, true), map[A := true])), 5);
      && Enabled(w4, Loads(1, ACCOUNTS)) && Step(w4, Loads(1, ACCOUNTS)) == w5
      && Enabled(w5, Commits(1)) && Step(w5, Commits(1)) == Linked(false, Both(first, Querying), 6)
  {
    assert Synced(map[A := true], ACCOUNTS, Listing({}, true)) == map[A := false];
    assert Merged(map[A := true], map[A := true], map[A := false]) == map[A := false];
    hide Synced, Merged;
  }

  lemma FirstGrants()
    ensures var w6 := Linked(false, Both(Loading(Listing({7}, true)), Querying), 6);
      var w7 := Linked(false, Both(Writing(ACCOUNTS, Listing({7}, true), map[A := false]), Querying), 7);
      && Enabled(w6, Loads(0, ACCOUNTS)) && Step(w6, Loads(0, ACCOUNTS)) == w7
      && Enabled(w7, Commits(0)) && Step(w7, Commits(0)) == Linked(true, Both(Querying, Querying), 8)
  {
    assert Synced(map[A := false], ACCOUNTS, Listing({7}, true)) == map[A := true];
    assert Merged(map[A := false], map[A := false], map[A := true]) == map[A := true];
    hide Synced, Merged;
  }

  /**
   * An access just revoked can be granted again: of two concurrent calls with complete lists, the
   * one that loads the links last decides, even if its list is the older one.
   */
  lemma OlderListGrantsAgain() returns (ws: seq<World>, es: seq<Event>)
    ensures IsRun(ws, es) && |es| == 8
    ensures es[2] == Lists(0, Some(OLD)) && es[3] == Lists(1, Some(NEW)) && es[5] == Commits(1) && es[7] == Commits(0)
    ensures 7 in Fetched(OLD).ids && Fetched(NEW) == Listing({}, true)
    ensures Authorized(ws[6].store.LinksOf(U)) == {} && Authorized(ws[8].store.LinksOf(U)) == {A}
  {
    hide Step, Enabled, Fetched;
    ListsRead();
    BothList();
    SecondRevokes();
    FirstGrants();
    es := [Arrives(U, true), Arrives(U, true), Lists(0, Some(OLD)), Lists(1, Some(NEW)), Loads(1, ACCOUNTS), Commits(1),
           Loads(0, ACCOUNTS), Commits(0)];
    var old' := Loading(Listing({7}, true));
    ws := [Linked(true, [], 0), Linked(true, [Call(U, 0, 0.0, true, Fetching)], 1), Linked(true, Both(Fetching, Fetching), 2),
           Linked(true, Both(old', Fetching), 3), Linked(true, Both(old', Loading(Listing({}, true))), 4),
           Linked(true, Both(old', Writing(ACCOUNTS, Listing({}, true), map[A := true])), 5), Linked(false, Both(old', Querying), 6),
           Linked(false, Both(Writing(ACCOUNTS, Listing({7}, true), map[A := false]), Querying), 7),
           Linked(true, Both(Querying, Querying), 8)];
    assert Authorized(map[A := false]) == {} && Authorized(map[A := true]) == {A};
  }

  // ---------------------------------------------------------------- a call without company

  lemma MergedAlone(loaded: Links, target: Links)
    requires loaded.Keys <= target.Keys
    ensures Merged(loaded, loaded, target) == target && !Conflicts(loaded, loaded, target)
  {
  }

  ghost predicate Leads(w: World, es: seq<Event>, w': World)
    decreases |es|
  {
    if es == [] then w' == w else Enabled(w, es[0]) && Leads(Step(w, es[0]), es[1..], w')
  }

  lemma LeadsFirst(w: World, e: Event, es: seq<Event>, w': World)
    requires Enabled(w, e) && Leads(Step(w, e), es, w')
    ensures Leads(w, [e] + es, w')
  {
    assert ([e] + es)[1..] == es;
  }

  lemma AnswerAlone(w: World, c: nat) returns (es: seq<Event>, w': World)
    requires c < |w.calls| && w.calls[c].place.Querying?
    ensures Leads(w, es, w')
    ensures var call := w.calls[c];
      var answer := Authorized(w.store.LinksOf(call.user));
      && |w'.calls| == |w.calls| && w'.calls[c].place == Answered(answer)
      && w'.store == Store(w.store.links, w.store.cache[call.user := Cached(call.now, answer)])
  {
    hide Authorized;
    var w1 := Step(w, Queries(c));
    w' := Step(w1, Caches(c));
    LeadsFirst(w1, Caches(c), [], w');
    LeadsFirst(w, Queries(c), [Caches(c)], w');
    es := [Queries(c)] + [Caches(c)];
  }

  lemma SyncAlone(w: World, c: nat, accounts: map<AccountId, int>) returns (es: seq<Event>, w': World)
    requires c < |w.calls| && w.calls[c].place.Loading?
    ensures Leads(w, es, w')
    ensures var call := w.calls[c];
      var links := Synced(w.store.LinksOf(call.user), accounts, call.place.listing);
      && |w'.calls| == |w.calls| && w'.calls[c].place == Answered(Authorized(links))
      && w'.store == Store(w.store.links[call.user := links], w.store.cache[call.user := Cached(call.now, Authorized(links))])
  {
    hide Authorized, Synced, Merged, Conflicts;
    var w1 := Step(w, Loads(c, accounts));
    var loaded, listing := w.store.LinksOf(w.calls[c].user), w.calls[c].place.listing;
    SyncedKeeps(loaded, accounts, listing);
    MergedAlone(loaded, Synced(loaded, accounts, listing));
    var w2 := Step(w1, Commits(c));
    es, w' := AnswerAlone(w2, c);
    LeadsFirst(w1, Commits(c), es, w');
    es := [Commits(c)] + es;
    LeadsFirst(w, Loads(c, accounts), es, w');
    es := [Loads(c, accounts)] + es;
  }

  lemma SyncedKeeps(links: Links, accounts: map<AccountId, int>, listing: Listing)
    ensures links.Keys <= Synced(links, accounts, listing).Keys
  {
  }

  /** A call that nothing gets in between of answers, and leaves links and cache, as the sequential call does. */
  lemma LoneCall(w: World, r: Request) returns (es: seq<Event>, w': World)
    requires r.now == w.clock
    ensures Leads(w, es, w')
    ensures |w.calls| < |w'.calls| && w'.calls[|w.calls|].place == Answered(Answer(w.store, r))
    ensures w'.store.cache == Served(w.store, r).cache
    ensures forall user :: w'.store.LinksOf(user) == Served(w.store, r).LinksOf(user)
  {
    hide Authorized, Fetched, Synced, Merged, Conflicts;
    var c, arrives := |w.calls|, Arrives(r.user, r.force);
    var w1 := Step(w, arrives);
    if w1.calls[c].place.Answered? {
      es, w' := [], w1;
    } else {
      var w2 := Step(w1, Lists(c, r.pages));
      if r.pages.None? {
        es, w' := AnswerAlone(w2, c);
      } else {
        es, w' := SyncAlone(w2, c, r.accounts);
      }
      LeadsFirst(w1, Lists(c, r.pages), es, w');
      es := [Lists(c, r.pages)] + es;
    }
    LeadsFirst(w, arrives, es, w');
    es := [arrives] + es;
    hide Leads;
  }
}
