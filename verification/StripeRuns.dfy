/**
 * Concurrent deliveries of Stripe events, interleaved with changes of the live status and with
 * GitHub installations, under READ COMMITTED: a statement sees what was committed before it, a row
 * update waits for the row's lock, and an insert of a claimed id waits for the transaction that
 * inserted it.
 *
 * Steps: a request arrives, a query for the account is answered, a subscription event gets its
 * account's row lock, looks up the live status, an event id is claimed, the transaction commits or
 * fails, the status of a subscription changes at Stripe, and an account is installed or renamed.
 */
module StripeRuns {
  import opened OrderedDict
  import opened StripeWebhooks

  datatype Delivery = Delivery(event: Event, place: Place)

  /**
   * `screened` are the answers to requests that were not handled, `log` the committed transactions
   * in order, and `now` counts the steps so far.
   */
  datatype World = World(
    settings: Settings,
    accounts: seq<Account>,
    claims: set<string>,
    live: map<string, string>,
    deliveries: seq<Delivery>,
    screened: seq<Outcome>,
    log: seq<Entry>,
    now: nat)

  datatype Action =
    | Arrives(request: Request)
    | Resolves(t: nat)
    | Locks(t: nat)
    | LooksUp(t: nat, answered: bool)
    | Claims(t: nat)
    | Matches(t: nat)
    | Commits(t: nat)
    | Fails(t: nat)
    | Changes(subscription: string, status: string)
    | Installs(installation: int, org: string)

  /** No other transaction holds the row's lock. */
  predicate RowFree(deliveries: seq<Delivery>, t: nat, a: nat) {
    forall s :: 0 <= s < |deliveries| && s != t ==> deliveries[s].place.LockedRow() != Some(a)
  }

  /** No other transaction has inserted this id without committing. */
  predicate IdFree(deliveries: seq<Delivery>, t: nat, id: Option<string>) {
    forall s :: 0 <= s < |deliveries| && s != t && deliveries[s].place.Pending() ==> deliveries[s].event.id != id
  }

  /** A checkout that stores a customer id updates the account's row. */
  predicate CanCommit(deliveries: seq<Delivery>, t: nat, d: Delivery) {
    || d.place.Claimed?
    || (d.place.Matched? && (EntryOf(t, d.event, d.place, 0).Stores() ==> RowFree(deliveries, t, d.place.known.value)))
  }

  predicate Enabled(w: World, step: Action) {
    match step
    case Arrives(_) => true
    case Changes(_, _) => true
    case Installs(_, _) => true
    case Resolves(t) => t < |w.deliveries| && w.deliveries[t].place.Querying?
    case Locks(t) =>
      t < |w.deliveries| && w.deliveries[t].place.AtRow? && RowFree(w.deliveries, t, w.deliveries[t].place.account)
    case LooksUp(t, _) => t < |w.deliveries| && w.deliveries[t].place.Locked?
    case Claims(t) =>
      && t < |w.deliveries|
      && (w.deliveries[t].place.Checked? || w.deliveries[t].place.Received?)
      && (w.deliveries[t].event.id.Some? ==> IdFree(w.deliveries, t, w.deliveries[t].event.id))
    case Matches(t) => t < |w.deliveries| && w.deliveries[t].place.Unmatched?
    case Commits(t) => t < |w.deliveries| && CanCommit(w.deliveries, t, w.deliveries[t])
    case Fails(t) => t < |w.deliveries| && !w.deliveries[t].place.Done?
  }

  function Move(w: World, t: nat, place: Place): World
    requires t < |w.deliveries|
  {
    w.(deliveries := w.deliveries[t := w.deliveries[t].(place := place)], now := w.now + 1)
  }

  function Answer(w: World, e: Event): Option<string> {
    if e.data.subscription.Some? && e.data.subscription.value in w.live then Some(w.live[e.data.subscription.value]) else None
  }

  /** An installation webhook: a known installation takes the login it is given, a new one gets a free account. */
  function Installed(accounts: seq<Account>, installation: int, org: string): (r: seq<Account>)
    ensures |r| >= |accounts|
    ensures forall a :: 0 <= a < |accounts| ==>
      BillingOf(r[a]) == BillingOf(accounts[a]) && r[a].installation == accounts[a].installation
    ensures forall a :: |accounts| <= a < |r| ==> BillingOf(r[a]) == Billing(Free, None)
  {
    SelectedExists(accounts, ByInstallation(installation));
    match Select(accounts, ByInstallation(installation))
    case NoRow => accounts + [Account(installation, org, Free, None)]
    case Row(a) => accounts[a := accounts[a].(org := org)]
    case SeveralRows => accounts
  }

  function Commit(w: World, t: nat): World
    requires t < |w.deliveries| && (w.deliveries[t].place.Claimed? || w.deliveries[t].place.Matched?)
  {
    var d := w.deliveries[t];
    var entry := EntryOf(t, d.event, d.place, w.now);
    if Clashes(w.accounts, entry) || d.event.id.None? then Move(w, t, Done(Refused(500)))
    else Move(w, t, Done(Applied)).(
      accounts := Write(w.accounts, entry), claims := w.claims + {d.event.id.value}, log := w.log + [entry])
  }

  function Step(w: World, step: Action): World
    requires Enabled(w, step)
  {
    match step
    case Arrives(r) =>
      if Screened(w.settings, r).Some? then
        w.(screened := w.screened + [Screened(w.settings, r).value], now := w.now + 1)
      else w.(deliveries := w.deliveries + [Delivery(r.body.value, Arrived(r.body.value))], now := w.now + 1)
    case Resolves(t) => Move(w, t, AfterQuery(w.settings, w.accounts, w.deliveries[t].place.keys))
    case Locks(t) => Move(w, t, Locked(w.deliveries[t].place.account))
    case LooksUp(t, answered) =>
      var d := w.deliveries[t];
      Move(w, t, AfterLookup(w.settings, d.event, d.place.account, if answered then Answer(w, d.event) else None, w.now))
    case Claims(t) => Move(w, t, AfterClaim(w.deliveries[t].event, w.deliveries[t].place, w.claims))
    case Matches(t) => Move(w, t, AfterMatch(w.accounts, w.deliveries[t].place.keys, w.now))
    case Commits(t) => Commit(w, t)
    case Fails(t) => Move(w, t, Done(Refused(500)))
    case Changes(subscription, status) => w.(live := w.live[subscription := status], now := w.now + 1)
    case Installs(installation, org) => w.(accounts := Installed(w.accounts, installation, org), now := w.now + 1)
  }

  ghost predicate IsRun(ws: seq<World>, steps: seq<Action>) {
    && |ws| == |steps| + 1
    && ws[0].deliveries == [] && ws[0].screened == [] && ws[0].log == [] && ws[0].now == 0
    && forall i :: 0 <= i < |steps| ==> Enabled(ws[i], steps[i]) && ws[i + 1] == Step(ws[i], steps[i])
  }

  // ---------------------------------------------------------------- invariants

  /** What a delivery's place says about its event. */
  ghost predicate PlaceOk(d: Delivery, accounts: nat, s: Settings) {
    && d.event.kind != Unhandled
    && (d.place.AtRow? || d.place.LockedRow().Some? ==>
        d.event.kind.Subscription() && d.place.account < accounts && (s.production ==> s.key))
    && (d.place.Querying? ==> d.event.kind.Subscription())
    && (d.place.Received? || d.place.Unmatched? || d.place.Matched? ==> d.event.kind == CheckoutCompleted)
    && (d.place.Matched? && d.place.known.Some? ==> d.place.known.value < accounts)
    && (d.place.Checked? || d.place.Claimed? ==> d.place.found.Some? || d.event.data.subscription.None? || !s.key)
    && (d.place.Pending() ==> d.event.id.Some?)
  }

  ghost predicate PlacesOk(deliveries: seq<Delivery>, accounts: nat, s: Settings) {
    forall t :: 0 <= t < |deliveries| ==> PlaceOk(deliveries[t], accounts, s)
  }

  /** At most one transaction holds a row's lock. */
  ghost predicate RowsExclusive(deliveries: seq<Delivery>) {
    forall t :: 0 <= t < |deliveries| && deliveries[t].place.LockedRow().Some? ==>
      RowFree(deliveries, t, deliveries[t].place.account)
  }

  /** At most one transaction is about to commit an event id, and it is not committed yet. */
  ghost predicate ClaimsExclusive(deliveries: seq<Delivery>, claims: set<string>) {
    forall t :: 0 <= t < |deliveries| && deliveries[t].place.Pending() && deliveries[t].event.id.Some? ==>
      deliveries[t].event.id.value !in claims && IdFree(deliveries, t, deliveries[t].event.id)
  }

  function Ids(log: seq<Entry>): set<string> {
    set e | e in log && e.event.id.Some? :: e.event.id.value
  }

  ghost predicate EntryOk(e: Entry, deliveries: seq<Delivery>, accounts: nat, s: Settings, now: nat) {
    && e.delivery < |deliveries| && deliveries[e.delivery] == Delivery(e.event, Done(Applied))
    && e.event.id.Some? && e.event.kind != Unhandled
    && (e.account.Some? ==> e.account.value < accounts)
    && (e.event.kind.Subscription() ==>
        e.account.Some? && (s.production ==> s.key) && (e.found.Some? || e.event.data.subscription.None? || !s.key))
    && e.at < e.commitAt < now
  }

  ghost predicate LogOk(log: seq<Entry>, deliveries: seq<Delivery>, accounts: nat, s: Settings, now: nat) {
    forall e :: e in log ==> EntryOk(e, deliveries, accounts, s, now)
  }

  ghost predicate Once(log: seq<Entry>, deliveries: seq<Delivery>) {
    && (forall i, j :: 0 <= i < j < |log| ==> log[i].event.id != log[j].event.id && log[i].delivery != log[j].delivery)
    && (forall t :: 0 <= t < |deliveries| && deliveries[t].place == Done(Applied) ==> exists e :: e in log && e.delivery == t)
  }

  ghost predicate ClaimsAre(claims: set<string>, initial: set<string>, log: seq<Entry>) {
    claims == initial + Ids(log) && Ids(log) !! initial
  }

  /** For each account, a lookup comes after the commits of all earlier lookups. */
  ghost predicate LookupsOrdered(log: seq<Entry>) {
    forall i, j, a :: 0 <= i < j < |log| && log[i].Checks(a) && log[j].Checks(a) ==> log[i].commitAt < log[j].at
  }

  /** What a transaction read is in the past; a status it looked up came after all committed lookups for its account. */
  ghost predicate ReadOk(place: Place, log: seq<Entry>, now: nat) {
    && (place.Checked? || place.Claimed? || place.Matched? ==> place.at < now)
    && (place.Checked? || place.Claimed? ==> forall e :: e in log && e.Checks(place.account) ==> e.commitAt < place.at)
  }

  ghost predicate ReadsOk(deliveries: seq<Delivery>, log: seq<Entry>, now: nat) {
    forall t :: 0 <= t < |deliveries| ==> ReadOk(deliveries[t].place, log, now)
  }

  /** An account's billing after these committed transactions. */
  function Replay(billing: Billing, log: seq<Entry>, a: nat): Billing {
    if log == [] then billing
    else
      var before, last := Replay(billing, log[..|log| - 1], a), log[|log| - 1];
      if last.account == Some(a) then before.After(last) else before
  }

  /** The billing of an account at first, which for one installed later is what it starts with. */
  function FirstBilling(first: World, a: nat): Billing {
    if a < |first.accounts| then BillingOf(first.accounts[a]) else Billing(Free, None)
  }

  ghost predicate Replayed(accounts: seq<Account>, first: World, log: seq<Entry>) {
    && |first.accounts| <= |accounts|
    && forall a :: 0 <= a < |accounts| ==> BillingOf(accounts[a]) == Replay(FirstBilling(first, a), log, a)
  }

  ghost predicate Inv(w: World, first: World) {
    && w.settings == first.settings
    && PlacesOk(w.deliveries, |w.accounts|, w.settings)
    && RowsExclusive(w.deliveries)
    && ClaimsExclusive(w.deliveries, w.claims)
    && LogOk(w.log, w.deliveries, |w.accounts|, w.settings, w.now)
    && Once(w.log, w.deliveries)
    && ClaimsAre(w.claims, first.claims, w.log)
    && LookupsOrdered(w.log)
    && ReadsOk(w.deliveries, w.log, w.now)
    && Replayed(w.accounts, first, w.log)
  }

  // ---------------------------------------------------------------- steps that commit nothing

  /** The new place is consistent with the event and with the other transactions. */
  ghost predicate CanMoveTo(w: World, t: nat, place: Place)
    requires t < |w.deliveries|
  {
    && place != Done(Applied) && w.deliveries[t].place != Done(Applied)
    && PlaceOk(Delivery(w.deliveries[t].event, place), |w.accounts|, w.settings)
    && (place.LockedRow().Some? ==> RowFree(w.deliveries, t, place.account))
    && (place.Pending() && w.deliveries[t].event.id.Some? ==>
        w.deliveries[t].event.id.value !in w.claims && IdFree(w.deliveries, t, w.deliveries[t].event.id))
    && ReadOk(place, w.log, w.now + 1)
  }

  lemma MovedRows(deliveries: seq<Delivery>, t: nat, d: Delivery)
    requires RowsExclusive(deliveries) && t < |deliveries|
    requires d.place.LockedRow().Some? ==> RowFree(deliveries, t, d.place.account)
    ensures RowsExclusive(deliveries[t := d])
  {
  }

  lemma MovedClaims(deliveries: seq<Delivery>, claims: set<string>, t: nat, d: Delivery)
    requires ClaimsExclusive(deliveries, claims) && t < |deliveries| && d.event == deliveries[t].event
    requires d.place.Pending() && d.event.id.Some? ==> d.event.id.value !in claims && IdFree(deliveries, t, d.event.id)
    ensures ClaimsExclusive(deliveries[t := d], claims)
  {
  }

  lemma MovedReads(deliveries: seq<Delivery>, log: seq<Entry>, now: nat, t: nat, d: Delivery)
    requires ReadsOk(deliveries, log, now) && t < |deliveries| && ReadOk(d.place, log, now + 1)
    ensures ReadsOk(deliveries[t := d], log, now + 1)
  {
  }

  lemma MovedLog(w: World, t: nat, d: Delivery)
    requires t < |w.deliveries| && w.deliveries[t].place != Done(Applied) && d.place != Done(Applied)
    requires LogOk(w.log, w.deliveries, |w.accounts|, w.settings, w.now) && Once(w.log, w.deliveries)
    ensures LogOk(w.log, w.deliveries[t := d], |w.accounts|, w.settings, w.now + 1) && Once(w.log, w.deliveries[t := d])
  {
  }

  lemma MoveKeeps(w: World, first: World, t: nat, place: Place)
    requires Inv(w, first) && t < |w.deliveries| && CanMoveTo(w, t, place)
    ensures Inv(Move(w, t, place), first)
  {
    hide PlaceOk, RowsExclusive, ClaimsExclusive, LogOk, Once, ClaimsAre, LookupsOrdered, ReadsOk, ReadOk,
      RowFree, IdFree, Replayed;
    var d := w.deliveries[t].(place := place);
    MovedRows(w.deliveries, t, d);
    MovedClaims(w.deliveries, w.claims, t, d);
    MovedReads(w.deliveries, w.log, w.now, t, d);
    MovedLog(w, t, d);
  }

  /** Time passes. */
  lemma WaitKeeps(w: World, first: World, live: map<string, string>, screened: seq<Outcome>)
    requires Inv(w, first)
    ensures Inv(w.(live := live, screened := screened, now := w.now + 1), first)
  {
    hide PlacesOk, RowsExclusive, ClaimsExclusive, Once, ClaimsAre, LookupsOrdered, Replayed;
  }

  lemma ArriveKeeps(w: World, first: World, e: Event)
    requires Inv(w, first) && e.kind != Unhandled
    ensures Inv(w.(deliveries := w.deliveries + [Delivery(e, Arrived(e))], now := w.now + 1), first)
  {
    hide ClaimsAre, LookupsOrdered, Replayed;
  }

  lemma JustRead(w: World, first: World, place: Place)
    requires Inv(w, first) && (place.Checked? || place.Claimed? || place.Matched?) && place.at == w.now
    ensures ReadOk(place, w.log, w.now + 1)
  {
  }

  lemma ResolveKeeps(w: World, first: World, t: nat)
    requires Inv(w, first) && Enabled(w, Resolves(t))
    ensures Inv(Step(w, Resolves(t)), first)
  {
    var keys := w.deliveries[t].place.keys;
    if keys != [] { SelectedExists(w.accounts, keys[0]); }
    hide RowsExclusive, ClaimsExclusive, LogOk, Once, ClaimsAre, LookupsOrdered, ReadsOk, Replayed, Select;
    MoveKeeps(w, first, t, AfterQuery(w.settings, w.accounts, keys));
  }

  lemma LockKeeps(w: World, first: World, t: nat)
    requires Inv(w, first) && Enabled(w, Locks(t))
    ensures Inv(Step(w, Locks(t)), first)
  {
    hide RowsExclusive, ClaimsExclusive, LogOk, Once, ClaimsAre, LookupsOrdered, ReadsOk, Replayed, Select;
    MoveKeeps(w, first, t, Locked(w.deliveries[t].place.account));
  }

  lemma LookUpKeeps(w: World, first: World, t: nat, answered: bool)
    requires Inv(w, first) && Enabled(w, LooksUp(t, answered))
    ensures Inv(Step(w, LooksUp(t, answered)), first)
  {
    var place := Step(w, LooksUp(t, answered)).deliveries[t].place;
    if place.Checked? { JustRead(w, first, place); }
    hide ClaimsExclusive, LogOk, Once, ClaimsAre, LookupsOrdered, ReadsOk, ReadOk, Replayed, Select;
    MoveKeeps(w, first, t, place);
  }

  lemma ClaimKeeps(w: World, first: World, t: nat)
    requires Inv(w, first) && Enabled(w, Claims(t))
    ensures Inv(Step(w, Claims(t)), first)
  {
    hide ClaimsExclusive, LogOk, Once, ClaimsAre, LookupsOrdered, Replayed, Select;
    MoveKeeps(w, first, t, AfterClaim(w.deliveries[t].event, w.deliveries[t].place, w.claims));
  }

  lemma MatchKeeps(w: World, first: World, t: nat)
    requires Inv(w, first) && Enabled(w, Matches(t))
    ensures Inv(Step(w, Matches(t)), first)
  {
    var place := AfterMatch(w.accounts, w.deliveries[t].place.keys, w.now);
    if place.Matched? { JustRead(w, first, place); }
    hide RowsExclusive, LogOk, Once, ClaimsAre, LookupsOrdered, ReadsOk, ReadOk, Replayed, Select;
    MoveKeeps(w, first, t, place);
  }

  lemma FailKeeps(w: World, first: World, t: nat)
    requires Inv(w, first) && t < |w.deliveries| && !w.deliveries[t].place.Done?
    ensures Inv(Move(w, t, Done(Refused(500))), first)
  {
    hide RowsExclusive, ClaimsExclusive, LogOk, Once, ClaimsAre, LookupsOrdered, ReadsOk, Replayed;
    MoveKeeps(w, first, t, Done(Refused(500)));
  }

  // ---------------------------------------------------------------- commits

  /** The entry that a transaction commits, and the deliveries afterwards. */
  ghost predicate Committing(w: World, t: nat, entry: Entry) {
    && t < |w.deliveries| && CanCommit(w.deliveries, t, w.deliveries[t])
    && entry == EntryOf(t, w.deliveries[t].event, w.deliveries[t].place, w.now)
    && w.deliveries[t].event.id.Some?
  }

  function Settled(deliveries: seq<Delivery>, t: nat): seq<Delivery>
    requires t < |deliveries|
  {
    deliveries[t := deliveries[t].(place := Done(Applied))]
  }

  lemma CommittedLog(w: World, first: World, t: nat, entry: Entry)
    requires Inv(w, first) && Committing(w, t, entry)
    ensures LogOk(w.log + [entry], Settled(w.deliveries, t), |w.accounts|, w.settings, w.now + 1)
  {
    hide RowsExclusive, ClaimsExclusive, Once, ClaimsAre, LookupsOrdered, Replayed, RowFree;
    assert PlaceOk(w.deliveries[t], |w.accounts|, w.settings);
    assert EntryOk(entry, Settled(w.deliveries, t), |w.accounts|, w.settings, w.now + 1);
    forall e | e in w.log ensures EntryOk(e, Settled(w.deliveries, t), |w.accounts|, w.settings, w.now + 1) {
    }
  }

  lemma CommittedOnce(w: World, first: World, t: nat, entry: Entry)
    requires Inv(w, first) && Committing(w, t, entry)
    ensures Once(w.log + [entry], Settled(w.deliveries, t))
    ensures ClaimsAre(w.claims + {entry.event.id.value}, first.claims, w.log + [entry])
  {
    hide RowsExclusive, LookupsOrdered, ReadsOk, Replayed, RowFree, PlacesOk;
    forall e | e in w.log ensures e.event.id != entry.event.id && e.delivery != t {
      assert e.event.id.Some? && e.event.id.value in Ids(w.log);
    }
    assert Ids(w.log + [entry]) == Ids(w.log) + {entry.event.id.value} by {
      assert entry in w.log + [entry];
      assert forall e :: e in w.log + [entry] <==> e in w.log || e == entry;
    }
    var deliveries := Settled(w.deliveries, t);
    forall s | 0 <= s < |deliveries| && deliveries[s].place == Done(Applied)
      ensures exists e :: e in w.log + [entry] && e.delivery == s
    {
      if s != t {
        var e :| e in w.log && e.delivery == s;
        assert e in w.log + [entry];
      } else {
        assert entry in w.log + [entry];
      }
    }
  }

  lemma CommittedClaims(w: World, first: World, t: nat, entry: Entry)
    requires Inv(w, first) && Committing(w, t, entry)
    ensures ClaimsExclusive(Settled(w.deliveries, t), w.claims + {entry.event.id.value})
    ensures RowsExclusive(Settled(w.deliveries, t))
  {
    hide LogOk, Once, ClaimsAre, LookupsOrdered, ReadsOk, Replayed, PlacesOk;
  }

  lemma CommittedLookups(w: World, first: World, t: nat, entry: Entry)
    requires Inv(w, first) && Committing(w, t, entry)
    ensures LookupsOrdered(w.log + [entry])
    ensures ReadsOk(Settled(w.deliveries, t), w.log + [entry], w.now + 1)
  {
    hide ClaimsExclusive, Once, ClaimsAre, Replayed;
    assert PlaceOk(w.deliveries[t], |w.accounts|, w.settings);
    var log := w.log + [entry];
    forall i, j, a | 0 <= i < j < |log| && log[i].Checks(a) && log[j].Checks(a) ensures log[i].commitAt < log[j].at {
      if j == |w.log| { assert log[i] in w.log; }
    }
  }

  lemma CommittedBilling(w: World, first: World, t: nat, entry: Entry)
    requires Inv(w, first) && Committing(w, t, entry)
    ensures Replayed(Write(w.accounts, entry), first, w.log + [entry])
  {
    hide RowsExclusive, ClaimsExclusive, LogOk, Once, ClaimsAre, LookupsOrdered, ReadsOk, RowFree, PlacesOk;
    assert (w.log + [entry])[..|w.log|] == w.log;
    forall a | 0 <= a < |w.accounts|
      ensures BillingOf(Write(w.accounts, entry)[a]) == Replay(FirstBilling(first, a), w.log + [entry], a)
    {
      WriteIs(w.accounts, entry, a);
    }
  }

  lemma CommitKeeps(w: World, first: World, t: nat)
    requires Inv(w, first) && Enabled(w, Commits(t))
    ensures Inv(Step(w, Commits(t)), first)
  {
    var entry := EntryOf(t, w.deliveries[t].event, w.deliveries[t].place, w.now);
    if Clashes(w.accounts, entry) || w.deliveries[t].event.id.None? {
      FailKeeps(w, first, t);
    } else {
      CommittedLog(w, first, t, entry);
      CommittedOnce(w, first, t, entry);
      CommittedClaims(w, first, t, entry);
      CommittedLookups(w, first, t, entry);
      CommittedBilling(w, first, t, entry);
      hide Replayed, RowsExclusive, ClaimsExclusive, LogOk, Once, ClaimsAre, LookupsOrdered, ReadsOk, Clashes, Write, PlaceOk;
      assert PlaceOk(Settled(w.deliveries, t)[t], |w.accounts|, w.settings) by { SettledPlace(w, t); }
    }
  }

  lemma SettledPlace(w: World, t: nat)
    requires t < |w.deliveries| && PlaceOk(w.deliveries[t], |w.accounts|, w.settings)
    ensures PlaceOk(Settled(w.deliveries, t)[t], |w.accounts|, w.settings)
  {
  }

  // ---------------------------------------------------------------- installations

  lemma {:induction false} Untouched(billing: Billing, log: seq<Entry>, a: nat)
    requires forall e :: e in log ==> e.account != Some(a)
    ensures Replay(billing, log, a) == billing
  {
    if log != [] {
      assert log[|log| - 1] in log;
      Untouched(billing, log[..|log| - 1], a);
    }
  }

  lemma InstalledBilling(w: World, first: World, installation: int, org: string)
    requires Inv(w, first)
    ensures Replayed(Installed(w.accounts, installation, org), first, w.log)
  {
    hide RowsExclusive, ClaimsExclusive, Once, ClaimsAre, LookupsOrdered, ReadsOk, PlacesOk, Installed;
    var accounts := Installed(w.accounts, installation, org);
    forall a | |w.accounts| <= a < |accounts| ensures BillingOf(accounts[a]) == Replay(FirstBilling(first, a), w.log, a) {
      forall e | e in w.log ensures e.account != Some(a) {
        assert EntryOk(e, w.deliveries, |w.accounts|, w.settings, w.now);
      }
      Untouched(FirstBilling(first, a), w.log, a);
    }
  }

  lemma InstallKeeps(w: World, first: World, installation: int, org: string)
    requires Inv(w, first)
    ensures Inv(Step(w, Installs(installation, org)), first)
  {
    InstalledBilling(w, first, installation, org);
    hide RowsExclusive, ClaimsExclusive, Once, ClaimsAre, LookupsOrdered, Replayed, Installed;
  }

  lemma StepKeeps(w: World, first: World, step: Action)
    requires Inv(w, first) && Enabled(w, step)
    ensures Inv(Step(w, step), first)
  {
    hide Inv;
    match step
    case Arrives(r) =>
      if Screened(w.settings, r) == None { ArriveKeeps(w, first, r.body.value); } else { WaitKeeps(w, first, w.live, Step(w, step).screened); }
    case Resolves(t) => ResolveKeeps(w, first, t);
    case Locks(t) => LockKeeps(w, first, t);
    case LooksUp(t, answered) => LookUpKeeps(w, first, t, answered);
    case Claims(t) => ClaimKeeps(w, first, t);
    case Matches(t) => MatchKeeps(w, first, t);
    case Commits(t) => CommitKeeps(w, first, t);
    case Fails(t) => FailKeeps(w, first, t);
    case Installs(installation, org) => InstallKeeps(w, first, installation, org);
    case Changes(subscription, status) => WaitKeeps(w, first, w.live[subscription := status], w.screened);
  }

  lemma {:induction false} RunKeeps(ws: seq<World>, steps: seq<Action>, n: nat)
    requires IsRun(ws, steps) && n < |ws|
    ensures Inv(ws[n], ws[0]) && ws[n].now == n
  {
    if n > 0 {
      RunKeeps(ws, steps, n - 1);
      StepKeeps(ws[n - 1], ws[0], steps[n - 1]);
      hide Inv;
    }
  }
}
