/** What every interleaving of deliveries guarantees about accounts, claimed events and Stripe's live status. */
module StripeGuarantees {
  import opened OrderedDict
  import opened StripeWebhooks
  import opened StripeRuns

  // ---------------------------------------------------------------- exactly once

  /**
   * The tier and customer id of every account are the result of the committed transactions one
   * after another; each of these is the one transaction of an acknowledged delivery, and no two are
   * of the same event. So an event takes effect at most once, and a refused delivery has no effect.
   */
  lemma AppliedExactlyOnce(ws: seq<World>, steps: seq<Action>, n: nat)
    requires IsRun(ws, steps) && n < |ws|
    ensures var w := ws[n];
      && (forall a :: 0 <= a < |w.accounts| ==> BillingOf(w.accounts[a]) == Replay(FirstBilling(ws[0], a), w.log, a))
      && w.claims == ws[0].claims + Ids(w.log) && Ids(w.log) !! ws[0].claims
      && (forall i, j :: 0 <= i < j < |w.log| ==>
          w.log[i].event.id != w.log[j].event.id && w.log[i].delivery != w.log[j].delivery)
      && (forall e :: e in w.log ==> e.delivery < |w.deliveries| && w.deliveries[e.delivery] == Delivery(e.event, Done(Applied)))
      && (forall t :: 0 <= t < |w.deliveries| && w.deliveries[t].place == Done(Applied) ==> exists e :: e in w.log && e.delivery == t)
  {
    hide IsRun, PlacesOk, RowsExclusive, ClaimsExclusive, LookupsOrdered, ReadsOk, Replay, Ids;
    RunKeeps(ws, steps, n);
    forall e | e in ws[n].log
      ensures e.delivery < |ws[n].deliveries| && ws[n].deliveries[e.delivery] == Delivery(e.event, Done(Applied))
    {
      assert EntryOk(e, ws[n].deliveries, |ws[n].accounts|, ws[n].settings, ws[n].now);
    }
  }

  /** Success is answered, to an event that has an id, only once the event has been applied. */
  ghost predicate Acknowledged(deliveries: seq<Delivery>, claims: set<string>) {
    forall t :: 0 <= t < |deliveries| && deliveries[t].event.id.Some? && deliveries[t].place in {Done(Applied), Done(Ignored)} ==>
      deliveries[t].event.id.value in claims
  }

  lemma {:induction false} AcknowledgedMeansApplied(ws: seq<World>, steps: seq<Action>, n: nat)
    requires IsRun(ws, steps) && n < |ws|
    ensures Acknowledged(ws[n].deliveries, ws[n].claims)
    ensures forall t :: 0 <= t < |ws[n].deliveries| && ws[n].deliveries[t].place == Done(Ignored) && ws[n].deliveries[t].event.id.Some? ==>
      ws[n].deliveries[t].event.id.value in ws[0].claims || exists e :: e in ws[n].log && e.event.id == ws[n].deliveries[t].event.id
  {
    if n > 0 {
      AcknowledgedMeansApplied(ws, steps, n - 1);
      StaysAcknowledged(ws[n - 1], steps[n - 1]);
      hide Step;
    }
    RunKeeps(ws, steps, n);
    hide IsRun, PlacesOk, RowsExclusive, ClaimsExclusive, LookupsOrdered, LogOk, Once, ReadsOk, Replay;
  }

  lemma StaysAcknowledged(w: World, step: Action)
    requires Enabled(w, step) && Acknowledged(w.deliveries, w.claims)
    ensures Acknowledged(Step(w, step).deliveries, Step(w, step).claims)
  {
    hide Select, Clashes, Write, RowFree, IdFree, Installed;
  }

  /** An event without an id never takes effect, whatever it says. */
  lemma MissingIdNeverApplied(ws: seq<World>, steps: seq<Action>, n: nat, t: nat)
    requires IsRun(ws, steps) && n < |ws| && t < |ws[n].deliveries| && ws[n].deliveries[t].event.id.None?
    ensures !ws[n].deliveries[t].place.Pending() && ws[n].deliveries[t].place != Done(Applied)
    ensures forall e :: e in ws[n].log ==> e.delivery != t && e.event.id.Some?
  {
    hide IsRun, RowsExclusive, ClaimsExclusive, LookupsOrdered, ReadsOk, Replayed, ClaimsAre;
    RunKeeps(ws, steps, n);
    var w := ws[n];
    assert PlaceOk(w.deliveries[t], |w.accounts|, w.settings);
    forall e | e in w.log ensures e.delivery != t && e.event.id.Some? {
      assert EntryOk(e, w.deliveries, |w.accounts|, w.settings, w.now);
    }
  }

  /** Stripe's answer is needed, and there is none. */
  predicate LookupFails(w: World, d: Delivery, answered: bool) {
    d.event.data.subscription.Some? && w.settings.key && (!answered || Answer(w, d.event).None?)
  }

  /** What the last query for the account of a delivery finds. */
  function LastFound(w: World, keys: seq<Key>): Option<Found> {
    var found := if keys == [] then NoRow else Select(w.accounts, keys[0]);
    if found.NoRow? && |keys| > 1 then None else Some(found)
  }

  /** A checkout's customer id, for an account that it read without one, is taken by another account. */
  ghost predicate Taken(accounts: seq<Account>, d: Delivery) {
    && d.place.Matched? && d.place.known.Some? && d.place.seen.None? && d.event.data.customer.Some?
    && exists b :: 0 <= b < |accounts| && b != d.place.known.value && accounts[b].customer == d.event.data.customer
  }

  /** The step that answers a delivery says why. */
  ghost predicate AnsweredFor(w: World, step: Action, t: nat, d: Delivery, place: Place)
    requires d.place.Unmatched? || d.place.Querying? || !(step == Resolves(t) || step == Matches(t))
  {
    && (place == Done(Ignored) <==> step == Claims(t) && (d.event.id.None? || d.event.id.value in w.claims))
    && (place == Done(Applied) <==> step == Commits(t) && !Taken(w.accounts, d))
    && (place == Done(Refused(400)) <==>
        || (step == Resolves(t) && LastFound(w, d.place.keys) == Some(NoRow))
        || (step.LooksUp? && step.t == t && LookupFails(w, d, step.answered)))
    && (place == Done(Refused(500)) <==>
        || step == Fails(t)
        || (step == Commits(t) && Taken(w.accounts, d))
        || (step == Matches(t) && LastFound(w, d.place.keys) == Some(SeveralRows))
        || (step == Resolves(t)
            && (LastFound(w, d.place.keys) == Some(SeveralRows)
                || (LastFound(w, d.place.keys).Some? && LastFound(w, d.place.keys).value.Row?
                    && w.settings.production && !w.settings.key))))
  }

  /**
   * A delivery ends with success and no effect exactly when its event, or nothing, is claimed; it is
   * applied exactly when it commits a customer id that is not taken, or none; it is refused with 400
   * exactly when no account matches or the lookup fails, and with 500 exactly when several match, a
   * customer id is taken, production has no API key, or the transaction fails.
   */
  lemma DeliveryIsAnswered(ws: seq<World>, steps: seq<Action>, n: nat, t: nat)
    requires IsRun(ws, steps) && n < |steps| && t < |ws[n].deliveries| && !ws[n].deliveries[t].place.Done?
    ensures t < |ws[n + 1].deliveries|
    ensures (steps[n] == Resolves(t) ==> ws[n].deliveries[t].place.Querying?)
      && (steps[n] == Matches(t) ==> ws[n].deliveries[t].place.Unmatched?)
      && AnsweredFor(ws[n], steps[n], t, ws[n].deliveries[t], ws[n + 1].deliveries[t].place)
  {
    RunKeeps(ws, steps, n);
    var w := ws[n];
    assert PlaceOk(w.deliveries[t], |w.accounts|, w.settings);
    assert Enabled(w, steps[n]) && ws[n + 1] == Step(w, steps[n]);
    hide IsRun, Inv, Step;
    if steps[n] == Matches(t) && w.deliveries[t].place.keys != [] { SelectedExists(w.accounts, w.deliveries[t].place.keys[0]); }
    StepAnswers(w, steps[n], t);
  }

  lemma StepAnswers(w: World, step: Action, t: nat)
    requires Enabled(w, step) && t < |w.deliveries| && !w.deliveries[t].place.Done?
    requires PlaceOk(w.deliveries[t], |w.accounts|, w.settings)
    requires step == Matches(t) && w.deliveries[t].place.keys != [] ==>
      var r := Select(w.accounts, w.deliveries[t].place.keys[0]); r.Row? ==> r.account < |w.accounts|
    ensures t < |Step(w, step).deliveries|
    ensures AnsweredFor(w, step, t, w.deliveries[t], Step(w, step).deliveries[t].place)
  {
    hide Select, Write, RowFree, IdFree, Installed;
  }

  lemma OnlyTheseOutcomes(w: World, step: Action, t: nat)
    requires Enabled(w, step) && t < |w.deliveries| && !w.deliveries[t].place.Done?
    ensures t < |Step(w, step).deliveries|
    ensures var place := Step(w, step).deliveries[t].place;
      place.Done? ==> place.outcome in {Applied, Ignored, Refused(400), Refused(500)}
  {
    hide Select, Write, RowFree, IdFree, Installed, Clashes;
  }

  /**
   * So an event without an id is answered with success, although nothing was done, if and only if it
   * gets as far as claiming; and with 400 or 500 otherwise.
   */
  lemma MissingIdIsAnswered(ws: seq<World>, steps: seq<Action>, n: nat, t: nat)
    requires IsRun(ws, steps) && n < |steps| && t < |ws[n].deliveries| && ws[n].deliveries[t].event.id.None?
    requires !ws[n].deliveries[t].place.Done?
    ensures t < |ws[n + 1].deliveries|
    ensures var place := ws[n + 1].deliveries[t].place;
      && (place == Done(Ignored) <==> steps[n] == Claims(t))
      && (place.Done? ==> place.outcome in {Ignored, Refused(400), Refused(500)})
      && place != Done(Applied)
  {
    DeliveryIsAnswered(ws, steps, n, t);
    RunKeeps(ws, steps, n);
    assert PlaceOk(ws[n].deliveries[t], |ws[n].accounts|, ws[n].settings);
    assert Enabled(ws[n], steps[n]) && ws[n + 1] == Step(ws[n], steps[n]);
    hide IsRun, Inv;
    OnlyTheseOutcomes(ws[n], steps[n], t);
    hide Step;
  }

  // ---------------------------------------------------------------- tiers

  function LastCheck(log: seq<Entry>, a: nat): Option<Entry> {
    if log == [] then None
    else
      var e := log[|log| - 1];
      if e.Checks(a) then Some(e) else LastCheck(log[..|log| - 1], a)
  }

  lemma {:induction false} ReplayedTier(billing: Billing, log: seq<Entry>, a: nat)
    ensures var tier := Replay(billing, log, a).tier;
      match LastCheck(log, a)
      case None => tier == billing.tier
      case Some(e) =>
        && (!Grants(e.Status()) ==> tier == Free)
        && (Grants(e.Status()) && e.event.kind != Deleted ==> tier == Premium)
  {
    if log != [] { ReplayedTier(billing, log[..|log| - 1], a); }
  }

  /**
   * A free account became premium only by the last lookup committed for it being active or
   * trialing, and an account whose last committed lookup is not is free.
   */
  lemma TierFollowsLastLookup(ws: seq<World>, steps: seq<Action>, n: nat, a: nat)
    requires IsRun(ws, steps) && n < |ws| && a < |ws[n].accounts|
    ensures var tier := ws[n].accounts[a].tier;
      match LastCheck(ws[n].log, a)
      case None => tier == FirstBilling(ws[0], a).tier
      case Some(e) =>
        var active := e.Status() == Some("active") || e.Status() == Some("trialing");
        && (tier == Premium ==> active)
        && (!active ==> tier == Free)
        && (active && e.event.kind != Deleted ==> tier == Premium)
  {
    hide IsRun, PlacesOk, RowsExclusive, ClaimsExclusive, LookupsOrdered, LogOk, Once, ReadsOk, Replay, ClaimsAre, LastCheck;
    RunKeeps(ws, steps, n);
    ReplayedTier(FirstBilling(ws[0], a), ws[n].log, a);
  }

  /** Lookups for an account take effect in the order they were made: each is made after the one before is committed. */
  lemma LookupsCommitInOrder(ws: seq<World>, steps: seq<Action>, n: nat, i: nat, j: nat, a: nat)
    requires IsRun(ws, steps) && n < |ws| && i < |ws[n].log| && j < |ws[n].log|
    requires ws[n].log[i].Checks(a) && ws[n].log[j].Checks(a)
    ensures ws[n].log[i].at < ws[n].log[i].commitAt
    ensures i < j <==> ws[n].log[i].commitAt < ws[n].log[j].at
  {
    hide IsRun, PlacesOk, RowsExclusive, ClaimsExclusive, Once, ReadsOk, Replay, ClaimsAre;
    RunKeeps(ws, steps, n);
    var e, f := ws[n].log[i], ws[n].log[j];
    assert EntryOk(e, ws[n].deliveries, |ws[n].accounts|, ws[n].settings, ws[n].now);
    assert EntryOk(f, ws[n].deliveries, |ws[n].accounts|, ws[n].settings, ws[n].now);
  }

  // ---------------------------------------------------------------- what was read is true

  /** The status looked up was live, and the customer id read was committed, at that moment. */
  ghost predicate ReadTrue(past: World, e: Event, known: Option<nat>, found: Option<string>, seen: Option<string>) {
    && (found.Some? ==>
        && e.data.subscription.Some? && e.data.subscription.value in past.live
        && found == Some(past.live[e.data.subscription.value]))
    && (e.kind == CheckoutCompleted && known.Some? ==>
        known.value < |past.accounts| && seen == past.accounts[known.value].customer)
  }

  ghost predicate PlaceTrue(ws: seq<World>, n: nat, d: Delivery)
    requires n < |ws|
  {
    && (d.place.Checked? || d.place.Claimed? ==>
        d.event.kind.Subscription() && d.place.at < n && ReadTrue(ws[d.place.at], d.event, None, d.place.found, None))
    && (d.place.Matched? ==> d.place.at < n && ReadTrue(ws[d.place.at], d.event, d.place.known, None, d.place.seen))
  }

  ghost predicate EntryTrue(ws: seq<World>, n: nat, e: Entry)
    requires n < |ws|
  {
    && e.at < n && ReadTrue(ws[e.at], e.event, e.account, e.found, e.seen)
    && e.commitAt < n && ws[e.commitAt + 1].accounts == Write(ws[e.commitAt].accounts, e)
    && (e.account.Some? ==> e.account.value < |ws[e.commitAt].accounts|)
  }

  ghost predicate AllTrue(ws: seq<World>, n: nat)
    requires n < |ws|
  {
    && (forall t :: 0 <= t < |ws[n].deliveries| ==> PlaceTrue(ws, n, ws[n].deliveries[t]))
    && (forall e :: e in ws[n].log ==> EntryTrue(ws, n, e))
  }

  lemma ReadsAreTrue(w: World, first: World, step: Action, t: nat)
    requires Inv(w, first) && Enabled(w, step) && (step.Claims? || step.LooksUp? || step.Matches?) && step.t == t
    ensures var d := Step(w, step).deliveries[t];
      && ((d.place.Checked? || d.place.Claimed?) && step.LooksUp? ==>
          d.event.kind.Subscription() && d.place.at == w.now && ReadTrue(w, d.event, None, d.place.found, None))
      && (d.place.Matched? ==> step.Matches? && d.place.at == w.now && ReadTrue(w, d.event, d.place.known, None, d.place.seen))
  {
    if step.Matches? && w.deliveries[t].place.keys != [] { SelectedExists(w.accounts, w.deliveries[t].place.keys[0]); }
    assert PlaceOk(w.deliveries[t], |w.accounts|, w.settings);
    hide Select, IdFree, RowFree, Installed;
  }

  lemma {:induction false} RunIsTrue(ws: seq<World>, steps: seq<Action>, n: nat)
    requires IsRun(ws, steps) && n < |ws|
    ensures AllTrue(ws, n)
  {
    if n > 0 {
      RunIsTrue(ws, steps, n - 1);
      RunKeeps(ws, steps, n - 1);
      StepIsTrue(ws, n, ws[0], steps[n - 1]);
    }
  }

  lemma StepIsTrue(ws: seq<World>, n: nat, first: World, step: Action)
    requires 0 < n < |ws| && Inv(ws[n - 1], first) && ws[n - 1].now == n - 1
    requires Enabled(ws[n - 1], step) && ws[n] == Step(ws[n - 1], step) && AllTrue(ws, n - 1)
    ensures AllTrue(ws, n)
  {
    hide ReadTrue;
    var w := ws[n - 1];
    if step.Commits? {
      CommitIsTrue(ws, n, first, step.t);
    } else {
      assert ws[n].log == w.log by { hide AllTrue, Inv, AfterQuery, AfterLookup, AfterClaim, AfterMatch; }
      forall e | e in w.log ensures EntryTrue(ws, n, e) {
        assert EntryTrue(ws, n - 1, e);
      }
      forall t | 0 <= t < |ws[n].deliveries| ensures PlaceTrue(ws, n, ws[n].deliveries[t]) {
        hide Inv;
        if t < |w.deliveries| { assert PlaceTrue(ws, n - 1, w.deliveries[t]); }
        if (step.Claims? || step.LooksUp? || step.Matches?) && step.t == t { ReadsAreTrue(w, first, step, t); }
        hide Select, IdFree, RowFree, Installed;
      }
    }
  }

  lemma CommitIsTrue(ws: seq<World>, n: nat, first: World, t: nat)
    requires 0 < n < |ws| && Inv(ws[n - 1], first) && ws[n - 1].now == n - 1
    requires Enabled(ws[n - 1], Commits(t)) && ws[n] == Step(ws[n - 1], Commits(t)) && AllTrue(ws, n - 1)
    ensures AllTrue(ws, n)
  {
    hide ReadTrue, Write, Clashes, RowFree, Replay, LogOk, ClaimsAre, Once, LookupsOrdered, ReadsOk;
    var w, d := ws[n - 1], ws[n - 1].deliveries[t];
    assert PlaceTrue(ws, n - 1, d) && PlaceOk(d, |w.accounts|, w.settings);
    var entry := EntryOf(t, d.event, d.place, w.now);
    if d.place.Claimed? { ClaimedTrue(ws[entry.at], d.event, entry); }
    assert EntryTrue(ws, n, entry) || ws[n].log == w.log;
    forall e | e in w.log ensures EntryTrue(ws, n, e) {
      assert EntryTrue(ws, n - 1, e);
    }
    forall s | 0 <= s < |ws[n].deliveries| ensures PlaceTrue(ws, n, ws[n].deliveries[s]) {
      assert PlaceTrue(ws, n - 1, w.deliveries[s]);
    }
  }

  lemma ClaimedTrue(past: World, e: Event, entry: Entry)
    requires e.kind.Subscription() && ReadTrue(past, e, None, entry.found, None)
    ensures ReadTrue(past, e, entry.account, entry.found, entry.seen)
  {
  }

  /** A lookup committed in production, or with the API key, saw the status that was live at that moment. */
  lemma LookupsAreTrue(ws: seq<World>, steps: seq<Action>, n: nat, e: Entry)
    requires IsRun(ws, steps) && n < |ws| && e in ws[n].log && e.event.kind.Subscription()
    requires (ws[n].settings.key || ws[n].settings.production) && e.event.data.subscription.Some?
    ensures e.at < n
    ensures e.event.data.subscription.value in ws[e.at].live
    ensures e.Status() == Some(ws[e.at].live[e.event.data.subscription.value])
  {
    hide IsRun, PlacesOk, RowsExclusive, ClaimsExclusive, Once, ReadsOk, Replay, ClaimsAre, LookupsOrdered;
    RunKeeps(ws, steps, n);
    RunIsTrue(ws, steps, n);
    assert EntryOk(e, ws[n].deliveries, |ws[n].accounts|, ws[n].settings, ws[n].now);
    assert EntryTrue(ws, n, e);
  }

  /** In production the status in an event's body is trusted exactly when the event names no subscription. */
  lemma BodyTrustedWithoutSubscription(ws: seq<World>, steps: seq<Action>, n: nat, e: Entry)
    requires IsRun(ws, steps) && n < |ws| && ws[n].settings.production
    requires e in ws[n].log && e.event.kind.Subscription()
    ensures e.found.None? <==> e.event.data.subscription.None?
    ensures e.found.None? ==> e.Status() == e.event.data.status
  {
    hide IsRun, PlacesOk, RowsExclusive, ClaimsExclusive, Once, ReadsOk, Replay, ClaimsAre, LookupsOrdered;
    RunKeeps(ws, steps, n);
    RunIsTrue(ws, steps, n);
    assert EntryOk(e, ws[n].deliveries, |ws[n].accounts|, ws[n].settings, ws[n].now);
    assert EntryTrue(ws, n, e);
  }

  /** Entries after a committed lookup of a settled status change nothing about the tier. */
  lemma {:induction false} TierStays(billing: Billing, log: seq<Entry>, a: nat, j: nat, status: string)
    requires j < |log| && log[j].Checks(a) && log[j].event.kind != Deleted
    requires forall i :: j <= i < |log| && log[i].Checks(a) ==> log[i].Status() == Some(status)
    ensures Replay(billing, log, a).tier == TierFor(Some(status))
  {
    if j < |log| - 1 {
      var rest := log[..|log| - 1];
      assert rest[j] == log[j];
      TierStays(billing, rest, a, j, status);
    }
  }

  /**
   * Once the live status has settled, the first committed created or updated event that looked it
   * up afterwards sets the account's tier to match, and no later event undoes that.
   */
  lemma SettledTierConverges(ws: seq<World>, steps: seq<Action>, m: nat, n: nat, j: nat, a: nat, subscription: string, status: string)
    requires IsRun(ws, steps) && m <= n < |ws| && (ws[n].settings.key || ws[n].settings.production)
    requires forall i :: m <= i <= n ==> subscription in ws[i].live && ws[i].live[subscription] == status
    requires j < |ws[n].log| && ws[n].log[j].Checks(a) && ws[n].log[j].event.kind != Deleted && ws[n].log[j].at >= m
    requires forall e :: e in ws[n].log && e.Checks(a) ==> e.event.data.subscription == Some(subscription)
    ensures a < |ws[n].accounts|
    ensures ws[n].accounts[a].tier == if status == "active" || status == "trialing" then Premium else Free
  {
    hide IsRun, PlacesOk, RowsExclusive, ClaimsExclusive, Once, ReadsOk, Replay, ClaimsAre, LookupsOrdered;
    RunKeeps(ws, steps, n);
    var log := ws[n].log;
    assert EntryOk(log[j], ws[n].deliveries, |ws[n].accounts|, ws[n].settings, ws[n].now);
    forall i | j <= i < |log| && log[i].Checks(a) ensures log[i].Status() == Some(status) {
      if i > j { LookupsCommitInOrder(ws, steps, n, j, i, a); LookupsCommitInOrder(ws, steps, n, i, j, a); }
      LookupsAreTrue(ws, steps, n, log[i]);
      hide Inv;
    }
    TierStays(FirstBilling(ws[0], a), log, a, j, status);
  }

  // ---------------------------------------------------------------- customer ids

  predicate StoredFor(log: seq<Entry>, e: Entry, a: nat) {
    e in log && e.StoresFor(a)
  }

  /** Two checkouts overlap: the later to commit read the account before the earlier one stored its customer id. */
  predicate Overlap(log: seq<Entry>, e: Entry, f: Entry, a: nat) {
    StoredFor(log, e, a) && StoredFor(log, f, a) && e.at <= f.commitAt < e.commitAt
  }

  /** A customer id, once stored for an account, is never replaced in this run. */
  ghost predicate CustomersStay(ws: seq<World>) {
    forall i, k, a :: 0 <= i <= k < |ws| && 0 <= a < |ws[i].accounts| && a < |ws[k].accounts| && ws[i].accounts[a].customer.Some? ==>
      ws[k].accounts[a].customer == ws[i].accounts[a].customer
  }

  ghost predicate OverlapsAgree(log: seq<Entry>) {
    forall e, f, a :: Overlap(log, e, f, a) ==> e.event.data.customer == f.event.data.customer
  }

  lemma StepGrows(w: World, step: Action)
    requires Enabled(w, step)
    ensures |Step(w, step).accounts| >= |w.accounts|
    ensures forall e :: e in w.log ==> e in Step(w, step).log
    ensures Step(w, step).settings == w.settings
  {
    hide Select, Clashes, RowFree, IdFree, Installed;
  }

  lemma {:induction false} LogGrows(ws: seq<World>, steps: seq<Action>, i: nat, k: nat)
    requires IsRun(ws, steps) && i <= k < |ws|
    ensures |ws[k].accounts| >= |ws[i].accounts|
    ensures forall e :: e in ws[i].log ==> e in ws[k].log
  {
    if i < k {
      LogGrows(ws, steps, i, k - 1);
      StepGrows(ws[k - 1], steps[k - 1]);
      hide Step;
    }
  }

  /** Only a checkout that read the account before it had a customer id changes the id. */
  lemma CustomerChange(w: World, step: Action, a: nat)
    requires Enabled(w, step) && a < |w.accounts|
    ensures |Step(w, step).accounts| >= |w.accounts|
    ensures Step(w, step).accounts[a].customer != w.accounts[a].customer ==>
      && step.Commits?
      && Step(w, step).log != [] && var e := Step(w, step).log[|Step(w, step).log| - 1];
      && e.StoresFor(a) && e.commitAt == w.now && Step(w, step).accounts[a].customer == e.event.data.customer
  {
    hide Select, Clashes, RowFree, IdFree, Installed;
    StepGrows(w, step);
  }

  lemma {:induction false} StoredBy(ws: seq<World>, steps: seq<Action>, m: nat, n: nat, a: nat) returns (f: Entry)
    requires IsRun(ws, steps) && m <= n < |ws| && a < |ws[m].accounts| && a < |ws[n].accounts|
    requires ws[n].accounts[a].customer != ws[m].accounts[a].customer
    ensures f in ws[n].log && f.StoresFor(a) && m <= f.commitAt < n && f.event.data.customer == ws[n].accounts[a].customer
    decreases n
  {
    hide Enabled, Step, Entry.StoresFor;
    assert Enabled(ws[n - 1], steps[n - 1]) && ws[n] == Step(ws[n - 1], steps[n - 1]);
    LogGrows(ws, steps, m, n - 1);
    CustomerChange(ws[n - 1], steps[n - 1], a);
    RunKeeps(ws, steps, n - 1);
    hide Inv;
    if ws[n].accounts[a].customer == ws[n - 1].accounts[a].customer {
      f := StoredBy(ws, steps, m, n - 1, a);
      LogGrows(ws, steps, n - 1, n);
    } else {
      f := ws[n].log[|ws[n].log| - 1];
    }
  }

  lemma {:induction false} CustomerStays(ws: seq<World>, steps: seq<Action>, i: nat, k: nat, a: nat)
    requires IsRun(ws, steps) && i <= k < |ws| && OverlapsAgree(ws[|steps|].log)
    requires a < |ws[i].accounts| && a < |ws[k].accounts| && ws[i].accounts[a].customer.Some?
    ensures ws[k].accounts[a].customer == ws[i].accounts[a].customer
    decreases k
  {
    if i < k {
      hide IsRun, OverlapsAgree;
      LogGrows(ws, steps, i, k - 1);
      CustomerStays(ws, steps, i, k - 1, a);
      if ws[k].accounts[a].customer != ws[k - 1].accounts[a].customer {
        var e, f := ChangeOverlaps(ws, steps, k, a);
        AgreeWhenOverlapping(ws[|steps|].log, e, f, a);
      }
    }
  }

  /** A step that replaces a customer id commits a checkout that overlaps the one that stored it. */
  lemma ChangeOverlaps(ws: seq<World>, steps: seq<Action>, k: nat, a: nat) returns (e: Entry, f: Entry)
    requires IsRun(ws, steps) && 0 < k < |ws| && a < |ws[k].accounts| && a < |ws[k - 1].accounts|
    requires ws[k - 1].accounts[a].customer.Some? && ws[k].accounts[a].customer != ws[k - 1].accounts[a].customer
    ensures var log := ws[|steps|].log; e in log && f in log && e.StoresFor(a) && f.StoresFor(a)
    ensures e.at <= f.commitAt < e.commitAt
    ensures e.event.data.customer == ws[k].accounts[a].customer && f.event.data.customer == ws[k - 1].accounts[a].customer
  {
    hide Step, Enabled, Inv, Write;
    e := Changed(ws, steps, k, a);
    ReadIsOld(ws, steps, k, e);
    LogGrows(ws, steps, k - 1, k);
    LogGrows(ws, steps, e.at, k - 1);
    f := StoredBy(ws, steps, e.at, k - 1, a);
    LogGrows(ws, steps, k - 1, |steps|);
    LogGrows(ws, steps, k, |steps|);
  }

  lemma Changed(ws: seq<World>, steps: seq<Action>, k: nat, a: nat) returns (e: Entry)
    requires IsRun(ws, steps) && 0 < k < |ws| && a < |ws[k].accounts| && a < |ws[k - 1].accounts|
    requires ws[k].accounts[a].customer != ws[k - 1].accounts[a].customer
    ensures e in ws[k].log && e.StoresFor(a) && e.commitAt == k - 1 && e.event.data.customer == ws[k].accounts[a].customer
    ensures e.at < k && a < |ws[e.at].accounts| && ws[e.at].accounts[a].customer == None
  {
    hide Step, Enabled, Write;
    assert Enabled(ws[k - 1], steps[k - 1]) && ws[k] == Step(ws[k - 1], steps[k - 1]);
    CustomerChange(ws[k - 1], steps[k - 1], a);
    RunKeeps(ws, steps, k - 1);
    hide Inv;
    e := ws[k].log[|ws[k].log| - 1];
    RunIsTrue(ws, steps, k);
    assert EntryTrue(ws, k, e);
    hide IsRun;
  }

  lemma AgreeWhenOverlapping(log: seq<Entry>, e: Entry, f: Entry, a: nat)
    requires OverlapsAgree(log) && e in log && f in log && e.StoresFor(a) && f.StoresFor(a) && e.at <= f.commitAt < e.commitAt
    ensures e.event.data.customer == f.event.data.customer
  {
    assert Overlap(log, e, f, a);
  }

  lemma ReadIsOld(ws: seq<World>, steps: seq<Action>, k: nat, e: Entry)
    requires IsRun(ws, steps) && k < |ws| && e in ws[k].log
    ensures e.at < e.commitAt < k && (e.account.Some? ==> e.account.value < |ws[k].accounts|)
  {
    RunKeeps(ws, steps, k);
    assert EntryOk(e, ws[k].deliveries, |ws[k].accounts|, ws[k].settings, ws[k].now);
  }

  lemma OverlapReplaces(ws: seq<World>, steps: seq<Action>, e: Entry, f: Entry, a: nat)
    requires IsRun(ws, steps) && Overlap(ws[|steps|].log, e, f, a) && e.event.data.customer != f.event.data.customer
    ensures !CustomersStay(ws)
  {
    var n := |steps|;
    RunIsTrue(ws, steps, n);
    assert EntryTrue(ws, n, e) && EntryTrue(ws, n, f);
    ReadIsOld(ws, steps, n, e);
    ReadIsOld(ws, steps, n, f);
    LogGrows(ws, steps, e.commitAt, n);
    LogGrows(ws, steps, f.commitAt, n);
    assert ws[f.commitAt + 1].accounts[a].customer == f.event.data.customer;
    assert ws[e.commitAt + 1].accounts[a].customer == e.event.data.customer;
  }

  /**
   * Stored customer ids never change in a run if and only if no two checkouts of one account that
   * overlap carry different customer ids.
   */
  lemma StoredCustomerStays(ws: seq<World>, steps: seq<Action>)
    requires IsRun(ws, steps)
    ensures CustomersStay(ws) <==> OverlapsAgree(ws[|steps|].log)
  {
    if OverlapsAgree(ws[|steps|].log) {
      forall i, k, a | 0 <= i <= k < |ws| && 0 <= a < |ws[i].accounts| && a < |ws[k].accounts| && ws[i].accounts[a].customer.Some?
        ensures ws[k].accounts[a].customer == ws[i].accounts[a].customer
      {
        CustomerStays(ws, steps, i, k, a);
      }
    } else {
      var e, f, a :| Overlap(ws[|steps|].log, e, f, a) && e.event.data.customer != f.event.data.customer;
      OverlapReplaces(ws, steps, e, f, a);
    }
  }

  function Checkout(id: string, customer: string): Event {
    Event(Some(id), CheckoutCompleted, Data(Some(1), None, Some(customer), None, None))
  }

  function OneAccount(customer: Option<string>): seq<Account> {
    [Account(1, "o", Free, customer)]
  }

  function Shop(customer: Option<string>, claims: set<string>, deliveries: seq<Delivery>, log: seq<Entry>, now: nat): World {
    World(Settings(false, false, false), OneAccount(customer), claims, map[], deliveries, [], log, now)
  }

  function Two(first: Place, second: Place): seq<Delivery> {
    [Delivery(Checkout("a", "x"), first), Delivery(Checkout("b", "y"), second)]
  }

  const FIRST_READ := Matched(Some(0), None, 4)
  const SECOND_READ := Matched(Some(0), None, 5)

  lemma BothArrive()
    ensures var r, s := Arrives(Request(true, Some(Checkout("a", "x")))), Arrives(Request(true, Some(Checkout("b", "y"))));
      var w := Shop(None, {}, [], [], 0);
      var w' := Shop(None, {}, [Delivery(Checkout("a", "x"), Received)], [], 1);
      && Enabled(w, r) && Step(w, r) == w'
      && Enabled(w', s) && Step(w', s) == Shop(None, {}, Two(Received, Received), [], 2)
  {
  }

  lemma BothClaim()
    ensures var w := Shop(None, {}, Two(Received, Received), [], 2);
      var w' := Shop(None, {}, Two(Unmatched(KeysOf(Checkout("a", "x").data)), Received), [], 3);
      && Enabled(w, Claims(0)) && Step(w, Claims(0)) == w'
      && Enabled(w', Claims(1)) && Step(w', Claims(1)) == Shop(None, {}, Two(Unmatched(KeysOf(Checkout("a", "x").data)), Unmatched(KeysOf(Checkout("b", "y").data))), [], 4)
  {
    assert "a"[0] != "b"[0];
  }

  lemma BothMatch()
    ensures var w := Shop(None, {}, Two(Unmatched(KeysOf(Checkout("a", "x").data)), Unmatched(KeysOf(Checkout("b", "y").data))), [], 4);
      var w' := Shop(None, {}, Two(FIRST_READ, Unmatched(KeysOf(Checkout("b", "y").data))), [], 5);
      && Enabled(w, Matches(0)) && Step(w, Matches(0)) == w'
      && Enabled(w', Matches(1)) && Step(w', Matches(1)) == Shop(None, {}, Two(FIRST_READ, SECOND_READ), [], 6)
  {
    var accounts := OneAccount(None);
    assert accounts[..0] == [] && Rows(accounts, ByInstallation(1)) == [0];
    assert KeysOf(Checkout("a", "x").data)[0] == ByInstallation(1) && KeysOf(Checkout("b", "y").data)[0] == ByInstallation(1);
    hide KeysOf, Rows;
  }

  lemma BothCommit()
    ensures var e, f := Checkout("a", "x"), Checkout("b", "y");
      var log := [EntryOf(0, e, FIRST_READ, 6)];
      var w := Shop(None, {}, Two(FIRST_READ, SECOND_READ), [], 6);
      var w' := Shop(Some("x"), {"a"}, Two(Done(Applied), SECOND_READ), log, 7);
      && Enabled(w, Commits(0)) && Step(w, Commits(0)) == w'
      && Enabled(w', Commits(1)) && Step(w', Commits(1)).accounts == OneAccount(Some("y"))
  {
  }

  /** Two overlapping checkouts of one account: the second replaces the customer id of the first. */
  lemma StoredCustomerCanChange() returns (ws: seq<World>, steps: seq<Action>)
    ensures IsRun(ws, steps) && !CustomersStay(ws)
  {
    hide Enabled, Step;
    BothArrive();
    BothClaim();
    BothMatch();
    BothCommit();
    steps := [Arrives(Request(true, Some(Checkout("a", "x")))), Arrives(Request(true, Some(Checkout("b", "y")))),
              Claims(0), Claims(1), Matches(0), Matches(1), Commits(0), Commits(1)];
    var start := Shop(None, {}, [], [], 0);
    var arrived := Shop(None, {}, [Delivery(Checkout("a", "x"), Received)], [], 1);
    var stored := Shop(Some("x"), {"a"}, Two(Done(Applied), SECOND_READ), [EntryOf(0, Checkout("a", "x"), FIRST_READ, 6)], 7);
    ws := [start, arrived, Shop(None, {}, Two(Received, Received), [], 2), Shop(None, {}, Two(Unmatched(KeysOf(Checkout("a", "x").data)), Received), [], 3),
           Shop(None, {}, Two(Unmatched(KeysOf(Checkout("a", "x").data)), Unmatched(KeysOf(Checkout("b", "y").data))), [], 4), Shop(None, {}, Two(FIRST_READ, Unmatched(KeysOf(Checkout("b", "y").data))), [], 5),
           Shop(None, {}, Two(FIRST_READ, SECOND_READ), [], 6), stored, Step(stored, Commits(1))];
    assert ws[7].accounts == OneAccount(Some("x")) && ws[8].accounts == OneAccount(Some("y"));
    assert ws[7].accounts[0].customer == Some("x") && ws[8].accounts[0].customer == Some("y");
    assert "x"[0] != "y"[0];
  }

  // ---------------------------------------------------------------- progress

  predicate SameId(e: Event, f: Event) { e.id.Some? && e.id == f.id }

  /** An event id belongs to one event, so all its deliveries are of one kind. */
  ghost predicate KindsAgree(deliveries: seq<Delivery>) {
    forall s, t :: 0 <= s < |deliveries| && 0 <= t < |deliveries| && SameId(deliveries[s].event, deliveries[t].event) ==>
      deliveries[s].event.kind.Subscription() == deliveries[t].event.kind.Subscription()
  }

  predicate Own(step: Action) {
    !step.Arrives? && !step.Changes? && !step.Installs? && !step.Fails?
  }

  lemma HolderMoves(w: World, first: World, t: nat) returns (step: Action)
    requires Inv(w, first) && KindsAgree(w.deliveries) && t < |w.deliveries| && w.deliveries[t].place.LockedRow().Some?
    ensures Enabled(w, step) && Own(step)
  {
    hide RowsExclusive, ClaimsExclusive, LogOk, Once, ClaimsAre, LookupsOrdered, ReadsOk, Replay, RowFree;
    assert PlaceOk(w.deliveries[t], |w.accounts|, w.settings);
    if w.deliveries[t].place.Locked? {
      step := LooksUp(t, true);
    } else if w.deliveries[t].place.Claimed? {
      step := Commits(t);
    } else if w.deliveries[t].event.id.Some? && !IdFree(w.deliveries, t, w.deliveries[t].event.id) {
      var s :| 0 <= s < |w.deliveries| && w.deliveries[s].place.Pending() && w.deliveries[s].event.id == w.deliveries[t].event.id;
      assert PlaceOk(w.deliveries[s], |w.accounts|, w.settings);
      step := Commits(s);
    } else {
      step := Claims(t);
    }
  }

  lemma PendingMoves(w: World, first: World, t: nat) returns (step: Action)
    requires Inv(w, first) && KindsAgree(w.deliveries) && t < |w.deliveries| && w.deliveries[t].place.Pending()
    ensures Enabled(w, step) && Own(step)
  {
    hide RowsExclusive, ClaimsExclusive, LogOk, Once, ClaimsAre, LookupsOrdered, ReadsOk, Replay, PlaceOk;
    if w.deliveries[t].place.Unmatched? {
      step := Matches(t);
    } else if CanCommit(w.deliveries, t, w.deliveries[t]) {
      step := Commits(t);
    } else {
      var a := w.deliveries[t].place.known.value;
      var s :| 0 <= s < |w.deliveries| && s != t && w.deliveries[s].place.LockedRow() == Some(a);
      step := HolderMoves(w, first, s);
    }
  }

  /**
   * Transactions never deadlock: while a delivery is unfinished, some delivery can go on. A
   * transaction waiting for a row's lock waits for one that no longer waits for rows.
   */
  lemma NeverDeadlocked(ws: seq<World>, steps: seq<Action>, n: nat, t: nat) returns (step: Action)
    requires IsRun(ws, steps) && n < |ws| && KindsAgree(ws[n].deliveries)
    requires t < |ws[n].deliveries| && !ws[n].deliveries[t].place.Done?
    ensures Enabled(ws[n], step) && Own(step)
  {
    RunKeeps(ws, steps, n);
    hide IsRun, Inv;
    var w, d := ws[n], ws[n].deliveries[t];
    if d.place.Pending() {
      step := PendingMoves(w, ws[0], t);
    } else if d.place.LockedRow().Some? {
      step := HolderMoves(w, ws[0], t);
    } else if d.place.AtRow? {
      if RowFree(w.deliveries, t, d.place.account) {
        step := Locks(t);
      } else {
        var s :| 0 <= s < |w.deliveries| && w.deliveries[s].place.LockedRow() == Some(d.place.account);
        step := HolderMoves(w, ws[0], s);
      }
    } else if d.place.Querying? {
      step := Resolves(t);
    } else if d.event.id.Some? && !IdFree(w.deliveries, t, d.event.id) {
      var s :| 0 <= s < |w.deliveries| && w.deliveries[s].place.Pending() && w.deliveries[s].event.id == d.event.id;
      step := PendingMoves(w, ws[0], s);
    } else {
      step := Claims(t);
    }
  }

  function Remaining(place: Place): nat {
    match place
    case Received => 5
    case Querying(keys) => 4 + if |keys| > 1 then |keys| else 1
    case AtRow(_) => 4
    case Locked(_) => 3
    case Checked(_, _, _) => 2
    case Unmatched(keys) => 1 + if |keys| > 1 then |keys| else 1
    case Claimed(_, _, _) => 1
    case Matched(_, _, _) => 1
    case Done(_) => 0
  }

  function Work(deliveries: seq<Delivery>): nat {
    if deliveries == [] then 0 else Remaining(deliveries[0].place) + Work(deliveries[1..])
  }

  function Count(steps: seq<Action>, arriving: bool): nat {
    if steps == [] then 0
    else
      var last := steps[|steps| - 1];
      Count(steps[..|steps| - 1], arriving) + if (if arriving then last.Arrives? else !last.Arrives? && !last.Changes? && !last.Installs?) then 1 else 0
  }

  lemma {:induction false} MovedWork(deliveries: seq<Delivery>, t: nat, d: Delivery)
    requires t < |deliveries|
    ensures Work(deliveries[t := d]) == Work(deliveries) - Remaining(deliveries[t].place) + Remaining(d.place)
  {
    if t > 0 {
      assert deliveries[t := d][1..] == deliveries[1..][t - 1 := d];
      MovedWork(deliveries[1..], t - 1, d);
    }
  }

  lemma {:induction false} AddedWork(deliveries: seq<Delivery>, d: Delivery)
    ensures Work(deliveries + [d]) == Work(deliveries) + Remaining(d.place)
  {
    if deliveries != [] {
      assert (deliveries + [d])[1..] == deliveries[1..] + [d];
      AddedWork(deliveries[1..], d);
    } else {
      assert deliveries + [d] == [d];
    }
  }

  lemma StepAdvances(w: World, step: Action)
    requires Enabled(w, step) && !step.Arrives? && !step.Changes? && !step.Installs?
    ensures var deliveries := Step(w, step).deliveries;
      && step.t < |w.deliveries| == |deliveries|
      && deliveries == w.deliveries[step.t := deliveries[step.t]]
      && Remaining(deliveries[step.t].place) < Remaining(w.deliveries[step.t].place)
  {
    hide Select, Clashes, RowFree, IdFree, Installed;
  }

  lemma StepWorks(w: World, step: Action)
    requires Enabled(w, step)
    ensures var work := Work(Step(w, step).deliveries);
      if step.Arrives? then work <= Work(w.deliveries) + 7
      else if step.Changes? || step.Installs? then work == Work(w.deliveries)
      else work < Work(w.deliveries)
  {
    if step.Arrives? {
      if Screened(w.settings, step.request) == None { AddedWork(w.deliveries, Delivery(step.request.body.value, Arrived(step.request.body.value))); }
    } else if !step.Changes? && !step.Installs? {
      StepAdvances(w, step);
      MovedWork(w.deliveries, step.t, Step(w, step).deliveries[step.t]);
      hide Step, Enabled, Work;
    }
  }

  /** Deliveries take at most seven steps each, so together with progress every delivery is answered. */
  lemma {:induction false} DeliveriesTerminate(ws: seq<World>, steps: seq<Action>, n: nat)
    requires IsRun(ws, steps) && n < |ws|
    ensures Count(steps[..n], false) + Work(ws[n].deliveries) <= 7 * Count(steps[..n], true)
  {
    if n > 0 {
      hide Step, Enabled;
      assert Enabled(ws[n - 1], steps[n - 1]) && ws[n] == Step(ws[n - 1], steps[n - 1]);
      DeliveriesTerminate(ws, steps, n - 1);
      StepWorks(ws[n - 1], steps[n - 1]);
      assert steps[..n][..n - 1] == steps[..n - 1];
    }
  }

  // ---------------------------------------------------------------- a delivery without company

  ghost predicate Leads(w: World, steps: seq<Action>, w': World)
    decreases |steps|
  {
    if steps == [] then w' == w
    else Enabled(w, steps[0]) && Leads(Step(w, steps[0]), steps[1..], w')
  }

  ghost predicate Alone(deliveries: seq<Delivery>, t: nat) {
    t < |deliveries| && forall s :: 0 <= s < |deliveries| && s != t ==> deliveries[s].place.Done?
  }

  /** What a finished world says about the delivery and the tables. */
  ghost predicate Ends(w: World, t: nat, r: Result) {
    t < |w.deliveries| && w.accounts == r.accounts && w.claims == r.claims && w.deliveries[t].place == Done(r.outcome)
  }

  lemma LeadsFirst(w: World, step: Action, steps: seq<Action>, w': World)
    requires Enabled(w, step) && Leads(Step(w, step), steps, w')
    ensures Leads(w, [step] + steps, w')
  {
    assert ([step] + steps)[1..] == steps;
  }

  lemma SameWrite(accounts: seq<Account>, e: Event, place: Place, place': Place, t: nat, when: nat)
    requires place.Claimed? || place.Matched?
    requires place' == AtZero(place)
    ensures Write(accounts, EntryOf(t, e, place, when)) == Write(accounts, EntryOf(0, e, place', 0))
    ensures Clashes(accounts, EntryOf(t, e, place, when)) == Clashes(accounts, EntryOf(0, e, place', 0))
  {
  }

  function AtZero(place: Place): Place {
    match place
    case Checked(a, found, _) => Checked(a, found, 0)
    case Claimed(a, found, _) => Claimed(a, found, 0)
    case Matched(known, seen, _) => Matched(known, seen, 0)
    case _ => place
  }

  lemma CommitAlone(w: World, t: nat) returns (steps: seq<Action>, w': World)
    requires Alone(w.deliveries, t) && w.deliveries[t].event.id.Some?
    requires w.deliveries[t].place.Claimed? || w.deliveries[t].place.Matched?
    ensures Leads(w, steps, w')
    ensures Ends(w', t, Finished(w.accounts, w.claims, w.deliveries[t].event, AtZero(w.deliveries[t].place)))
  {
    var d := w.deliveries[t];
    SameWrite(w.accounts, d.event, d.place, AtZero(d.place), t, w.now);
    hide Write, Clashes;
    steps, w' := [Commits(t)], Step(w, Commits(t));
    LeadsFirst(w, Commits(t), [], w');
  }

  lemma OneQuery(accounts: seq<Account>, keys: seq<Key>)
    ensures var found := if keys == [] then NoRow else Select(accounts, keys[0]);
      FirstOf(accounts, keys) == if found.NoRow? && |keys| > 1 then FirstOf(accounts, keys[1..]) else found
  {
    if |keys| == 1 { assert keys[1..] == [] && FirstOf(accounts, []) == NoRow; }
  }

  /** From the first query for a checkout's account on. */
  function FromMatch(accounts: seq<Account>, claims: set<string>, e: Event, keys: seq<Key>): Result
    requires e.id.Some?
  {
    var matched := AfterKnown(accounts, FirstOf(accounts, keys), 0);
    if matched.Done? then Result(accounts, claims, matched.outcome) else Finished(accounts, claims, e, matched)
  }

  lemma MatchAlone(w: World, t: nat) returns (steps: seq<Action>, w': World)
    requires Alone(w.deliveries, t) && w.deliveries[t].place.Unmatched? && w.deliveries[t].event.id.Some?
    ensures Leads(w, steps, w')
    ensures Ends(w', t, FromMatch(w.accounts, w.claims, w.deliveries[t].event, w.deliveries[t].place.keys))
    decreases |w.deliveries[t].place.keys|
  {
    hide Select, Finished, FirstOf;
    OneQuery(w.accounts, w.deliveries[t].place.keys);
    var w1 := Step(w, Matches(t));
    if w1.deliveries[t].place.Done? {
      steps, w' := [], w1;
    } else if w1.deliveries[t].place.Unmatched? {
      steps, w' := MatchAlone(w1, t);
    } else {
      steps, w' := CommitAlone(w1, t);
    }
    LeadsFirst(w, Matches(t), steps, w');
    steps := [Matches(t)] + steps;
  }

  lemma ClaimAlone(w: World, t: nat) returns (steps: seq<Action>, w': World)
    requires Alone(w.deliveries, t)
    requires var d := w.deliveries[t]; d.place.Checked? || (d.place.Received? && !d.event.kind.Subscription())
    ensures Leads(w, steps, w')
    ensures Ends(w', t, FromClaim(w.accounts, w.claims, w.deliveries[t].event, AtZero(w.deliveries[t].place)))
  {
    hide FirstOf, Finished, KeysOf;
    var w1 := Step(w, Claims(t));
    if w1.deliveries[t].place.Done? {
      steps, w' := [], w1;
    } else if w1.deliveries[t].place.Claimed? {
      steps, w' := CommitAlone(w1, t);
    } else {
      steps, w' := MatchAlone(w1, t);
    }
    LeadsFirst(w, Claims(t), steps, w');
    steps := [Claims(t)] + steps;
  }

  /** From the first query for a subscription event's account on. */
  function FromQuery(w: World, e: Event, keys: seq<Key>, answer: Option<string>): Result {
    var resolved := AfterFound(w.settings, FirstOf(w.accounts, keys));
    if resolved.Done? then Result(w.accounts, w.claims, resolved.outcome) else
    var checked := AfterLookup(w.settings, e, resolved.account, answer, 0);
    if checked.Done? then Result(w.accounts, w.claims, checked.outcome) else
    FromClaim(w.accounts, w.claims, e, checked)
  }

  lemma QueryAlone(w: World, t: nat, answered: bool) returns (steps: seq<Action>, w': World)
    requires Alone(w.deliveries, t) && w.deliveries[t].place.Querying?
    ensures Leads(w, steps, w')
    ensures var d := w.deliveries[t];
      Ends(w', t, FromQuery(w, d.event, d.place.keys, if answered then Answer(w, d.event) else None))
    decreases |w.deliveries[t].place.keys|
  {
    hide Select, FromClaim, AfterLookup, FirstOf;
    OneQuery(w.accounts, w.deliveries[t].place.keys);
    var w1 := Step(w, Resolves(t));
    if w1.deliveries[t].place.Done? {
      steps, w' := [], w1;
    } else if w1.deliveries[t].place.Querying? {
      steps, w' := QueryAlone(w1, t, answered);
    } else {
      steps, w' := LookUpAlone(w1, t, answered);
    }
    LeadsFirst(w, Resolves(t), steps, w');
    steps := [Resolves(t)] + steps;
  }

  /**
   * A request served while every other delivery is finished ends as the sequential handler does,
   * with the tables and the outcome it computes.
   */
  lemma LoneDelivery(w: World, r: Request, answered: bool) returns (steps: seq<Action>, w': World)
    requires forall s :: 0 <= s < |w.deliveries| ==> w.deliveries[s].place.Done?
    requires Screened(w.settings, r) == None
    ensures Leads(w, steps, w')
    ensures Ends(w', |w.deliveries|,
      Deliver(w.settings, w.accounts, w.claims, r, if answered then Answer(w, r.body.value) else None))
  {
    hide FirstOf, FromClaim, AfterLookup, KeysOf;
    var t := |w.deliveries|;
    var w1 := Step(w, Arrives(r));
    if r.body.value.kind.Subscription() {
      steps, w' := QueryAlone(w1, t, answered);
    } else {
      steps, w' := ClaimAlone(w1, t);
    }
    LeadsFirst(w, Arrives(r), steps, w');
    steps := [Arrives(r)] + steps;
  }

  lemma LookUpAlone(w: World, t: nat, answered: bool) returns (steps: seq<Action>, w': World)
    requires Alone(w.deliveries, t) && w.deliveries[t].place.AtRow?
    ensures Leads(w, steps, w')
    ensures var d := w.deliveries[t];
      var checked := AfterLookup(w.settings, d.event, d.place.account, if answered then Answer(w, d.event) else None, 0);
      Ends(w', t, if checked.Done? then Result(w.accounts, w.claims, checked.outcome)
                  else FromClaim(w.accounts, w.claims, d.event, checked))
  {
    hide Write, Clashes, Finished, AfterClaim, AfterMatch, FromClaim;
    var w1 := Step(w, Locks(t));
    var w2 := Step(w1, LooksUp(t, answered));
    if w2.deliveries[t].place.Done? {
      steps, w' := [], w2;
    } else {
      steps, w' := ClaimAlone(w2, t);
    }
    LeadsFirst(w1, LooksUp(t, answered), steps, w');
    steps := [LooksUp(t, answered)] + steps;
    LeadsFirst(w, Locks(t), steps, w');
    steps := [Locks(t)] + steps;
  }
}
