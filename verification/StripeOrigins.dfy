/** Where deliveries, transactions and stored customer ids come from. */
module StripeOrigins {
  import opened OrderedDict
  import opened StripeWebhooks
  import opened StripeRuns
  import opened StripeGuarantees

  /**
   * A forged request changes nothing and is refused: with 500 in production without a secret, and
   * with 400 where there is a secret and it does not bear its signature.
   */
  lemma ForgedChangesNothing(ws: seq<World>, steps: seq<Action>, n: nat)
    requires IsRun(ws, steps) && n < |steps| && steps[n].Arrives?
    ensures var w, w', s, r := ws[n], ws[n + 1], ws[n].settings, steps[n].request;
      (s.secret && !r.signed) || (!s.secret && s.production) ==>
        && w'.accounts == w.accounts && w'.claims == w.claims && w'.deliveries == w.deliveries && w'.log == w.log
        && w'.screened == w.screened + [Refused(if s.secret then 400 else 500)]
  {
    assert ws[n + 1] == Step(ws[n], steps[n]);
    hide IsRun, Installed;
  }

  /** A genuine request that is no JSON is refused, one of another kind ignored, and any other becomes a delivery. */
  lemma GenuineIsHandled(ws: seq<World>, steps: seq<Action>, n: nat)
    requires IsRun(ws, steps) && n < |steps| && steps[n].Arrives?
    requires var s, r := ws[n].settings, steps[n].request; (s.secret && r.signed) || (!s.secret && !s.production)
    ensures var w, w', r := ws[n], ws[n + 1], steps[n].request;
      && w'.accounts == w.accounts && w'.claims == w.claims && w'.log == w.log
      && match r.body
         case None => w'.deliveries == w.deliveries && w'.screened == w.screened + [Refused(400)]
         case Some(e) =>
           if e.kind == Unhandled then w'.deliveries == w.deliveries && w'.screened == w.screened + [Ignored]
           else |w'.deliveries| == |w.deliveries| + 1 && w'.deliveries[..|w.deliveries|] == w.deliveries
                && w'.deliveries[|w.deliveries|].event == e && !w'.deliveries[|w.deliveries|].place.Done?
                && w'.screened == w.screened
  {
    assert ws[n + 1] == Step(ws[n], steps[n]);
    hide IsRun, Installed;
  }

  /** A request that is not forged brought this event. */
  ghost predicate BroughtBy(steps: seq<Action>, n: nat, e: Event, s: Settings)
    requires n <= |steps|
  {
    exists k :: 0 <= k < n && steps[k].Arrives? && steps[k].request.body == Some(e)
      && (if s.secret then steps[k].request.signed else !s.production)
  }

  ghost predicate AllBrought(w: World, steps: seq<Action>, n: nat)
    requires n <= |steps|
  {
    forall t :: 0 <= t < |w.deliveries| ==> BroughtBy(steps, n, w.deliveries[t].event, w.settings)
  }

  lemma StepBrings(w: World, step: Action)
    requires Enabled(w, step)
    ensures var w' := Step(w, step);
      && w'.settings == w.settings && |w.deliveries| <= |w'.deliveries|
      && (forall t :: 0 <= t < |w.deliveries| ==> w'.deliveries[t].event == w.deliveries[t].event)
      && (forall t :: |w.deliveries| <= t < |w'.deliveries| ==>
          step.Arrives? && step.request.body == Some(w'.deliveries[t].event)
          && if w.settings.secret then step.request.signed else !w.settings.production)
  {
    hide Select, Clashes, Write, RowFree, IdFree, Installed;
  }

  lemma BroughtStays(w: World, steps: seq<Action>, n: nat)
    requires n < |steps| && Enabled(w, steps[n]) && AllBrought(w, steps, n)
    ensures AllBrought(Step(w, steps[n]), steps, n + 1)
  {
    StepBrings(w, steps[n]);
    hide Step, Enabled;
    var w' := Step(w, steps[n]);
    forall t | 0 <= t < |w'.deliveries| ensures BroughtBy(steps, n + 1, w'.deliveries[t].event, w'.settings) {
      if t < |w.deliveries| { assert BroughtBy(steps, n, w.deliveries[t].event, w.settings); }
    }
  }

  lemma {:induction false} RunIsBrought(ws: seq<World>, steps: seq<Action>, n: nat)
    requires IsRun(ws, steps) && n < |ws|
    ensures AllBrought(ws[n], steps, n) && ws[n].settings == ws[0].settings
  {
    hide Step, Enabled, AllBrought;
    if n > 0 {
      RunIsBrought(ws, steps, n - 1);
      BroughtStays(ws[n - 1], steps, n - 1);
      StepBrings(ws[n - 1], steps[n - 1]);
    } else {
      assert AllBrought(ws[0], steps, 0) by { NoneBrought(ws[0], steps); }
    }
  }

  lemma NoneBrought(w: World, steps: seq<Action>)
    requires w.deliveries == []
    ensures AllBrought(w, steps, 0)
  {
  }

  /** Every delivery, and so everything committed, comes from a request that was not forged. */
  lemma DeliveriesAreGenuine(ws: seq<World>, steps: seq<Action>, n: nat, t: nat) returns (k: nat)
    requires IsRun(ws, steps) && n < |ws| && t < |ws[n].deliveries|
    ensures k < n && steps[k].Arrives? && steps[k].request.body == Some(ws[n].deliveries[t].event)
    ensures if ws[n].settings.secret then steps[k].request.signed else !ws[n].settings.production
  {
    RunIsBrought(ws, steps, n);
    hide IsRun;
    assert BroughtBy(steps, n, ws[n].deliveries[t].event, ws[n].settings);
    k :| 0 <= k < n && steps[k].Arrives? && steps[k].request.body == Some(ws[n].deliveries[t].event)
      && if ws[n].settings.secret then steps[k].request.signed else !ws[n].settings.production;
  }

  // ---------------------------------------------------------------- installations and failures

  /**
   * An installation webhook adds a free account when no account has the installation, gives the only
   * one that has it its present login, and changes nothing when several do.
   */
  lemma InstallationIsStored(w: World, installation: int, org: string)
    requires Enabled(w, Installs(installation, org))
    ensures var w', matching := Step(w, Installs(installation, org)), WithInstallation(w.accounts, installation);
      && w'.claims == w.claims && w'.deliveries == w.deliveries && w'.log == w.log
      && (matching == {} ==> w'.accounts == w.accounts + [Account(installation, org, Free, None)])
      && (forall a :: matching == {a} ==> w'.accounts == w.accounts[a := w.accounts[a].(org := org)])
      && (forall a, b :: a in matching && b in matching && a != b ==> w'.accounts == w.accounts)
  {
    SelectFinds(w.accounts, ByInstallation(installation));
    hide WithInstallation, Select;
  }

  /** An unfinished delivery may fail at any moment, and then leaves no trace but its answer. */
  lemma FailureLeavesNoTrace(w: World, t: nat)
    requires t < |w.deliveries| && !w.deliveries[t].place.Done?
    ensures Enabled(w, Fails(t))
    ensures var w' := Step(w, Fails(t));
      && w'.accounts == w.accounts && w'.claims == w.claims && w'.log == w.log && w'.live == w.live
      && w'.deliveries == w.deliveries[t := w.deliveries[t].(place := Done(Refused(500)))]
  {
  }

  // ---------------------------------------------------------------- lookups

  /**
   * A subscription's live status may change at any time, and touches no table. A lookup that is
   * answered takes down the status of that moment, whatever the event says.
   */
  lemma LookupTells(w: World, t: nat, subscription: string, status: string)
    requires Enabled(w, LooksUp(t, true)) && w.deliveries[t].event.data.subscription == Some(subscription)
    ensures Enabled(w, Changes(subscription, status))
    ensures var w' := Step(w, Changes(subscription, status));
      && w'.accounts == w.accounts && w'.claims == w.claims && w'.deliveries == w.deliveries && w'.log == w.log
      && Enabled(w', LooksUp(t, true))
      && var place := Step(w', LooksUp(t, true)).deliveries[t].place;
      place == Checked(w.deliveries[t].place.account, if w.settings.key then Some(status) else None, w.now + 1)
  {
  }

  // ---------------------------------------------------------------- matched accounts

  /** The account bears one of the event's identifiers. */
  ghost predicate Identifies(data: Data, account: Account) {
    || (data.installation.Some? && account.installation == data.installation.value)
    || (data.org.Some? && account.org == data.org.value)
    || (data.customer.Some? && account.customer == data.customer)
  }

  /** At some moment by now the account bore one of the event's identifiers. */
  ghost predicate WasIdentified(ws: seq<World>, n: nat, data: Data, a: nat)
    requires n < |ws|
  {
    exists k :: 0 <= k <= n && a < |ws[k].accounts| && Identifies(data, ws[k].accounts[a])
  }

  /** The identifiers still to be looked for are the event's. */
  ghost predicate Asks(data: Data, keys: seq<Key>) {
    forall key :: key in keys ==>
      match key
      case ByInstallation(installation) => data.installation == Some(installation)
      case ByOrg(org) => data.org == Some(org)
      case ByCustomer(customer) => data.customer == Some(customer)
  }

  /** The account a transaction works on was identified by its event. */
  ghost predicate PlaceIdentified(ws: seq<World>, n: nat, d: Delivery)
    requires n < |ws|
  {
    && (d.place.Querying? || d.place.Unmatched? ==> Asks(d.event.data, d.place.keys))
    && (d.place.AtRow? || d.place.LockedRow().Some? ==> WasIdentified(ws, n, d.event.data, d.place.account))
    && (d.place.Matched? && d.place.known.Some? ==> WasIdentified(ws, n, d.event.data, d.place.known.value))
  }

  ghost predicate AllIdentified(ws: seq<World>, n: nat)
    requires n < |ws|
  {
    && (forall t :: 0 <= t < |ws[n].deliveries| ==> PlaceIdentified(ws, n, ws[n].deliveries[t]))
    && (forall e :: e in ws[n].log && e.account.Some? ==> WasIdentified(ws, n, e.event.data, e.account.value))
  }

  lemma StaysIdentified(ws: seq<World>, n: nat, d: Delivery)
    requires n + 1 < |ws| && PlaceIdentified(ws, n, d)
    ensures PlaceIdentified(ws, n + 1, d)
  {
    hide Identifies, Asks;
  }

  lemma SelectedIsIdentified(accounts: seq<Account>, data: Data, keys: seq<Key>)
    requires keys != [] && Asks(data, keys)
    ensures var r := Select(accounts, keys[0]);
      r.Row? ==> r.account < |accounts| && Identifies(data, accounts[r.account])
  {
    SelectedExists(accounts, keys[0]);
    assert keys[0] in keys;
    hide Select;
  }

  lemma AsksItsOwn(data: Data)
    ensures Asks(data, KeysOf(data))
  {
  }

  lemma AsksTheRest(data: Data, keys: seq<Key>)
    requires Asks(data, keys) && keys != []
    ensures Asks(data, keys[1..])
  {
    assert forall key :: key in keys[1..] ==> key in keys;
  }

  /** A delivery's own step works on an account that its event identified. */
  lemma NewPlaceIdentified(ws: seq<World>, n: nat, step: Action, t: nat)
    requires n + 1 < |ws| && AllIdentified(ws, n) && Enabled(ws[n], step) && ws[n + 1] == Step(ws[n], step)
    requires t < |ws[n + 1].deliveries| && (t < |ws[n].deliveries| ==> ws[n + 1].deliveries[t] != ws[n].deliveries[t])
    ensures PlaceIdentified(ws, n + 1, ws[n + 1].deliveries[t])
  {
    var w, d' := ws[n], ws[n + 1].deliveries[t];
    AsksItsOwn(d'.event.data);
    if t < |w.deliveries| {
      var d := w.deliveries[t];
      assert PlaceIdentified(ws, n, d);
      StaysIdentified(ws, n, d);
      if (step.Resolves? || step.Matches?) && d.place.keys != [] {
        SelectedIsIdentified(w.accounts, d.event.data, d.place.keys);
        AsksTheRest(d.event.data, d.place.keys);
      }
    }
    hide Select, Clashes, Write, RowFree, IdFree, Installed, Identifies, Asks, KeysOf, Finished, Screened;
  }

  lemma NewEntriesIdentified(ws: seq<World>, n: nat, step: Action, e: Entry)
    requires n + 1 < |ws| && AllIdentified(ws, n) && Enabled(ws[n], step) && ws[n + 1] == Step(ws[n], step)
    requires e in ws[n + 1].log && e.account.Some?
    ensures WasIdentified(ws, n + 1, e.event.data, e.account.value)
  {
    hide Identifies, Asks, Select, Clashes, Write, RowFree, IdFree, Installed, KeysOf;
    if e !in ws[n].log {
      assert step.Commits?;
      assert PlaceIdentified(ws, n, ws[n].deliveries[step.t]);
    }
  }

  lemma {:induction false} RunIsIdentified(ws: seq<World>, steps: seq<Action>, n: nat)
    requires IsRun(ws, steps) && n < |ws|
    ensures AllIdentified(ws, n)
  {
    if n > 0 {
      var m := n - 1;
      RunIsIdentified(ws, steps, m);
      assert Enabled(ws[m], steps[m]) && ws[n] == Step(ws[m], steps[m]);
      hide Step, Enabled, IsRun, PlaceIdentified, WasIdentified;
      forall t | 0 <= t < |ws[n].deliveries| ensures PlaceIdentified(ws, n, ws[n].deliveries[t]) {
        if t < |ws[m].deliveries| && ws[n].deliveries[t] == ws[m].deliveries[t] { StaysIdentified(ws, m, ws[m].deliveries[t]); }
        else { NewPlaceIdentified(ws, m, steps[m], t); }
      }
      forall e | e in ws[n].log && e.account.Some? ensures WasIdentified(ws, n, e.event.data, e.account.value) {
        NewEntriesIdentified(ws, m, steps[m], e);
      }
    }
  }

  /** A committed transaction is about an account that bore one of its event's identifiers. */
  lemma EntriesAreIdentified(ws: seq<World>, steps: seq<Action>, n: nat, e: Entry) returns (k: nat)
    requires IsRun(ws, steps) && n < |ws| && e in ws[n].log && e.account.Some?
    ensures k <= n && e.account.value < |ws[k].accounts|
    ensures var account := ws[k].accounts[e.account.value];
      || e.event.data.installation == Some(account.installation)
      || e.event.data.org == Some(account.org)
      || (account.customer.Some? && e.event.data.customer == account.customer)
  {
    RunIsIdentified(ws, steps, n);
    hide IsRun;
    assert WasIdentified(ws, n, e.event.data, e.account.value);
    k :| 0 <= k <= n && e.account.value < |ws[k].accounts| && Identifies(e.event.data, ws[k].accounts[e.account.value]);
  }

  // ---------------------------------------------------------------- customer ids

  /** The last transaction that stored a customer id for the account. */
  function LastStore(log: seq<Entry>, a: nat): Option<Entry> {
    if log == [] then None
    else
      var e := log[|log| - 1];
      if e.account == Some(a) && e.event.kind == CheckoutCompleted && e.event.data.customer.Some? && e.seen.None? then Some(e)
      else LastStore(log[..|log| - 1], a)
  }

  lemma {:induction false} ReplayedCustomer(billing: Billing, log: seq<Entry>, a: nat)
    ensures Replay(billing, log, a).customer
      == match LastStore(log, a) case None => billing.customer case Some(e) => e.event.data.customer
  {
    if log != [] { ReplayedCustomer(billing, log[..|log| - 1], a); }
  }

  /**
   * An account's customer id is the one of the last committed checkout that named one and had read
   * the account without one, and otherwise the one it had at first.
   */
  lemma CustomerFollowsLastStore(ws: seq<World>, steps: seq<Action>, n: nat, a: nat)
    requires IsRun(ws, steps) && n < |ws| && a < |ws[n].accounts|
    ensures ws[n].accounts[a].customer ==
      match LastStore(ws[n].log, a)
      case None => if a < |ws[0].accounts| then ws[0].accounts[a].customer else None
      case Some(e) => e.event.data.customer
  {
    hide IsRun, PlacesOk, RowsExclusive, ClaimsExclusive, LookupsOrdered, LogOk, Once, ReadsOk, Replay, ClaimsAre, LastStore;
    RunKeeps(ws, steps, n);
    ReplayedCustomer(FirstBilling(ws[0], a), ws[n].log, a);
  }
}
