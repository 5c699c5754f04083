/** What a handler of `/assign` decides at each step, and whom it therefore assigns. */
module SelfAssignDecisions {
  import opened OrderedDict
  import opened LockRegistry
  import opened SelfAssign
  import opened SelfAssignGuarantees
  import Text

  // ---------------------------------------------------------------- one step

  /** A handler that holds the issue refuses it if anyone is assigned, and otherwise goes on to the limit or the check. */
  lemma ReadDecides(w: World, t: Task)
    requires Enabled(w, ReadsIssue(t))
    ensures var w', h := Step(w, ReadsIssue(t)), w.handlers[t];
      && w'.issues == w.issues && w'.history == w.history && w'.log == w.log
      && |w'.handlers| == |w.handlers|
      && var place := w'.handlers[t].place;
      (if h.issue !in w.issues then place == Finished
       else if w.issues[h.issue].assignees != {} then place == Refusing(false)
       else if h.limit.None? then place == Checking
       else if Enter(w.contributorLocks, t, h.Contributor()).None? then place == Finished
       else place == AtContributor)
  {
    hide Release, Enter, Holds;
  }

  /** A handler that holds the contributor goes on to the check if it can count fewer open issues than the limit. */
  lemma CountDecides(w: World, t: Task, readable: bool)
    requires Enabled(w, Counts(t, readable))
    ensures var w', h := Step(w, Counts(t, readable)), w.handlers[t];
      && w'.issues == w.issues && w'.history == w.history && w'.log == w.log
      && w'.handlers == w.handlers[t := h.(place := w'.handlers[t].place)]
      && w'.handlers[t].place ==
         if readable && h.limit.Some? && |OpenFor(w.issues, h.Contributor())| < h.limit.value then Checking else Refusing(true)
  {
    hide OpenFor, Holds;
  }

  /** A handler goes on to assign if the check passes, and otherwise refuses. */
  lemma CheckDecides(w: World, t: Task, passes: bool)
    requires Enabled(w, Checks(t, passes))
    ensures var w', h := Step(w, Checks(t, passes)), w.handlers[t];
      && w'.issues == w.issues && w'.history == w.history && w'.log == w.log
      && w'.handlers == w.handlers[t := h.(place := w'.handlers[t].place)]
      && (passes ==> w'.handlers[t].place == Assigning)
      && (!passes ==> w'.handlers[t].place == Refusing(h.limit.Some?))
  {
  }

  /** An assignment adds the handler's contributor to its issue, if GitHub carries it out, and nothing else. */
  lemma AssignDecides(w: World, t: Task, takesEffect: bool, succeeds: bool)
    requires Enabled(w, Assigns(t, takesEffect, succeeds)) && w.handlers[t].issue in w.issues && t in w.notes
    ensures var w', h := Step(w, Assigns(t, takesEffect, succeeds)), w.handlers[t];
      && w'.handlers == w.handlers[t := h.(place := if succeeds then Confirming else Finished)]
      && w'.issues.Keys == w.issues.Keys
      && (forall k :: k in w.issues && (k != h.issue || !takesEffect) ==> w'.issues[k] == w.issues[k])
      && (takesEffect ==>
          && w'.issues[h.issue].assignees == w.issues[h.issue].assignees + {Text.Lower(h.login)}
          && w'.issues[h.issue].open == w.issues[h.issue].open)
  {
    AssignMoves(w, t, takesEffect, succeeds);
    hide Release, OpenFor;
  }

  /** A step moves its own handler only, if it is a handler's. */
  lemma HandlersAfter(w: World, e: Event)
    requires Enabled(w, e)
    ensures var w' := Step(w, e);
      if e.Arrives? then w'.handlers == w.handlers + [e.handler]
      else if !ByHandler(e) then w'.handlers == w.handlers
      else
        && Actor(e) < |w.handlers| == |w'.handlers|
        && w'.handlers == w.handlers[Actor(e) := w.handlers[Actor(e)].(place := w'.handlers[Actor(e)].place)]
  {
    hide Release, Enter, Apply, OpenFor, Holds, CanGrant, Grant, Assign;
    match e
    case Assigns(t, takesEffect, succeeds) => AssignMoves(w, t, takesEffect, succeeds);
    case _ =>
  }

  /** The handler is past its assignment, or will never make one. */
  predicate Decided(place: Place) {
    place.Confirming? || place.Recording? || place.Refusing? || place.Finished?
  }

  /** A handler gets to its assignment by passing its check, and never gets back once it has decided. */
  lemma StepDecides(w: World, e: Event)
    requires Enabled(w, e) && ByHandler(e)
    ensures var t, w' := Actor(e), Step(w, e);
      && t < |w.handlers| && t < |w'.handlers|
      && (Decided(w.handlers[t].place) ==> Decided(w'.handlers[t].place))
      && (w'.handlers[t].place == Assigning && w.handlers[t].place != Assigning ==> e == Checks(t, true))
      && (e.Checks? && !e.passes ==> Decided(w'.handlers[t].place) && w.handlers[t].place == Checking)
      && (e.Assigns? ==> w.handlers[t].place == Assigning && Decided(w'.handlers[t].place))
  {
    hide Release, Enter, Apply, OpenFor, Holds, CanGrant, Grant, Assign, ReadIssue;
    match e
    case Assigns(t, takesEffect, succeeds) => AssignMoves(w, t, takesEffect, succeeds);
    case ReadsIssue(t) => ReadMoves(w, t);
    case _ =>
  }

  /** An event logs one assignment at most, by the handler whose assignment takes effect. */
  lemma StepLogsOne(w: World, e: Event)
    requires Enabled(w, e)
    ensures var w' := Step(w, e);
      && (w'.log == w.log || (|w'.log| == |w.log| + 1 && w'.log[..|w.log|] == w.log))
      && (w'.log != w.log ==> e.Assigns? && e.takesEffect && w'.log[|w.log|].doer == e.t)
  {
    hide Apply, OpenFor, Holds, CanGrant, Grant, Release, Enter;
  }

  // ---------------------------------------------------------------- eligibility

  /** By now the handler has passed its check. */
  ghost predicate Passed(es: seq<Event>, i: nat, t: Task)
    requires i <= |es|
  {
    exists j :: 0 <= j < i && es[j] == Checks(t, true)
  }

  /** By now the handler has assigned, after passing its check, and it is past that. */
  ghost predicate HasAssigned(w: World, es: seq<Event>, i: nat, t: Task)
    requires i <= |es|
  {
    && t < |w.handlers| && Decided(w.handlers[t].place)
    && exists j, k :: 0 <= j < k < i && es[j] == Checks(t, true) && es[k].Assigns? && es[k].t == t && es[k].takesEffect
  }

  /** Assignments so far, and those about to be made, are by handlers that passed their check. */
  ghost predicate Eligible(w: World, es: seq<Event>, i: nat)
    requires i <= |es|
  {
    && (forall t :: 0 <= t < |w.handlers| && w.handlers[t].place == Assigning ==> Passed(es, i, t))
    && (forall n :: 0 <= n < |w.log| ==> HasAssigned(w, es, i, w.log[n].doer))
  }

  lemma PassedStays(es: seq<Event>, i: nat, t: Task)
    requires i < |es|
    ensures Passed(es, i, t) || es[i] == Checks(t, true) ==> Passed(es, i + 1, t)
  {
  }

  lemma EligibleStays(w: World, es: seq<Event>, i: nat)
    requires i < |es| && Enabled(w, es[i]) && Eligible(w, es, i)
    ensures Eligible(Step(w, es[i]), es, i + 1)
  {
    var e, w' := es[i], Step(w, es[i]);
    HandlersAfter(w, e);
    StepLogsOne(w, e);
    if ByHandler(e) { StepDecides(w, e); }
    NewcomersArrive(w, e);
    hide Step, Enabled, Passed;
    forall t | 0 <= t < |w'.handlers| && w'.handlers[t].place == Assigning ensures Passed(es, i + 1, t) {
      PassedStays(es, i, t);
    }
    forall n | 0 <= n < |w'.log| ensures HasAssigned(w', es, i + 1, w'.log[n].doer) {
      var t := w'.log[n].doer;
      if n < |w.log| {
        assert w'.log[n] == w'.log[..|w.log|][n];
        assert HasAssigned(w, es, i, t);
      } else {
        JustAssigned(w', es, i, t);
      }
    }
  }

  lemma JustAssigned(w: World, es: seq<Event>, i: nat, t: Task)
    requires i < |es| && Passed(es, i, t) && es[i].Assigns? && es[i].t == t && es[i].takesEffect
    requires t < |w.handlers| && Decided(w.handlers[t].place)
    ensures HasAssigned(w, es, i + 1, t)
  {
  }

  lemma NewcomersArrive(w: World, e: Event)
    requires Enabled(w, e)
    ensures e.Arrives? ==> e.handler.place == Arriving
  {
  }

  lemma {:induction false} RunIsEligible(ws: seq<World>, es: seq<Event>, issues: map<IssueKey, Issue>, capacity: nat, i: nat)
    requires IsRun(ws, es, issues, capacity) && i < |ws|
    ensures Eligible(ws[i], es, i)
  {
    hide Step, Enabled, Eligible;
    if i > 0 {
      RunIsEligible(ws, es, issues, capacity, i - 1);
      EligibleStays(ws[i - 1], es, i - 1);
    } else {
      StartsEligible(issues, capacity, es);
    }
  }

  lemma StartsEligible(issues: map<IssueKey, Issue>, capacity: nat, es: seq<Event>)
    ensures Eligible(Start(issues, capacity), es, 0)
  {
  }

  /** An assignment by the bot takes effect only after its handler's eligibility check passed. */
  lemma OnlyEligibleAreAssigned(ws: seq<World>, es: seq<Event>, issues: map<IssueKey, Issue>, capacity: nat, i: nat, n: nat)
    returns (j: nat, k: nat)
    requires IsRun(ws, es, issues, capacity) && i < |ws| && n < |ws[i].log|
    ensures var t := ws[i].log[n].doer;
      j < k < i && es[j] == Checks(t, true) && es[k].Assigns? && es[k].t == t && es[k].takesEffect
  {
    RunIsEligible(ws, es, issues, capacity, i);
    hide IsRun;
    var t := ws[i].log[n].doer;
    assert HasAssigned(ws[i], es, i, t);
    j, k :| 0 <= j < k < i && es[j] == Checks(t, true) && es[k].Assigns? && es[k].t == t && es[k].takesEffect;
  }

  ghost predicate HasDecided(w: World, t: Task) {
    t < |w.handlers| && Decided(w.handlers[t].place)
  }

  ghost predicate NotLogged(w: World, t: Task) {
    forall n :: 0 <= n < |w.log| ==> w.log[n].doer != t
  }

  lemma RunStep(ws: seq<World>, es: seq<Event>, issues: map<IssueKey, Issue>, capacity: nat, j: nat)
    requires IsRun(ws, es, issues, capacity) && 0 < j < |ws|
    ensures j <= |es| && Enabled(ws[j - 1], es[j - 1]) && ws[j] == Step(ws[j - 1], es[j - 1])
  {
    hide Step, Enabled;
  }

  lemma {:induction false} StaysDecided(ws: seq<World>, es: seq<Event>, issues: map<IssueKey, Issue>, capacity: nat,
                                        i: nat, j: nat, t: Task)
    requires IsRun(ws, es, issues, capacity) && i <= j < |ws| && HasDecided(ws[i], t)
    ensures HasDecided(ws[j], t)
    decreases j
  {
    if i < j {
      hide Step, Enabled, IsRun, HasDecided, NotLogged;
      StaysDecided(ws, es, issues, capacity, i, j - 1, t);
      RunStep(ws, es, issues, capacity, j);
      DecidedStays(ws[j - 1], es[j - 1], t);
    }
  }

  lemma DecidedStays(w: World, e: Event, t: Task)
    requires Enabled(w, e) && HasDecided(w, t)
    ensures HasDecided(Step(w, e), t)
  {
    hide Step, Enabled, Decided;
    HandlersAfter(w, e);
    if ByHandler(e) { StepDecides(w, e); }
  }

  /** Once a handler has decided not to assign, it is in no log. */
  lemma {:induction false} NeverLogged(ws: seq<World>, es: seq<Event>, issues: map<IssueKey, Issue>, capacity: nat,
                                       i: nat, j: nat, t: Task)
    requires IsRun(ws, es, issues, capacity) && i <= j < |ws| && HasDecided(ws[i], t) && NotLogged(ws[i], t)
    ensures NotLogged(ws[j], t)
    decreases j
  {
    if i < j {
      hide Step, Enabled, IsRun, HasDecided, NotLogged;
      NeverLogged(ws, es, issues, capacity, i, j - 1, t);
      StaysDecided(ws, es, issues, capacity, i, j - 1, t);
      RunStep(ws, es, issues, capacity, j);
      DecidedLogsNothing(ws[j - 1], es[j - 1], t);
    }
  }

  lemma DecidedLogsNothing(w: World, e: Event, t: Task)
    requires Enabled(w, e) && HasDecided(w, t) && NotLogged(w, t)
    ensures NotLogged(Step(w, e), t)
  {
    hide Step, Enabled;
    var w' := Step(w, e);
    StepLogsOne(w, e);
    if e.Assigns? { StepDecides(w, e); }
    forall n | 0 <= n < |w'.log| ensures w'.log[n].doer != t {
      if n < |w.log| { assert w'.log[n] == w'.log[..|w.log|][n]; }
    }
  }

  lemma IneligibleNeverLogged(ws: seq<World>, es: seq<Event>, issues: map<IssueKey, Issue>, capacity: nat, j: nat, i: nat, t: Task)
    requires IsRun(ws, es, issues, capacity) && j < |es| && i < |ws| && es[j] == Checks(t, false)
    ensures NotLogged(ws[i], t)
  {
    hide Step, Enabled;
    assert Enabled(ws[j], es[j]) && ws[j + 1] == Step(ws[j], es[j]);
    StepDecides(ws[j], es[j]);
    StepLogsOne(ws[j], es[j]);
    forall n | 0 <= n < |ws[j].log| ensures ws[j].log[n].doer != t {
      RunIsEligible(ws, es, issues, capacity, j);
      assert HasAssigned(ws[j], es, j, ws[j].log[n].doer);
    }
    if i <= j {
      forall n | 0 <= n < |ws[i].log| ensures ws[i].log[n].doer != t {
        RunIsEligible(ws, es, issues, capacity, i);
        assert HasAssigned(ws[i], es, i, ws[i].log[n].doer);
        if ws[i].log[n].doer == t { StaysDecided(ws, es, issues, capacity, i, j, t); }
      }
    } else {
      NeverLogged(ws, es, issues, capacity, j + 1, i, t);
    }
  }

  /** A handler whose eligibility check fails never assigns anyone. */
  lemma IneligibleNeverAssign(ws: seq<World>, es: seq<Event>, issues: map<IssueKey, Issue>, capacity: nat, j: nat, i: nat, t: Task)
    requires IsRun(ws, es, issues, capacity) && j < |es| && i < |ws| && es[j] == Checks(t, false)
    ensures forall m :: m in ws[i].history && m.change.Assigned? ==> m.change.who != Some(t)
  {
    EveryAssignmentIsLogged(ws, es, issues, capacity, i);
    IneligibleNeverLogged(ws, es, issues, capacity, j, i, t);
    hide Explained;
    forall m | m in ws[i].history && m.change.Assigned? && m.change.who.Some? ensures m.change.who != Some(t) {
      var h :| 0 <= h < |ws[i].history| && ws[i].history[h] == m;
      var a :| a in ws[i].log && a.at == h;
      var n :| 0 <= n < |ws[i].log| && ws[i].log[n] == a;
      DoerAssigned(ws, es, issues, capacity, i, n);
    }
  }

  lemma DoerAssigned(ws: seq<World>, es: seq<Event>, issues: map<IssueKey, Issue>, capacity: nat, i: nat, n: nat)
    requires IsRun(ws, es, issues, capacity) && i < |ws| && n < |ws[i].log|
    ensures var a := ws[i].log[n];
      a.at < |ws[i].history| && ws[i].history[a.at].change.Assigned? && ws[i].history[a.at].change.who == Some(a.doer)
  {
    hide IsRun;
    IsExplained(ws, es, issues, capacity, i, n);
    hide Net, OutsideOnly, Gains, Losses, GainsUnlimited, Grows;
  }

  // ---------------------------------------------------------------- an eligible request succeeds

  ghost predicate Leads(w: World, es: seq<Event>, w': World)
    decreases |es|
  {
    if es == [] then w' == w else Enabled(w, es[0]) && Leads(Step(w, es[0]), es[1..], w')
  }

  lemma LeadsFirst(w: World, e: Event, es: seq<Event>, w': World)
    requires Enabled(w, e) && Leads(Step(w, e), es, w')
    ensures Leads(w, [e] + es, w')
  {
    assert ([e] + es)[1..] == es;
  }

  /** No other handler is at work, and the lock tables have room for one. */
  ghost predicate Alone(w: World) {
    && Locked(w)
    && w.issueLocks.uses == map[] && w.issueLocks.capacity >= 1
    && w.contributorLocks.uses == map[] && w.contributorLocks.capacity >= 1
  }

  /** A handler whose request meets every condition. */
  ghost predicate Deserves(w: World, t: Task) {
    && t < |w.handlers| && w.handlers[t].issue in w.issues
    && w.issues[w.handlers[t].issue].assignees == {}
    && (w.handlers[t].limit.Some? ==> |OpenFor(w.issues, w.handlers[t].Contributor())| < w.handlers[t].limit.value)
  }

  /** The issue is the contributor's, and nothing else has changed. */
  ghost predicate Gets(w: World, w': World, t: Task) {
    && t < |w.handlers| && w.handlers[t].issue in w.issues && w'.issues.Keys == w.issues.Keys
    && w'.issues[w.handlers[t].issue].assignees == {Text.Lower(w.handlers[t].login)}
    && forall k :: k in w.issues && k != w.handlers[t].issue ==> w'.issues[k] == w.issues[k]
  }

  lemma AssignsAlone(w: World, t: Task) returns (es: seq<Event>, w': World)
    requires At(w, t, Assigning) && t in w.notes && w.handlers[t].issue in w.issues && w.issues[w.handlers[t].issue].assignees == {}
    ensures Leads(w, es, w') && Gets(w, w', t) && |w'.handlers| == |w.handlers| && w'.handlers[t].place == Finished
  {
    hide Step, Release, Enabled;
    assert Enabled(w, Assigns(t, true, true)) by { CanAssign(w, t); }
    var w1 := Step(w, Assigns(t, true, true));
    AssignDecides(w, t, true, true);
    FinishesAlone(w1, t);
    var w2 := Step(w1, Confirms(t));
    w' := Step(w2, Records(t));
    LeadsFirst(w2, Records(t), [], w');
    LeadsFirst(w1, Confirms(t), [Records(t)], w');
    LeadsFirst(w, Assigns(t, true, true), [Confirms(t)] + [Records(t)], w');
    es := [Assigns(t, true, true)] + ([Confirms(t)] + [Records(t)]);
  }

  lemma CanAssign(w: World, t: Task)
    requires At(w, t, Assigning)
    ensures Enabled(w, Assigns(t, true, true))
  {
  }

  lemma FinishesAlone(w: World, t: Task)
    requires At(w, t, Confirming)
    ensures Enabled(w, Confirms(t)) && Enabled(Step(w, Confirms(t)), Records(t))
    ensures var w' := Step(Step(w, Confirms(t)), Records(t));
      w'.issues == w.issues && |w'.handlers| == |w.handlers| && w'.handlers[t].place == Finished
  {
    hide Release;
  }

  lemma ChecksAlone(w: World, t: Task) returns (es: seq<Event>, w': World)
    requires At(w, t, Checking) && t in w.notes && w.handlers[t].issue in w.issues && w.issues[w.handlers[t].issue].assignees == {}
    ensures Leads(w, es, w') && Gets(w, w', t) && |w'.handlers| == |w.handlers| && w'.handlers[t].place == Finished
  {
    var w1 := Step(w, Checks(t, true));
    CheckDecides(w, t, true);
    es, w' := AssignsAlone(w1, t);
    LeadsFirst(w, Checks(t, true), es, w');
    es := [Checks(t, true)] + es;
  }

  lemma ReadsAlone(w: World, t: Task) returns (es: seq<Event>, w': World)
    requires At(w, t, AtIssue) && Holds(w.issueLocks, t) && Deserves(w, t)
    requires Ok(w.contributorLocks) && w.contributorLocks.uses == map[] && w.contributorLocks.capacity >= 1
    ensures Leads(w, es, w') && Gets(w, w', t) && |w'.handlers| == |w.handlers| && w'.handlers[t].place == Finished
  {
    hide Ok, Holds, OpenFor, Enter, Release;
    var h := w.handlers[t];
    var w1 := Step(w, ReadsIssue(t));
    if h.limit.None? {
      es, w' := ChecksAlone(w1, t);
    } else {
      EntersAlone(w.contributorLocks, t, h.Contributor());
      assert w1.handlers[t].Contributor() == h.Contributor();
      var w2 := Step(w1, Counts(t, true));
      es, w' := ChecksAlone(w2, t);
      LeadsFirst(w1, Counts(t, true), es, w');
      es := [Counts(t, true)] + es;
    }
    LeadsFirst(w, ReadsIssue(t), es, w');
    es := [ReadsIssue(t)] + es;
  }

  /**
   * An eligible request succeeds: while no other handler is at work, a handler for an open or closed
   * issue that nobody is assigned to, whose contributor is below the limit, can go on to its end
   * with its contributor assigned.
   */
  lemma EligibleIsAssigned(w: World, t: Task) returns (es: seq<Event>, w': World)
    requires Alone(w) && At(w, t, Arriving) && Deserves(w, t)
    ensures Leads(w, es, w') && Gets(w, w', t) && |w'.handlers| == |w.handlers| && w'.handlers[t].place == Finished
  {
    hide Ok, Holds, OpenFor, Enter, Release, IssueSections, ContributorSections;
    var h := w.handlers[t];
    EntersAlone(w.issueLocks, t, h.issue);
    var w1 := Step(w, Begins(t));
    assert w1.handlers[t].Contributor() == h.Contributor();
    es, w' := ReadsAlone(w1, t);
    LeadsFirst(w, Begins(t), es, w');
    es := [Begins(t)] + es;
  }

  /** Logins that differ only in case are one contributor. */
  lemma SameContributor(h: Handler, h': Handler)
    requires h.issue.owner == h'.issue.owner && h.issue.repo == h'.issue.repo
    ensures Text.SameLetters(h.login, h'.login) <==> h.Contributor() == h'.Contributor()
  {
    Text.FoldsCase(h.login, h'.login);
  }

  // ---------------------------------------------------------------- refusals, confirmations and failures

  /** The handler reads someone's assignment, counts no room below its limit, or fails its check. */
  ghost predicate Denies(w: World, e: Event, t: Task) {
    && t < |w.handlers|
    && var h := w.handlers[t];
    || (e == ReadsIssue(t) && h.issue in w.issues && w.issues[h.issue].assignees != {})
    || (e == Counts(t, false))
    || (e == Counts(t, true) && (h.limit.Some? ==> |OpenFor(w.issues, h.Contributor())| >= h.limit.value))
    || e == Checks(t, false)
  }

  /** The handler's request to assign is answered with success. */
  ghost predicate Succeeds(e: Event, t: Task) { e.Assigns? && e.t == t && e.succeeds }

  /** By now a handler that refuses was denied, one that confirms assigned, and one that records confirmed that. */
  ghost predicate HasCause(ws: seq<World>, es: seq<Event>, i: nat, t: Task)
    requires i <= |es| && i < |ws| && t < |ws[i].handlers|
  {
    && (ws[i].handlers[t].place.Refusing? ==> exists j :: 0 <= j < i && Denies(ws[j], es[j], t))
    && (ws[i].handlers[t].place == Confirming ==> exists j :: 0 <= j < i && Succeeds(es[j], t))
    && (ws[i].handlers[t].place == Recording ==> exists j, k :: 0 <= j < k < i && Succeeds(es[j], t) && es[k] == Confirms(t))
  }

  /** How a handler gets to refuse, to confirm and to record. */
  lemma StepCauses(w: World, e: Event)
    requires Enabled(w, e) && ByHandler(e)
    ensures var t, w' := Actor(e), Step(w, e);
      && t < |w.handlers| && t < |w'.handlers|
      && var p, p' := w.handlers[t].place, w'.handlers[t].place;
      && (p'.Refusing? && p' != p ==> Denies(w, e, t))
      && (p' == Confirming && p' != p ==> Succeeds(e, t))
      && (p' == Recording && p' != p ==> e == Confirms(t) && p == Confirming)
  {
    hide Release, Enter, Apply, OpenFor, Holds, CanGrant, Grant, Assign, ReadIssue;
    match e
    case Assigns(t, takesEffect, succeeds) => AssignMoves(w, t, takesEffect, succeeds);
    case ReadsIssue(t) => ReadMoves(w, t); ReadDecides(w, t);
    case _ =>
  }

  lemma CauseStays(ws: seq<World>, es: seq<Event>, i: nat, t: Task)
    requires i < |es| && i + 1 < |ws| && Enabled(ws[i], es[i]) && ws[i + 1] == Step(ws[i], es[i])
    requires t < |ws[i].handlers| && t < |ws[i + 1].handlers| && HasCause(ws, es, i, t)
    ensures HasCause(ws, es, i + 1, t)
  {
    HandlersAfter(ws[i], es[i]);
    if ByHandler(es[i]) && Actor(es[i]) == t { StepCauses(ws[i], es[i]); }
    hide Step, Enabled, Denies, Succeeds;
  }

  lemma {:induction false} RunHasCauses(ws: seq<World>, es: seq<Event>, issues: map<IssueKey, Issue>, capacity: nat, i: nat, t: Task)
    requires IsRun(ws, es, issues, capacity) && i < |ws| && t < |ws[i].handlers|
    ensures HasCause(ws, es, i, t)
  {
    hide Step, Enabled;
    if i > 0 {
      RunStep(ws, es, issues, capacity, i);
      HandlersAfter(ws[i - 1], es[i - 1]);
      NewcomersArrive(ws[i - 1], es[i - 1]);
      hide IsRun;
      if t < |ws[i - 1].handlers| {
        RunHasCauses(ws, es, issues, capacity, i - 1, t);
        CauseStays(ws, es, i - 1, t);
      }
    }
  }

  lemma EndsWhere(w: World, t: Task)
    ensures Enabled(w, Refuses(t)) ==> t < |w.handlers| && w.handlers[t].place.Refusing?
    ensures Enabled(w, Records(t)) ==> t < |w.handlers| && w.handlers[t].place == Recording
  {
  }

  /** A handler refuses only after it read someone's assignment, counted no room or failed its check. */
  lemma RefusesForAReason(ws: seq<World>, es: seq<Event>, issues: map<IssueKey, Issue>, capacity: nat, i: nat, t: Task) returns (j: nat)
    requires IsRun(ws, es, issues, capacity) && i < |es| && es[i] == Refuses(t)
    ensures j < i && Denies(ws[j], es[j], t)
  {
    EndsWhere(ws[i], t);
    RunStep(ws, es, issues, capacity, i + 1);
    RunHasCauses(ws, es, issues, capacity, i, t);
    hide IsRun, Step, Enabled, Denies;
    j :| 0 <= j < i && Denies(ws[j], es[j], t);
  }

  /** A handler records only what it assigned and then confirmed. */
  lemma RecordsWhatItAssigned(ws: seq<World>, es: seq<Event>, issues: map<IssueKey, Issue>, capacity: nat, i: nat, t: Task)
    returns (j: nat, k: nat)
    requires IsRun(ws, es, issues, capacity) && i < |es| && es[i] == Records(t)
    ensures j < k < i && es[j].Assigns? && es[j].t == t && es[j].succeeds && es[k] == Confirms(t)
  {
    EndsWhere(ws[i], t);
    RunStep(ws, es, issues, capacity, i + 1);
    RunHasCauses(ws, es, issues, capacity, i, t);
    hide IsRun, Step, Enabled;
    j, k :| 0 <= j < k < i && Succeeds(es[j], t) && es[k] == Confirms(t);
  }

  /** A handler may fail anywhere once it has begun. It is finished then, and has changed nothing by failing. */
  lemma FailureEnds(w: World, t: Task)
    requires t < |w.handlers| && w.handlers[t].place != Arriving && w.handlers[t].place != Finished
    ensures Enabled(w, Fails(t))
    ensures var w' := Step(w, Fails(t));
      && w'.issues == w.issues && w'.history == w.history && w'.log == w.log
      && w'.handlers == w.handlers[t := w.handlers[t].(place := Finished)]
  {
    hide Release;
  }

  // ---------------------------------------------------------------- other people

  /** Issues are opened without assignees, closed, reopened, assigned and unassigned by others at any time, one at a time. */
  lemma OthersDo(w: World, e: Event, k: IssueKey)
    requires Enabled(w, e) && !ByHandler(e) && !e.Arrives? && k == e.issue
    ensures var w' := Step(w, e);
      && w'.handlers == w.handlers && w'.issueLocks == w.issueLocks && w'.contributorLocks == w.contributorLocks
      && w'.issues.Keys == w.issues.Keys + {k}
      && (forall other :: other in w.issues && other != k ==> w'.issues[other] == w.issues[other])
      && (e.Opens? ==> w'.issues[k] == Issue(true, {}))
      && (k in w.issues ==>
          w'.issues[k] == Issue(
            if e.Closes? then false else if e.Reopens? then true else w.issues[k].open,
            if e.AssignsOutside? then w.issues[k].assignees + {e.account}
            else if e.Unassigns? then w.issues[k].assignees - {e.account}
            else w.issues[k].assignees))
  {
  }
}
