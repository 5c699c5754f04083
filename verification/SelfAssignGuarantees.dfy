/**
 * What every run of `/assign` handlers guarantees: assignments up to what others do meanwhile on
 * GitHub, and progress.
 */
module SelfAssignGuarantees {
  import opened OrderedDict
  import opened LockRegistry
  import opened SelfAssign
  import Sets
  import Text

  // ---------------------------------------------------------------- assignments

  /** What changed on GitHub between a handler's read of the issue, or its count, and its assignment. */
  function SinceRead(w: World, a: Assignment): seq<Moment>
    requires a.note.readAt <= a.at <= |w.history|
  {
    w.history[a.note.readAt..a.at]
  }

  function SinceCount(w: World, a: Assignment): seq<Moment>
    requires a.note.countedAt <= a.at <= |w.history|
  {
    w.history[a.note.countedAt..a.at]
  }

  lemma IsExplained(ws: seq<World>, es: seq<Event>, issues: map<IssueKey, Issue>, capacity: nat, i: nat, n: nat)
    requires IsRun(ws, es, issues, capacity) && i < |ws| && n < |ws[i].log|
    ensures Explained(ws[i].handlers, ws[i].history, ws[i].log[n])
  {
    hide IsRun, Ok, IssueSections, ContributorSections, ReadsHold, CountsHold, OneByBot, Chained, Explained;
    RunKeeps(ws, es, issues, capacity, i);
  }

  /**
   * Whatever the interleaving, and whatever others do on GitHub: those assigned to the issue when
   * the bot assigns it were all assigned from outside since the handler read it, and the
   * contributor's open issues exceed the limit by no more than they gained since the count, from
   * outside or through handlers without a limit.
   */
  lemma AssignmentsAreSafe(ws: seq<World>, es: seq<Event>, issues: map<IssueKey, Issue>, capacity: nat, i: nat, n: nat)
    requires IsRun(ws, es, issues, capacity) && i < |ws| && n < |ws[i].log|
    ensures var w, a := ws[i], ws[i].log[n];
      && a.doer < |w.handlers| && a.note.readAt <= a.at < |w.history|
      && var h := w.handlers[a.doer];
         && a.before <= Outside(SinceRead(w, a), h.issue)
         && (h.limit.Some? ==>
             && a.note.countedAt <= a.at
             && a.openAfter <= h.limit.value + Gains(SinceCount(w, a), h.Contributor())
             && GainsUnlimited(w.handlers, SinceCount(w, a), h.Contributor()))
  {
    hide IsRun, Net, Outside, OutsideOnly, Gains, Losses, GainsUnlimited, Grows;
    IsExplained(ws, es, issues, capacity, i, n);
    NetIsOutside(SinceRead(ws[i], ws[i].log[n]), ws[i].handlers[ws[i].log[n].doer].issue);
  }

  /** Every assignment of the issue among these changes was taken back by a later one. */
  ghost predicate TakenBack(changes: seq<Moment>, k: IssueKey) {
    forall j :: 0 <= j < |changes| && changes[j].change.Assigned? && changes[j].change.issue == k ==>
      TakenBackAfter(changes, j)
  }

  ghost predicate TakenBackAfter(changes: seq<Moment>, j: nat)
    requires j < |changes| && changes[j].change.Assigned?
  {
    exists l :: j < l < |changes| && changes[l].change == Unassigned(changes[j].change.issue, changes[j].change.account)
  }

  lemma {:induction false} NetMember(changes: seq<Moment>, k: IssueKey, account: Account)
    ensures account in Net(changes, k) <==>
      exists j :: 0 <= j < |changes| && changes[j].change.Assigned? && changes[j].change.issue == k
        && changes[j].change.account == account && !TakenBackAfter(changes, j)
  {
    if changes != [] {
      var n := |changes| - 1;
      var rest, last := changes[..n], changes[n].change;
      NetMember(rest, k, account);
      forall j | 0 <= j < n && changes[j].change.Assigned? && changes[j].change.issue == k && changes[j].change.account == account
        ensures TakenBackAfter(changes, j) <==> TakenBackAfter(rest, j) || last == Unassigned(k, account)
      {
        assert rest[j] == changes[j];
        if TakenBackAfter(rest, j) {
          var l :| j < l < n && rest[l].change == Unassigned(k, account);
          assert changes[l].change == Unassigned(k, account);
        }
        if TakenBackAfter(changes, j) && last != Unassigned(k, account) {
          var l :| j < l < |changes| && changes[l].change == Unassigned(k, account);
          assert rest[l].change == Unassigned(k, account);
        }
        if last == Unassigned(k, account) { assert changes[n].change == Unassigned(k, account); }
      }
      if account in Net(rest, k) && last != Unassigned(k, account) {
        var j :| 0 <= j < n && rest[j].change.Assigned? && rest[j].change.issue == k
          && rest[j].change.account == account && !TakenBackAfter(rest, j);
        assert changes[j] == rest[j] && !TakenBackAfter(changes, j);
      }
      if last.Assigned? && last.issue == k && last.account == account {
        assert !TakenBackAfter(changes, n);
      }
      forall j | 0 <= j < n ensures rest[j] == changes[j] {
      }
    }
  }

  /**
   * The bot assigns an issue that nobody is assigned to if and only if every assignment made from
   * outside since the handler read it was taken back.
   */
  lemma AssignsUnassignedIff(ws: seq<World>, es: seq<Event>, issues: map<IssueKey, Issue>, capacity: nat, i: nat, n: nat)
    requires IsRun(ws, es, issues, capacity) && i < |ws| && n < |ws[i].log|
    ensures var w, a := ws[i], ws[i].log[n];
      && a.doer < |w.handlers| && a.note.readAt <= a.at < |w.history|
      && (a.before == {} <==> TakenBack(SinceRead(w, a), w.handlers[a.doer].issue))
  {
    hide IsRun, Net, OutsideOnly, Gains, Losses, GainsUnlimited, Grows, TakenBackAfter;
    IsExplained(ws, es, issues, capacity, i, n);
    var a := ws[i].log[n];
    var k := ws[i].handlers[a.doer].issue;
    var since := SinceRead(ws[i], a);
    forall account ensures account in Net(since, k) <==>
      exists j :: 0 <= j < |since| && since[j].change.Assigned? && since[j].change.issue == k
        && since[j].change.account == account && !TakenBackAfter(since, j)
    {
      NetMember(since, k, account);
    }
    if a.before == {} {
      forall j | 0 <= j < |since| && since[j].change.Assigned? && since[j].change.issue == k ensures TakenBackAfter(since, j) {
        assert since[j].change.account !in Net(since, k);
      }
    } else {
      var account :| account in a.before;
      assert account in Net(since, k);
    }
  }

  /**
   * An assignment keeps to the limit if and only if what the contributor gained since the count,
   * this issue included, is made up for by what they lost and by the room that was counted.
   */
  lemma WithinLimitIff(ws: seq<World>, es: seq<Event>, issues: map<IssueKey, Issue>, capacity: nat, i: nat, n: nat)
    requires IsRun(ws, es, issues, capacity) && i < |ws| && n < |ws[i].log|
    requires ws[i].log[n].doer < |ws[i].handlers| && ws[i].handlers[ws[i].log[n].doer].limit.Some?
    ensures var w, a := ws[i], ws[i].log[n];
      var h, c := w.handlers[a.doer], w.handlers[a.doer].Contributor();
      && a.note.countedAt <= a.at < |w.history| && a.note.counted < h.limit.value
      && (a.openAfter <= h.limit.value <==>
          Gains(SinceCount(w, a), c) + (if AddsOne(w.history, a, h) then 1 else 0)
          <= Losses(SinceCount(w, a), c) + (h.limit.value - a.note.counted))
  {
    hide IsRun, Net, OutsideOnly, Gains, Losses, GainsUnlimited, Grows;
    IsExplained(ws, es, issues, capacity, i, n);
  }

  lemma {:induction false} NoGains(changes: seq<Moment>, c: ContributorKey)
    requires forall m :: m in changes ==> !Grows(m, c)
    ensures Gains(changes, c) == 0
  {
    if changes != [] {
      assert changes[|changes| - 1] in changes;
      NoGains(changes[..|changes| - 1], c);
    }
  }

  /** Every assignment by a handler in the history is logged. */
  ghost predicate Logged(history: seq<Moment>, log: seq<Assignment>) {
    forall j :: 0 <= j < |history| && history[j].change.Assigned? && history[j].change.who.Some? ==>
      exists a :: a in log && a.at == j
  }

  lemma StepLogs(w: World, e: Event)
    requires Enabled(w, e) && Logged(w.history, w.log)
    ensures Logged(Step(w, e).history, Step(w, e).log)
  {
    hide Apply, OpenFor, Holds, CanGrant, Grant, Release, Enter;
    var w' := Step(w, e);
    if e.Assigns? && w'.log != w.log {
      var entry := w'.log[|w.log|];
      assert entry in w'.log && entry.at == |w.history|;
    }
    forall a | a in w.log ensures a in w'.log {
    }
  }

  lemma {:induction false} EveryAssignmentIsLogged(ws: seq<World>, es: seq<Event>, issues: map<IssueKey, Issue>, capacity: nat, i: nat)
    requires IsRun(ws, es, issues, capacity) && i < |ws|
    ensures Logged(ws[i].history, ws[i].log)
  {
    if i > 0 {
      hide Step, Enabled, Logged;
      EveryAssignmentIsLogged(ws, es, issues, capacity, i - 1);
      StepLogs(ws[i - 1], es[i - 1]);
    } else {
      assert ws[0].history == [];
    }
  }

  /** The history is what happened on GitHub: it leads from the first issues to the present ones. */
  lemma HistoryIsTrue(ws: seq<World>, es: seq<Event>, issues: map<IssueKey, Issue>, capacity: nat, i: nat)
    requires IsRun(ws, es, issues, capacity) && i < |ws|
    ensures Chained(ws[i].history, issues, ws[i].issues)
  {
    hide IsRun, Ok, IssueSections, ContributorSections, ReadsHold, CountsHold, OneByBot, Chained, LogOk;
    RunKeeps(ws, es, issues, capacity, i);
  }

  /** Who assigns a contributor is a handler acting for them. */
  lemma ActsForContributor(ws: seq<World>, es: seq<Event>, issues: map<IssueKey, Issue>, capacity: nat, i: nat, m: Moment, c: ContributorKey)
    requires IsRun(ws, es, issues, capacity) && i < |ws| && m in ws[i].history
    requires m.change.Assigned? && m.change.who.Some? && Grows(m, c)
    ensures m.change.who.value < |ws[i].handlers| && ws[i].handlers[m.change.who.value].Contributor() == c
  {
    hide IsRun, Net, OutsideOnly, Gains, Losses, GainsUnlimited;
    EveryAssignmentIsLogged(ws, es, issues, capacity, i);
    var w := ws[i];
    var j :| 0 <= j < |w.history| && w.history[j] == m;
    var a :| a in w.log && a.at == j;
    var n :| 0 <= n < |w.log| && w.log[n] == a;
    IsExplained(ws, es, issues, capacity, i, n);
  }

  /** Nobody but the handlers assigns, nothing is reopened, and everyone acting for this contributor has a limit. */
  ghost predicate Undisturbed(w: World, c: ContributorKey) {
    && (forall m :: m in w.history ==> !m.change.Reopened? && (m.change.Assigned? ==> m.change.who.Some?))
    && forall t :: 0 <= t < |w.handlers| && w.handlers[t].Contributor() == c ==> w.handlers[t].limit.Some?
  }

  /** Left undisturbed, the bot only assigns unassigned issues, and never above a limit. */
  lemma UndisturbedAssignments(ws: seq<World>, es: seq<Event>, issues: map<IssueKey, Issue>, capacity: nat, i: nat, n: nat)
    requires IsRun(ws, es, issues, capacity) && i < |ws| && n < |ws[i].log|
    requires ws[i].log[n].doer < |ws[i].handlers|
    requires Undisturbed(ws[i], ws[i].handlers[ws[i].log[n].doer].Contributor())
    ensures var h, a := ws[i].handlers[ws[i].log[n].doer], ws[i].log[n];
      a.before == {} && (h.limit.Some? ==> a.openAfter <= h.limit.value)
  {
    hide IsRun, Net, OutsideOnly, Gains, Losses;
    AssignmentsAreSafe(ws, es, issues, capacity, i, n);
    var w, a := ws[i], ws[i].log[n];
    var h := w.handlers[a.doer];
    forall m | m in SinceRead(w, a) ensures m in w.history {
    }
    assert Outside(SinceRead(w, a), h.issue) == {};
    if h.limit.Some? {
      forall m | m in SinceCount(w, a) ensures !Grows(m, h.Contributor()) {
        assert m in w.history;
        if Grows(m, h.Contributor()) { ActsForContributor(ws, es, issues, capacity, i, m, h.Contributor()); }
      }
      NoGains(SinceCount(w, a), h.Contributor());
    }
  }

  // ---------------------------------------------------------------- a disturbed assignment

  function K(number: nat): IssueKey { IssueKey("o", "r", number) }

  const U := ContributorKey("o", "r", "u")

  /** One open and one closed issue of `u`, and an open issue of nobody. */
  function Board(): map<IssueKey, Issue> {
    map[K(1) := Issue(true, {"u"}), K(2) := Issue(false, {"u"}), K(3) := Issue(true, {})]
  }

  function IssueLock(): Registry<IssueKey> {
    match Enter(NewRegistry(1), 0, K(3)) case Some(r) => r case None => NewRegistry(1)
  }

  function ContributorLock(): Registry<ContributorKey> {
    match Enter(NewRegistry(1), 0, U) case Some(r) => r case None => NewRegistry(1)
  }

  /** The handler of `u` asking for the third issue, with a limit of two. */
  function Asking(place: Place): seq<Handler> {
    [Handler(K(3), "u", Some(2), place)]
  }

  function Working(place: Place, locks: Registry<ContributorKey>, notes: map<Task, Note>): World {
    World(Board(), IssueLock(), locks, Asking(place), notes, [], [])
  }

  lemma EnterNew<Key(!new)>(key: Key)
    ensures var r := Enter(NewRegistry(1), 0, key); r.Some? && Holds(r.value, 0)
  {
  }

  lemma FoldedU(h: Handler)
    requires h.login == "u"
    ensures h.Account() == "u"
  {
    assert Text.Lower("u") == "u";
  }

  lemma Asks()
    ensures var h := Handler(K(3), "u", Some(2), Arriving);
      var w0, w1 := Start(Board(), 1), Start(Board(), 1).(handlers := [h]);
      && Enabled(w0, Arrives(h)) && Step(w0, Arrives(h)) == w1
      && Enabled(w1, Begins(0)) && Step(w1, Begins(0)) == Working(AtIssue, NewRegistry(1), map[])
  {
    hide Enter, Board;
    EnterNew(K(3));
  }

  lemma Reads()
    ensures var w := Working(AtIssue, NewRegistry(1), map[]);
      && Enabled(w, ReadsIssue(0))
      && Step(w, ReadsIssue(0)) == Working(AtContributor, ContributorLock(), map[0 := Note(0, 0, 0)])
  {
    hide Enter, Holds;
    EnterNew(K(3));
    EnterNew(U);
    FoldedU(Handler(K(3), "u", Some(2), AtIssue));
    assert Handler(K(3), "u", Some(2), AtIssue).Contributor() == U;
    assert K(3) in Board() && Board()[K(3)].assignees == {};
    hide Board, Handler.Contributor;
  }

  lemma CountsOne()
    ensures var w := Working(AtContributor, ContributorLock(), map[0 := Note(0, 0, 0)]);
      && Enabled(w, Counts(0, true))
      && Step(w, Counts(0, true)) == Working(Checking, ContributorLock(), map[0 := Note(0, 0, 1)])
  {
    hide Enter, Holds;
    EnterNew(U);
    FoldedU(Handler(K(3), "u", Some(2), AtContributor));
    assert Handler(K(3), "u", Some(2), AtContributor).Contributor() == U;
    assert OpenFor(Board(), U) == {K(1)};
    hide Board, OpenFor, Handler.Contributor;
  }

  lemma ChecksOut()
    ensures var w := Working(Checking, ContributorLock(), map[0 := Note(0, 0, 1)]);
      && Enabled(w, Checks(0, true))
      && Step(w, Checks(0, true)) == Working(Assigning, ContributorLock(), map[0 := Note(0, 0, 1)])
  {
    hide Enter, Board;
  }

  /** The board after someone reopens the second issue, and after someone assigns the third to `v`. */
  function Reopening(): map<IssueKey, Issue> {
    map[K(1) := Issue(true, {"u"}), K(2) := Issue(true, {"u"}), K(3) := Issue(true, {})]
  }

  function Meddling(): map<IssueKey, Issue> {
    map[K(1) := Issue(true, {"u"}), K(2) := Issue(true, {"u"}), K(3) := Issue(true, {"v"})]
  }

  function Disturbed(issues: map<IssueKey, Issue>, history: seq<Moment>): World {
    World(issues, IssueLock(), ContributorLock(), Asking(Assigning), map[0 := Note(0, 0, 1)], history, [])
  }

  lemma OthersMeddle()
    ensures var w5 := Working(Assigning, ContributorLock(), map[0 := Note(0, 0, 1)]);
      var first := Moment(Board(), Reopened(K(2)));
      var w6 := Disturbed(Reopening(), [first]);
      var w7 := Disturbed(Meddling(), [first, Moment(Reopening(), Assigned(K(3), "v", None))]);
      && Enabled(w5, Reopens(K(2))) && Step(w5, Reopens(K(2))) == w6
      && Enabled(w6, AssignsOutside(K(3), "v")) && Step(w6, AssignsOutside(K(3), "v")) == w7
  {
    assert Apply(Board(), Reopened(K(2))) == Reopening();
    assert {} + {"v"} == {"v"};
    assert Apply(Reopening(), Assigned(K(3), "v", None)) == Meddling();
    hide Apply;
  }

  lemma AssignsAnyway(history: seq<Moment>)
    ensures var w := Disturbed(Meddling(), history);
      && Enabled(w, Assigns(0, true, true))
      && var w' := Step(w, Assigns(0, true, true));
         && |w'.log| == 1 && w'.log[0].before == {"v"} && w'.log[0].openAfter == 3 && w'.log[0].doer == 0
         && |w'.handlers| == 1 && w'.handlers[0].limit == Some(2)
  {
    var w := Disturbed(Meddling(), history);
    FoldedU(w.handlers[0]);
    assert w.handlers[0].Contributor() == U;
    assert OpenFor(Apply(Meddling(), Assigned(K(3), "u", Some(0))), U) == {K(1), K(2), K(3)};
    hide Release, Enter, Apply, OpenFor;
  }

  /**
   * Others can get between the check and the assignment: reopening an issue takes the contributor
   * to three open issues under a limit of two, and someone else's assignment gives the issue two
   * assignees.
   */
  lemma OthersBreakBoth() returns (ws: seq<World>, es: seq<Event>)
    ensures IsRun(ws, es, Board(), 1) && |ws| == 9
    ensures |ws[8].log| == 1 && ws[8].log[0].doer < |ws[8].handlers| && ws[8].handlers[ws[8].log[0].doer].limit == Some(2)
    ensures ws[8].log[0].openAfter == 3 && ws[8].log[0].before == {"v"}
  {
    hide Step, Enabled, Enter;
    Asks();
    Reads();
    CountsOne();
    ChecksOut();
    OthersMeddle();
    var h := Handler(K(3), "u", Some(2), Arriving);
    es := [Arrives(h), Begins(0), ReadsIssue(0), Counts(0, true), Checks(0, true), Reopens(K(2)), AssignsOutside(K(3), "v"),
           Assigns(0, true, true)];
    var w3 := Working(AtContributor, ContributorLock(), map[0 := Note(0, 0, 0)]);
    var w4, w5 := Working(Checking, ContributorLock(), map[0 := Note(0, 0, 1)]), Working(Assigning, ContributorLock(), map[0 := Note(0, 0, 1)]);
    var first := Moment(Board(), Reopened(K(2)));
    var history := [first, Moment(Reopening(), Assigned(K(3), "v", None))];
    var w7 := Disturbed(Meddling(), history);
    AssignsAnyway(history);
    ws := [Start(Board(), 1), Start(Board(), 1).(handlers := [h]), Working(AtIssue, NewRegistry(1), map[]), w3, w4, w5,
           Disturbed(Reopening(), [first]), w7, Step(w7, Assigns(0, true, true))];
    hide Working, Disturbed, Start, Board, Reopening, Meddling;
  }

  /** At most one of an issue's assignees is there only through the bot. */
  lemma OneAssigneeByBot(ws: seq<World>, es: seq<Event>, issues: map<IssueKey, Issue>, capacity: nat, i: nat, k: IssueKey)
    requires IsRun(ws, es, issues, capacity) && i < |ws| && k in ws[i].issues
    ensures |ws[i].issues[k].assignees - InitiallyAssigned(issues, k) - Outside(ws[i].history, k)| <= 1
  {
    hide IsRun, Ok, IssueSections, ContributorSections, ReadsHold, CountsHold, Chained, LogOk, Outside;
    RunKeeps(ws, es, issues, capacity, i);
    var byBot := ByBot(ws[i].issues, ws[i].history, issues, k);
    if byBot != {} {
      var a :| a in byBot;
      assert byBot == {a};
    }
  }

  /** So an issue that no one was assigned to at the start, and no one else ever assigns, never has two assignees. */
  lemma NeverTwoAssignees(ws: seq<World>, es: seq<Event>, issues: map<IssueKey, Issue>, capacity: nat, i: nat, k: IssueKey)
    requires IsRun(ws, es, issues, capacity) && i < |ws| && k in ws[i].issues
    requires InitiallyAssigned(issues, k) == {} && OutsideOnlyTakesBack(ws[i].history, k)
    ensures |ws[i].issues[k].assignees| <= 1
  {
    hide IsRun;
    OneAssigneeByBot(ws, es, issues, capacity, i, k);
    assert Outside(ws[i].history, k) == {};
    assert ws[i].issues[k].assignees - {} - {} == ws[i].issues[k].assignees;
  }

  ghost predicate OutsideOnlyTakesBack(history: seq<Moment>, k: IssueKey) {
    forall m :: m in history && m.change.Assigned? && m.change.issue == k ==> m.change.who.Some?
  }

  // ---------------------------------------------------------------- no deadlock

  predicate Unfinished(w: World, t: Task) {
    t < |w.handlers| && w.handlers[t].place != Finished
  }

  /** A step of a handler that goes on, rather than being cancelled or failing. */
  predicate GoesOn(e: Event) {
    ByHandler(e) && !e.Fails?
  }

  /** A handler that is neither queued for its issue nor for its contributor can go on. */
  lemma UnqueuedGoesOn(w: World, t: Task) returns (e: Event)
    requires Unfinished(w, t)
    requires w.handlers[t].place == AtIssue ==> Holds(w.issueLocks, t)
    requires w.handlers[t].place == AtContributor ==> Holds(w.contributorLocks, t)
    ensures GoesOn(e) && Enabled(w, e)
  {
    hide Holds;
    match w.handlers[t].place
    case Arriving => e := Begins(t);
    case AtIssue => e := ReadsIssue(t);
    case AtContributor => e := Counts(t, true);
    case Checking => e := Checks(t, true);
    case Assigning => e := Assigns(t, true, true);
    case Confirming => e := Confirms(t);
    case Recording => e := Records(t);
    case Refusing(_) => e := Refuses(t);
  }

  /** A handler not queued for its issue goes on, or one holding the same contributor does. */
  lemma PastIssueGoesOn(w: World, t: Task) returns (e: Event)
    requires Ok(w.contributorLocks) && ContributorSections(w.handlers, w.contributorLocks)
    requires Unfinished(w, t) && (w.handlers[t].place == AtIssue ==> Holds(w.issueLocks, t))
    ensures GoesOn(e) && Enabled(w, e)
  {
    hide Ok, Holds;
    if w.handlers[t].place == AtContributor && !Holds(w.contributorLocks, t) {
      var s := QueueMoves(w.contributorLocks, t);
      if Holds(w.contributorLocks, s) {
        e := UnqueuedGoesOn(w, s);
      } else {
        assert At(w, s, AtContributor);
        e := GetsContributorLock(s);
      }
    } else {
      e := UnqueuedGoesOn(w, t);
    }
  }

  /**
   * The two levels of locks never deadlock: as long as some handler is unfinished, some handler can
   * take its next step.
   */
  lemma NeverDeadlocked(ws: seq<World>, es: seq<Event>, issues: map<IssueKey, Issue>, capacity: nat, i: nat, t: Task)
    returns (e: Event)
    requires IsRun(ws, es, issues, capacity) && i < |ws| && Unfinished(ws[i], t)
    ensures GoesOn(e) && Enabled(ws[i], e)
  {
    hide Ok, Holds, IsRun, ContributorSections, CountsHold, ReadsHold, LogOk, OneByBot, Chained;
    RunKeeps(ws, es, issues, capacity, i);
    var w := ws[i];
    if w.handlers[t].place == AtIssue && !Holds(w.issueLocks, t) {
      var s := QueueMoves(w.issueLocks, t);
      if Holds(w.issueLocks, s) {
        e := PastIssueGoesOn(w, s);
      } else {
        assert At(w, s, AtIssue);
        e := GetsIssueLock(s);
      }
    } else {
      e := PastIssueGoesOn(w, t);
    }
  }

  // ---------------------------------------------------------------- termination

  /** An upper bound on the steps a handler has left. */
  function StepsLeft(h: Handler, holdsIssue: bool, holdsContributor: bool): nat {
    match h.place
    case Arriving => 9
    case AtIssue => if holdsIssue then 7 else 8
    case AtContributor => if holdsContributor then 5 else 6
    case Checking => 4
    case Assigning => 3
    case Confirming => 2
    case Recording => 1
    case Refusing(_) => 1
    case Finished => 0
  }

  function Left(w: World, t: Task): nat
    requires t < |w.handlers|
  {
    StepsLeft(w.handlers[t], Holds(w.issueLocks, t), Holds(w.contributorLocks, t))
  }

  function TotalLeft(w: World, n: nat): nat
    requires n <= |w.handlers|
  {
    if n == 0 then 0 else TotalLeft(w, n - 1) + Left(w, n - 1)
  }

  lemma {:induction false} TotalDrops(w: World, w': World, n: nat, t: Task)
    requires n <= |w.handlers| && n <= |w'.handlers|
    requires forall s :: 0 <= s < n ==> Left(w', s) <= Left(w, s)
    requires t < n ==> Left(w', t) < Left(w, t)
    ensures TotalLeft(w', n) + (if t < n then 1 else 0) <= TotalLeft(w, n)
  {
    hide Left;
    if n > 0 { TotalDrops(w, w', n - 1, t); }
  }

  predicate Keeps<K(==)>(r: Registry<K>, r': Registry<K>, t: Task) {
    forall s :: s in r.uses && Holds(r, s) && s != t ==> Holds(r', s)
  }

  function Actor(e: Event): Task
    requires ByHandler(e)
  {
    match e
    case Begins(t) => t
    case GetsIssueLock(t) => t
    case ReadsIssue(t) => t
    case GetsContributorLock(t) => t
    case Counts(t, _) => t
    case Checks(t, _) => t
    case Assigns(t, _, _) => t
    case Confirms(t) => t
    case Records(t) => t
    case Refuses(t) => t
    case Fails(t) => t
  }

  lemma ReleaseKeeps<K(!new)>(r: Registry<K>, t: Task)
    requires Ok(r)
    ensures Keeps(r, Release(r, t), t)
  {
    if t in r.uses { LeaveKeeps(r, t); }
    hide Ok, Leave, Holds;
  }

  /** A step of one handler takes no lock from another. */
  lemma StepTakesNothing(w: World, e: Event)
    requires Locked(w) && Enabled(w, e) && ByHandler(e)
    ensures Keeps(w.issueLocks, Step(w, e).issueLocks, Actor(e))
    ensures Keeps(w.contributorLocks, Step(w, e).contributorLocks, Actor(e))
  {
    hide Ok, Holds, Enter, Grant, Release, Assign;
    var t := Actor(e);
    ReleaseKeeps(w.issueLocks, t);
    ReleaseKeeps(w.contributorLocks, t);
    match e
    case Begins(_) =>
      assert t !in w.issueLocks.uses;
      if Enter(w.issueLocks, t, w.handlers[t].issue).Some? { EnterKeeps(w.issueLocks, t, w.handlers[t].issue); }
    case GetsIssueLock(_) => GrantKeeps(w.issueLocks, t);
    case ReadsIssue(_) =>
      assert t !in w.contributorLocks.uses;
      if Enter(w.contributorLocks, t, w.handlers[t].Contributor()).Some? {
        EnterKeeps(w.contributorLocks, t, w.handlers[t].Contributor());
      }
    case GetsContributorLock(_) => GrantKeeps(w.contributorLocks, t);
    case Assigns(_, takesEffect, succeeds) => AssignReleases(w, t, takesEffect, succeeds);
    case _ =>
  }

  lemma AssignReleases(w: World, t: Task, takesEffect: bool, succeeds: bool)
    requires t < |w.handlers|
    ensures var w' := Assign(w, t, takesEffect, succeeds);
      && w'.issueLocks in {w.issueLocks, Release(w.issueLocks, t)}
      && w'.contributorLocks in {w.contributorLocks, Release(w.contributorLocks, t)}
  {
    hide Release, Apply, OpenFor;
  }

  lemma StepAdvances(w: World, e: Event)
    requires Locked(w) && Enabled(w, e) && ByHandler(e)
    ensures |Step(w, e).handlers| == |w.handlers| && Actor(e) < |w.handlers|
    ensures forall s :: 0 <= s < |w.handlers| && s != Actor(e) ==> Step(w, e).handlers[s] == w.handlers[s]
    ensures Left(Step(w, e), Actor(e)) < Left(w, Actor(e))
  {
    hide Ok, Enter, Release, IssueSections, ContributorSections, OpenFor, Assign,
      ReadIssue, Holds, CanGrant, Grant;
    var t := Actor(e);
    match e
    case GetsIssueLock(_) => GrantMoves(w.issueLocks, t);
    case GetsContributorLock(_) => GrantMoves(w.contributorLocks, t);
    case Assigns(_, takesEffect, succeeds) => AssignMoves(w, t, takesEffect, succeeds);
    case ReadsIssue(_) => ReadMoves(w, t);
    case _ =>
  }

  lemma AssignMoves(w: World, t: Task, takesEffect: bool, succeeds: bool)
    requires t < |w.handlers|
    ensures Assign(w, t, takesEffect, succeeds).handlers
      == w.handlers[t := w.handlers[t].(place := if succeeds then Confirming else Finished)]
  {
    hide Release, Apply, OpenFor;
  }

  lemma ReadMoves(w: World, t: Task)
    requires At(w, t, AtIssue) && Holds(w.issueLocks, t)
    ensures |ReadIssue(w, t).handlers| == |w.handlers|
    ensures forall s :: 0 <= s < |w.handlers| && s != t ==> ReadIssue(w, t).handlers[s] == w.handlers[s]
    ensures ReadIssue(w, t).handlers[t].place in {AtContributor, Checking, Refusing(false), Finished}
  {
    hide Release, Enter, Holds;
  }

  lemma GrantMoves<K(!new)>(r: Registry<K>, t: Task)
    requires Ok(r) && CanGrant(r, t)
    ensures !Holds(r, t) && Holds(Grant(r, t), t)
  {
    hide Ok;
    GrantKeeps(r, t);
  }

  lemma HandlerUsesUp(w: World, e: Event)
    requires Locked(w) && Enabled(w, e) && ByHandler(e)
    ensures |Step(w, e).handlers| == |w.handlers|
    ensures TotalLeft(Step(w, e), |w.handlers|) + 1 <= TotalLeft(w, |w.handlers|)
  {
    hide Locked, Step, Holds, Enabled;
    var w', n := Step(w, e), |w.handlers|;
    StepAdvances(w, e);
    StepTakesNothing(w, e);
    forall s | 0 <= s < n ensures Left(w', s) <= Left(w, s) {
      if s != Actor(e) { HeldOnlyInUse(w.issueLocks, s); HeldOnlyInUse(w.contributorLocks, s); }
    }
    TotalDrops(w, w', n, Actor(e));
  }

  lemma OthersUseNothing(w: World, e: Event)
    requires Enabled(w, e) && !ByHandler(e)
    ensures TotalLeft(Step(w, e), |Step(w, e).handlers|) <= TotalLeft(w, |w.handlers|) + if e.Arrives? then 9 else 0
  {
    hide Holds;
    var w', n := Step(w, e), |w.handlers|;
    assert w'.issueLocks == w.issueLocks && w'.contributorLocks == w.contributorLocks;
    TotalDrops(w, w', n, n);
    if e.Arrives? { assert TotalLeft(w', n + 1) == TotalLeft(w', n) + Left(w', n); }
  }

  /** Every step of a handler uses up at least one of the steps left. */
  lemma StepUsesUp(w: World, e: Event)
    requires Locked(w) && Enabled(w, e)
    ensures var w' := Step(w, e);
      TotalLeft(w', |w'.handlers|) + (if ByHandler(e) then 1 else 0)
      <= TotalLeft(w, |w.handlers|) + if e.Arrives? then 9 else 0
  {
    hide Locked, Step, Enabled, TotalLeft;
    if ByHandler(e) { HandlerUsesUp(w, e); } else { OthersUseNothing(w, e); }
  }

  lemma HeldOnlyInUse<K>(r: Registry<K>, s: Task)
    ensures Holds(r, s) ==> s in r.uses
  {
  }

  function HandlerSteps(es: seq<Event>): nat {
    if es == [] then 0 else HandlerSteps(es[..|es| - 1]) + if ByHandler(es[|es| - 1]) then 1 else 0
  }

  function Arrivals(es: seq<Event>): nat {
    if es == [] then 0 else Arrivals(es[..|es| - 1]) + if es[|es| - 1].Arrives? then 1 else 0
  }

  lemma LockedThere(ws: seq<World>, es: seq<Event>, issues: map<IssueKey, Issue>, capacity: nat, n: nat)
    requires IsRun(ws, es, issues, capacity) && n < |ws|
    ensures Locked(ws[n])
  {
    hide IsRun, Locked;
    RunKeeps(ws, es, issues, capacity, n);
  }

  /** Every handler finishes: a run has at most nine steps of handlers for each handler that arrives. */
  lemma {:induction false} HandlersTerminate(ws: seq<World>, es: seq<Event>, issues: map<IssueKey, Issue>, capacity: nat)
    requires IsRun(ws, es, issues, capacity)
    ensures HandlerSteps(es) + TotalLeft(ws[|es|], |ws[|es|].handlers|) <= 9 * Arrivals(es)
    decreases |es|
  {
    if es != [] {
      var n := |es| - 1;
      hide Step, Enabled;
      HandlersTerminate(ws[..n + 1], es[..n], issues, capacity);
      LockedThere(ws, es, issues, capacity, n);
      StepUsesUp(ws[n], es[n]);
    }
  }
}
