/**
 * The `/assign` command. A handler locks the issue, reads its assignees, then, when a limit is
 * configured, locks the contributor, counts their open issues and only then assigns.
 *
 * A world is GitHub's issues, the two lock tables and the handlers. Each step is one stretch of
 * a handler between two suspension points, or something that happens on GitHub meanwhile.
 */
module SelfAssign {
  import opened OrderedDict
  import opened LockRegistry
  import Sets
  import Text

  type Account = string

  datatype IssueKey = IssueKey(owner: string, repo: string, number: nat)
  datatype ContributorKey = ContributorKey(owner: string, repo: string, account: Account)

  /** An issue on GitHub, its assignees by case-folded login. */
  datatype Issue = Issue(open: bool, assignees: set<Account>)

  /** Where a handler is suspended, or that it has not begun or is finished. */
  datatype Place =
    | Arriving
    | AtIssue
    | AtContributor
    | Checking
    | Assigning
    | Confirming
    | Recording
    | Refusing(nested: bool)
    | Finished

  datatype Handler = Handler(issue: IssueKey, login: string, limit: Option<nat>, place: Place) {
    function Account(): Account { Text.Lower(login) }

    function Contributor(): ContributorKey { ContributorKey(issue.owner, issue.repo, Account()) }

    /** Inside the issue's critical section or queued for it. */
    predicate InIssue() { place != Arriving && place != Finished }

    /** Inside the contributor's critical section or queued for it. */
    predicate InContributor() {
      place == AtContributor || (limit.Some? && (place == Checking || place == Assigning)) || place == Refusing(true)
    }
  }

  /** A change of an issue on GitHub. Assignments are by one of the handlers, or by someone else. */
  datatype Change =
    | Opened(issue: IssueKey)
    | Closed(issue: IssueKey)
    | Reopened(issue: IssueKey)
    | Unassigned(issue: IssueKey, account: Account)
    | Assigned(issue: IssueKey, account: Account, who: Option<Task>)

  /** A change, and the issues just before it. */
  datatype Moment = Moment(issues: map<IssueKey, Issue>, change: Change)

  /** How many changes a handler's read and its count came after, and what it counted. */
  datatype Note = Note(readAt: nat, countedAt: nat, counted: nat)

  /**
   * One assignment by the bot: its place in the history, who was assigned just before it and how
   * many open issues the contributor held just after it.
   */
  datatype Assignment = Assignment(doer: Task, at: nat, note: Note, before: set<Account>, openAfter: nat)

  datatype World = World(
    issues: map<IssueKey, Issue>,
    issueLocks: Registry<IssueKey>,
    contributorLocks: Registry<ContributorKey>,
    handlers: seq<Handler>,
    notes: map<Task, Note>,
    history: seq<Moment>,
    log: seq<Assignment>)

  function OpenFor(issues: map<IssueKey, Issue>, c: ContributorKey): set<IssueKey> {
    set k | k in issues && k.owner == c.owner && k.repo == c.repo && issues[k].open && c.account in issues[k].assignees
  }

  datatype Event =
    | Begins(t: Task)
    | GetsIssueLock(t: Task)
    | ReadsIssue(t: Task)
    | GetsContributorLock(t: Task)
    | Counts(t: Task, readable: bool)
    | Checks(t: Task, passes: bool)
    | Assigns(t: Task, takesEffect: bool, succeeds: bool)
    | Confirms(t: Task)
    | Records(t: Task)
    | Refuses(t: Task)
    | Fails(t: Task)
    | Arrives(handler: Handler)
    | Opens(issue: IssueKey)
    | Closes(issue: IssueKey)
    | Reopens(issue: IssueKey)
    | Unassigns(issue: IssueKey, account: Account)
    | AssignsOutside(issue: IssueKey, account: Account)

  predicate ByHandler(e: Event) {
    !e.Arrives? && !e.Opens? && !e.Closes? && !e.Reopens? && !e.Unassigns? && !e.AssignsOutside?
  }

  predicate At(w: World, t: Task, place: Place) {
    t < |w.handlers| && w.handlers[t].place == place
  }

  predicate Enabled(w: World, e: Event) {
    match e
    case Begins(t) => At(w, t, Arriving)
    case GetsIssueLock(t) => At(w, t, AtIssue) && CanGrant(w.issueLocks, t)
    case ReadsIssue(t) => At(w, t, AtIssue) && Holds(w.issueLocks, t)
    case GetsContributorLock(t) => At(w, t, AtContributor) && CanGrant(w.contributorLocks, t)
    case Counts(t, _) => At(w, t, AtContributor) && Holds(w.contributorLocks, t)
    case Checks(t, _) => At(w, t, Checking)
    case Assigns(t, _, _) => At(w, t, Assigning)
    case Confirms(t) => At(w, t, Confirming)
    case Records(t) => At(w, t, Recording)
    case Refuses(t) => t < |w.handlers| && w.handlers[t].place.Refusing?
    case Fails(t) => t < |w.handlers| && w.handlers[t].InIssue()
    case Arrives(h) => h.place == Arriving
    case Opens(k) => k !in w.issues
    case Closes(k) => k in w.issues
    case Reopens(k) => k in w.issues
    case Unassigns(k, _) => k in w.issues
    case AssignsOutside(k, _) => k in w.issues
  }

  function Move(w: World, t: Task, place: Place): World
    requires t < |w.handlers|
  {
    w.(handlers := w.handlers[t := w.handlers[t].(place := place)])
  }

  function Release<K(==)>(r: Registry<K>, t: Task): Registry<K> {
    if Using(r, t) && r.locks[r.uses[t].lock].users > 0 then Leave(r, t) else r
  }

  /** The handler leaves every critical section it is in. */
  function Finish(w: World, t: Task): World
    requires t < |w.handlers|
  {
    Move(w, t, Finished).(
      issueLocks := Release(w.issueLocks, t),
      contributorLocks := if w.handlers[t].InContributor() then Release(w.contributorLocks, t) else w.contributorLocks)
  }

  function Begin(w: World, t: Task): World
    requires t < |w.handlers|
  {
    match Enter(w.issueLocks, t, w.handlers[t].issue)
    case None => Move(w, t, Finished)
    case Some(locks) => Move(w, t, AtIssue).(issueLocks := locks)
  }

  function ReadIssue(w: World, t: Task): World
    requires t < |w.handlers|
  {
    var h := w.handlers[t];
    if h.issue !in w.issues then Finish(w, t)
    else if w.issues[h.issue].assignees != {} then Move(w, t, Refusing(false))
    else if h.limit.None? then Move(w, t, Checking).(notes := w.notes[t := Note(|w.history|, |w.history|, 0)])
    else match Enter(w.contributorLocks, t, h.Contributor())
         case None => Finish(w, t)
         case Some(locks) => Move(w, t, AtContributor).(
           contributorLocks := locks, notes := w.notes[t := Note(|w.history|, |w.history|, 0)])
  }

  function Count(w: World, t: Task, readable: bool): World
    requires t < |w.handlers|
  {
    var h := w.handlers[t];
    var open := |OpenFor(w.issues, h.Contributor())|;
    if !readable || h.limit.None? || open >= h.limit.value then Move(w, t, Refusing(true))
    else
      var readAt := if t in w.notes then w.notes[t].readAt else 0;
      Move(w, t, Checking).(notes := w.notes[t := Note(readAt, |w.history|, open)])
  }

  function Check(w: World, t: Task, passes: bool): World
    requires t < |w.handlers|
  {
    Move(w, t, if passes then Assigning else Refusing(w.handlers[t].InContributor()))
  }

  function Apply(issues: map<IssueKey, Issue>, change: Change): map<IssueKey, Issue> {
    var k := change.issue;
    if change.Opened? then issues[k := Issue(true, {})]
    else if k !in issues then issues
    else match change
      case Closed(_) => issues[k := issues[k].(open := false)]
      case Reopened(_) => issues[k := issues[k].(open := true)]
      case Unassigned(_, account) => issues[k := issues[k].(assignees := issues[k].assignees - {account})]
      case Assigned(_, account, _) => issues[k := issues[k].(assignees := issues[k].assignees + {account})]
  }

  function Changed(w: World, change: Change): World {
    w.(issues := Apply(w.issues, change), history := w.history + [Moment(w.issues, change)])
  }

  /** GitHub carries out a handler's assignment. */
  function Effect(w: World, t: Task): World
    requires t < |w.handlers|
  {
    var h := w.handlers[t];
    if h.issue !in w.issues || t !in w.notes then w
    else
      var w' := Changed(w, Assigned(h.issue, h.Account(), Some(t)));
      w'.(log := w.log + [Assignment(t, |w.history|, w.notes[t], w.issues[h.issue].assignees,
                                     |OpenFor(w'.issues, h.Contributor())|)])
  }

  function Assign(w: World, t: Task, takesEffect: bool, succeeds: bool): World
    requires t < |w.handlers|
  {
    var done := if takesEffect then Effect(w, t) else w;
    if succeeds then
      Move(done, t, Confirming).(
        contributorLocks := if w.handlers[t].InContributor() then Release(w.contributorLocks, t) else w.contributorLocks)
    else Finish(done, t)
  }

  function Step(w: World, e: Event): World
    requires Enabled(w, e)
  {
    match e
    case Begins(t) => Begin(w, t)
    case GetsIssueLock(t) => w.(issueLocks := Grant(w.issueLocks, t))
    case ReadsIssue(t) => ReadIssue(w, t)
    case GetsContributorLock(t) => w.(contributorLocks := Grant(w.contributorLocks, t))
    case Counts(t, readable) => Count(w, t, readable)
    case Checks(t, passes) => Check(w, t, passes)
    case Assigns(t, takesEffect, succeeds) => Assign(w, t, takesEffect, succeeds)
    case Confirms(t) => Move(w, t, Recording)
    case Records(t) => Finish(w, t)
    case Refuses(t) => Finish(w, t)
    case Fails(t) => Finish(w, t)
    case Arrives(h) => w.(handlers := w.handlers + [h])
    case Opens(k) => Changed(w, Opened(k))
    case Closes(k) => Changed(w, Closed(k))
    case Reopens(k) => Changed(w, Reopened(k))
    case Unassigns(k, account) => Changed(w, Unassigned(k, account))
    case AssignsOutside(k, account) => Changed(w, Assigned(k, account, None))
  }

  function Start(issues: map<IssueKey, Issue>, capacity: nat): World {
    World(issues, NewRegistry(capacity), NewRegistry(capacity), [], map[], [], [])
  }

  ghost predicate IsRun(ws: seq<World>, es: seq<Event>, issues: map<IssueKey, Issue>, capacity: nat) {
    && |ws| == |es| + 1
    && ws[0] == Start(issues, capacity)
    && forall i :: 0 <= i < |es| ==> Enabled(ws[i], es[i]) && ws[i + 1] == Step(ws[i], es[i])
  }

  // ---------------------------------------------------------------- what every step keeps

  /** The tasks in the issue table are the handlers inside or queued for their issue's section. */
  ghost predicate IssueSections(handlers: seq<Handler>, locks: Registry<IssueKey>) {
    && (forall t :: t in locks.uses ==> t < |handlers| && handlers[t].InIssue() && locks.uses[t].key == handlers[t].issue)
    && (forall t :: 0 <= t < |handlers| && handlers[t].InIssue() ==> t in locks.uses)
    && (forall t :: 0 <= t < |handlers| && handlers[t].InIssue() && handlers[t].place != AtIssue ==> Holds(locks, t))
  }

  ghost predicate ContributorSections(handlers: seq<Handler>, locks: Registry<ContributorKey>) {
    && (forall t :: t in locks.uses ==>
          t < |handlers| && handlers[t].InContributor() && locks.uses[t].key == handlers[t].Contributor())
    && (forall t :: 0 <= t < |handlers| && handlers[t].InContributor() ==> t in locks.uses && handlers[t].limit.Some?)
    && (forall t :: 0 <= t < |handlers| && handlers[t].InContributor() && handlers[t].place != AtContributor ==> Holds(locks, t))
  }

  predicate Deciding(place: Place) {
    place == AtContributor || place == Checking || place == Assigning
  }

  /** The assignees of an issue that had none before these changes. */
  function Net(changes: seq<Moment>, k: IssueKey): set<Account> {
    if changes == [] then {}
    else
      var rest, last := Net(changes[..|changes| - 1], k), changes[|changes| - 1].change;
      if last.issue != k then rest
      else match last
        case Assigned(_, account, _) => rest + {account}
        case Unassigned(_, account) => rest - {account}
        case _ => rest
  }

  /** No handler assigned anyone to this issue. */
  ghost predicate OutsideOnly(changes: seq<Moment>, k: IssueKey) {
    forall m :: m in changes && m.change.Assigned? && m.change.issue == k ==> m.change.who == None
  }

  /** The change gives the contributor an open issue more. */
  predicate Grows(m: Moment, c: ContributorKey) {
    var k := m.change.issue;
    && k in m.issues && k.owner == c.owner && k.repo == c.repo
    && match m.change
       case Assigned(_, account, _) => account == c.account && m.issues[k].open && account !in m.issues[k].assignees
       case Reopened(_) => !m.issues[k].open && c.account in m.issues[k].assignees
       case _ => false
  }

  predicate Shrinks(m: Moment, c: ContributorKey) {
    var k := m.change.issue;
    && k in m.issues && k.owner == c.owner && k.repo == c.repo
    && m.issues[k].open && c.account in m.issues[k].assignees
    && match m.change
       case Closed(_) => true
       case Unassigned(_, account) => account == c.account
       case _ => false
  }

  function Gains(changes: seq<Moment>, c: ContributorKey): nat {
    if changes == [] then 0
    else Gains(changes[..|changes| - 1], c) + if Grows(changes[|changes| - 1], c) then 1 else 0
  }

  function Losses(changes: seq<Moment>, c: ContributorKey): nat {
    if changes == [] then 0
    else Losses(changes[..|changes| - 1], c) + if Shrinks(changes[|changes| - 1], c) then 1 else 0
  }

  /** The contributor gained open issues only from outside, or by handlers that run under no limit. */
  ghost predicate GainsUnlimited(handlers: seq<Handler>, changes: seq<Moment>, c: ContributorKey) {
    forall m :: m in changes && Grows(m, c) && m.change.Assigned? && m.change.who.Some? ==>
      m.change.who.value < |handlers| && handlers[m.change.who.value].limit.None?
  }

  /** A handler that found its issue unassigned sees there now just what was done from outside since. */
  ghost predicate ReadHolds(h: Handler, note: Note, issues: map<IssueKey, Issue>, history: seq<Moment>) {
    && h.issue in issues && note.readAt <= |history|
    && issues[h.issue].assignees == Net(history[note.readAt..], h.issue)
    && OutsideOnly(history[note.readAt..], h.issue)
  }

  ghost predicate ReadsHold(handlers: seq<Handler>, notes: map<Task, Note>, issues: map<IssueKey, Issue>, history: seq<Moment>) {
    forall t :: 0 <= t < |handlers| && Deciding(handlers[t].place) ==>
      t in notes && ReadHolds(handlers[t], notes[t], issues, history)
  }

  /** A handler that found room under its limit can account for every open issue since. */
  ghost predicate CountHolds(handlers: seq<Handler>, h: Handler, note: Note, issues: map<IssueKey, Issue>, history: seq<Moment>) {
    h.place in {Checking, Assigning} && h.limit.Some? ==>
      && note.counted < h.limit.value && note.countedAt <= |history|
      && |OpenFor(issues, h.Contributor())| + Losses(history[note.countedAt..], h.Contributor())
         == note.counted + Gains(history[note.countedAt..], h.Contributor())
      && GainsUnlimited(handlers, history[note.countedAt..], h.Contributor())
  }

  ghost predicate CountsHold(handlers: seq<Handler>, notes: map<Task, Note>, issues: map<IssueKey, Issue>, history: seq<Moment>) {
    forall t :: 0 <= t < |handlers| && t in notes ==> CountHolds(handlers, handlers[t], notes[t], issues, history)
  }

  /** The assignment gives the contributor one more open issue. */
  predicate AddsOne(history: seq<Moment>, a: Assignment, h: Handler) {
    a.at < |history| && Grows(history[a.at], h.Contributor())
  }

  /** An assignment, explained by what happened since its handler's read and count. */
  ghost predicate Explained(handlers: seq<Handler>, history: seq<Moment>, a: Assignment) {
    && a.doer < |handlers| && a.note.readAt <= a.at < |history|
    && var h := handlers[a.doer];
    && history[a.at].change == Assigned(h.issue, h.Account(), Some(a.doer))
    && h.issue in history[a.at].issues && a.before == history[a.at].issues[h.issue].assignees
    && a.before == Net(history[a.note.readAt..a.at], h.issue)
    && OutsideOnly(history[a.note.readAt..a.at], h.issue)
    && (h.limit.Some? ==>
        && a.note.counted < h.limit.value && a.note.countedAt <= a.at
        && a.openAfter + Losses(history[a.note.countedAt..a.at], h.Contributor())
           == a.note.counted + Gains(history[a.note.countedAt..a.at], h.Contributor())
              + (if AddsOne(history, a, h) then 1 else 0)
        && GainsUnlimited(handlers, history[a.note.countedAt..a.at], h.Contributor()))
  }

  ghost predicate LogOk(handlers: seq<Handler>, history: seq<Moment>, log: seq<Assignment>) {
    forall i :: 0 <= i < |log| ==> Explained(handlers, history, log[i])
  }

  /** The accounts that someone else assigned to the issue. */
  function Outside(history: seq<Moment>, k: IssueKey): set<Account> {
    set m | m in history && m.change.Assigned? && m.change.issue == k && m.change.who == None :: m.change.account
  }

  function InitiallyAssigned(initial: map<IssueKey, Issue>, k: IssueKey): set<Account> {
    if k in initial then initial[k].assignees else {}
  }

  /** The assignees that are there only through the bot. */
  function ByBot(issues: map<IssueKey, Issue>, history: seq<Moment>, initial: map<IssueKey, Issue>, k: IssueKey): set<Account>
    requires k in issues
  {
    issues[k].assignees - InitiallyAssigned(initial, k) - Outside(history, k)
  }

  ghost predicate OneByBot(issues: map<IssueKey, Issue>, history: seq<Moment>, initial: map<IssueKey, Issue>) {
    forall k, a, b :: k in issues && a in ByBot(issues, history, initial, k) && b in ByBot(issues, history, initial, k) ==> a == b
  }

  /** The history leads from the first issues to these. */
  ghost predicate Chained(history: seq<Moment>, initial: map<IssueKey, Issue>, issues: map<IssueKey, Issue>) {
    if history == [] then issues == initial
    else
      var last := history[|history| - 1];
      issues == Apply(last.issues, last.change) && Chained(history[..|history| - 1], initial, last.issues)
  }

  /** Both lock tables are in order and agree with where the handlers are. */
  ghost predicate Locked(w: World) {
    && Ok(w.issueLocks)
    && Ok(w.contributorLocks)
    && IssueSections(w.handlers, w.issueLocks)
    && ContributorSections(w.handlers, w.contributorLocks)
  }

  /** The handlers can account for what they see on GitHub, and the log and the history tell what happened there. */
  ghost predicate Pictured(w: World, initial: map<IssueKey, Issue>) {
    && ReadsHold(w.handlers, w.notes, w.issues, w.history)
    && CountsHold(w.handlers, w.notes, w.issues, w.history)
    && LogOk(w.handlers, w.history, w.log)
    && OneByBot(w.issues, w.history, initial)
    && Chained(w.history, initial, w.issues)
  }

  ghost predicate Inv(w: World, initial: map<IssueKey, Issue>) {
    Locked(w) && Pictured(w, initial)
  }

  // ---------------------------------------------------------------- moving, entering and leaving

  lemma IssueMoves(handlers: seq<Handler>, locks: Registry<IssueKey>, t: Task, place: Place)
    requires IssueSections(handlers, locks) && t < |handlers|
    requires handlers[t].InIssue() && handlers[t].(place := place).InIssue() && (place == AtIssue || Holds(locks, t))
    ensures IssueSections(handlers[t := handlers[t].(place := place)], locks)
  {
    hide Holds;
  }

  lemma IssueLeaves(handlers: seq<Handler>, locks: Registry<IssueKey>, t: Task)
    requires IssueSections(handlers, locks) && Ok(locks) && t < |handlers| && handlers[t].InIssue()
    ensures Ok(Release(locks, t)) && IssueSections(handlers[t := handlers[t].(place := Finished)], Release(locks, t))
    ensures forall s :: Holds(locks, s) && s != t ==> Holds(Release(locks, t), s)
  {
    LeaveKeeps(locks, t);
    hide Holds, Leave, Ok;
  }

  lemma IssueEnters(handlers: seq<Handler>, locks: Registry<IssueKey>, t: Task)
    requires IssueSections(handlers, locks) && Ok(locks) && t < |handlers| && handlers[t].place == Arriving
    ensures t !in locks.uses
    ensures Enter(locks, t, handlers[t].issue).Some? ==>
      && Ok(Enter(locks, t, handlers[t].issue).value)
      && IssueSections(handlers[t := handlers[t].(place := AtIssue)], Enter(locks, t, handlers[t].issue).value)
    ensures IssueSections(handlers[t := handlers[t].(place := Finished)], locks)
  {
    hide Holds, Enter, Ok;
    if Enter(locks, t, handlers[t].issue).Some? {
      EnterKeeps(locks, t, handlers[t].issue);
    }
  }

  lemma ContributorMoves(handlers: seq<Handler>, locks: Registry<ContributorKey>, t: Task, place: Place)
    requires ContributorSections(handlers, locks) && t < |handlers|
    requires handlers[t].InContributor() == handlers[t].(place := place).InContributor()
    requires handlers[t].InContributor() ==> place == AtContributor || Holds(locks, t)
    ensures ContributorSections(handlers[t := handlers[t].(place := place)], locks)
  {
    hide Holds;
    var h := handlers[t].(place := place);
    assert h.Contributor() == handlers[t].Contributor();
  }

  lemma ContributorLeaves(handlers: seq<Handler>, locks: Registry<ContributorKey>, t: Task, place: Place)
    requires ContributorSections(handlers, locks) && Ok(locks) && t < |handlers| && handlers[t].InContributor()
    requires !handlers[t].(place := place).InContributor()
    ensures Ok(Release(locks, t)) && ContributorSections(handlers[t := handlers[t].(place := place)], Release(locks, t))
  {
    LeaveKeeps(locks, t);
    hide Holds, Leave, Ok;
  }

  lemma ContributorEnters(handlers: seq<Handler>, locks: Registry<ContributorKey>, t: Task)
    requires ContributorSections(handlers, locks) && Ok(locks) && t < |handlers|
    requires !handlers[t].InContributor() && handlers[t].limit.Some?
    requires Enter(locks, t, handlers[t].Contributor()).Some?
    ensures Ok(Enter(locks, t, handlers[t].Contributor()).value)
    ensures ContributorSections(handlers[t := handlers[t].(place := AtContributor)],
                                Enter(locks, t, handlers[t].Contributor()).value)
  {
    hide Holds, Enter, Ok;
    var key := handlers[t].Contributor();
    assert t !in locks.uses;
    EnterKeeps(locks, t, key);
    var handlers' := handlers[t := handlers[t].(place := AtContributor)];
    assert handlers'[t].Contributor() == key;
    forall s | s in Enter(locks, t, key).value.uses
      ensures s < |handlers| && handlers'[s].InContributor() && Enter(locks, t, key).value.uses[s].key == handlers'[s].Contributor() {
      if s != t { assert handlers'[s] == handlers[s]; }
    }
  }

  lemma IssueGranted(handlers: seq<Handler>, locks: Registry<IssueKey>, t: Task)
    requires IssueSections(handlers, locks) && Ok(locks) && CanGrant(locks, t)
    ensures Ok(Grant(locks, t)) && IssueSections(handlers, Grant(locks, t))
  {
    GrantKeeps(locks, t);
    hide Holds, Ok;
  }

  lemma ContributorGranted(handlers: seq<Handler>, locks: Registry<ContributorKey>, t: Task)
    requires ContributorSections(handlers, locks) && Ok(locks) && CanGrant(locks, t)
    ensures Ok(Grant(locks, t)) && ContributorSections(handlers, Grant(locks, t))
  {
    GrantKeeps(locks, t);
    hide Holds, Ok;
  }

  /** The same handlers, perhaps elsewhere, and perhaps some more. */
  ghost predicate SameHandlers(handlers: seq<Handler>, handlers': seq<Handler>) {
    && |handlers| <= |handlers'|
    && forall t :: 0 <= t < |handlers| ==> handlers'[t].(place := handlers[t].place) == handlers[t]
  }

  lemma LogStays(handlers: seq<Handler>, handlers': seq<Handler>, history: seq<Moment>, log: seq<Assignment>)
    requires SameHandlers(handlers, handlers') && LogOk(handlers, history, log)
    ensures LogOk(handlers', history, log)
  {
    hide Net, OutsideOnly, Gains, Losses, Grows;
    forall i | 0 <= i < |log| ensures Explained(handlers', history, log[i]) {
      var a := log[i];
      assert Explained(handlers, history, a);
      assert handlers'[a.doer].Contributor() == handlers[a.doer].Contributor();
      if handlers[a.doer].limit.Some? {
        LimitsStay(handlers, handlers', history[a.note.countedAt..a.at], handlers[a.doer].Contributor());
      }
      hide GainsUnlimited;
    }
  }

  lemma LimitsStay(handlers: seq<Handler>, handlers': seq<Handler>, changes: seq<Moment>, c: ContributorKey)
    requires SameHandlers(handlers, handlers') && GainsUnlimited(handlers, changes, c)
    ensures GainsUnlimited(handlers', changes, c)
  {
    hide Grows;
  }

  lemma CountStays(handlers: seq<Handler>, handlers': seq<Handler>, t: Task, note: Note, issues: map<IssueKey, Issue>, history: seq<Moment>)
    requires SameHandlers(handlers, handlers') && t < |handlers| && CountHolds(handlers, handlers[t], note, issues, history)
    requires handlers'[t].place in {Checking, Assigning} ==> handlers[t].place in {Checking, Assigning}
    ensures CountHolds(handlers', handlers'[t], note, issues, history)
  {
    hide GainsUnlimited, OpenFor, Gains, Losses;
    assert handlers'[t].Contributor() == handlers[t].Contributor();
    if CountHolds(handlers, handlers[t], note, issues, history) && handlers[t].place in {Checking, Assigning} && handlers[t].limit.Some? {
      LimitsStay(handlers, handlers', history[note.countedAt..], handlers[t].Contributor());
    }
  }

  /** A handler goes somewhere where it decides nothing new; the issues stay. */
  lemma DecisionsStay(w: World, t: Task, place: Place)
    requires t < |w.handlers| && LogOk(w.handlers, w.history, w.log)
    requires ReadsHold(w.handlers, w.notes, w.issues, w.history) && CountsHold(w.handlers, w.notes, w.issues, w.history)
    requires Deciding(place) ==> Deciding(w.handlers[t].place)
    requires place in {Checking, Assigning} ==> w.handlers[t].place in {Checking, Assigning}
    ensures var handlers' := w.handlers[t := w.handlers[t].(place := place)];
      && ReadsHold(handlers', w.notes, w.issues, w.history) && CountsHold(handlers', w.notes, w.issues, w.history)
      && LogOk(handlers', w.history, w.log)
  {
    hide LogOk, CountHolds, Net, OutsideOnly;
    var handlers' := w.handlers[t := w.handlers[t].(place := place)];
    LogStays(w.handlers, handlers', w.history, w.log);
    forall s | 0 <= s < |handlers'| && s in w.notes ensures CountHolds(handlers', handlers'[s], w.notes[s], w.issues, w.history) {
      CountStays(w.handlers, handlers', s, w.notes[s], w.issues, w.history);
    }
  }

  // ---------------------------------------------------------------- each step

  lemma FinishKeeps(w: World, t: Task, initial: map<IssueKey, Issue>)
    requires Inv(w, initial) && t < |w.handlers| && w.handlers[t].InIssue()
    ensures Inv(Finish(w, t), initial)
  {
    hide IssueSections, ContributorSections, ReadsHold, CountsHold, LogOk, OneByBot, Chained, Ok, Release;
    IssueLeaves(w.handlers, w.issueLocks, t);
    if w.handlers[t].InContributor() {
      ContributorLeaves(w.handlers, w.contributorLocks, t, Finished);
    } else {
      ContributorMoves(w.handlers, w.contributorLocks, t, Finished);
    }
    DecisionsStay(w, t, Finished);
  }

  lemma BeginKeeps(w: World, t: Task, initial: map<IssueKey, Issue>)
    requires Inv(w, initial) && At(w, t, Arriving)
    ensures Inv(Begin(w, t), initial)
  {
    hide IssueSections, ContributorSections, ReadsHold, CountsHold, LogOk, OneByBot, Chained, Ok, Enter;
    IssueEnters(w.handlers, w.issueLocks, t);
    if Enter(w.issueLocks, t, w.handlers[t].issue).Some? {
      ContributorMoves(w.handlers, w.contributorLocks, t, AtIssue);
      DecisionsStay(w, t, AtIssue);
    } else {
      ContributorMoves(w.handlers, w.contributorLocks, t, Finished);
      DecisionsStay(w, t, Finished);
    }
  }

  /** A handler that holds its issue found it unassigned and starts deciding. */
  lemma DecisionStarts(w: World, t: Task, place: Place)
    requires t < |w.handlers| && LogOk(w.handlers, w.history, w.log)
    requires ReadsHold(w.handlers, w.notes, w.issues, w.history) && CountsHold(w.handlers, w.notes, w.issues, w.history)
    requires w.handlers[t].place == AtIssue
    requires w.handlers[t].issue in w.issues && w.issues[w.handlers[t].issue].assignees == {}
    requires place == AtContributor || (place == Checking && w.handlers[t].limit.None?)
    ensures var handlers' := w.handlers[t := w.handlers[t].(place := place)];
      var notes := w.notes[t := Note(|w.history|, |w.history|, 0)];
      && ReadsHold(handlers', notes, w.issues, w.history) && CountsHold(handlers', notes, w.issues, w.history)
      && LogOk(handlers', w.history, w.log)
  {
    hide LogOk, OpenFor, GainsUnlimited;
    var handlers' := w.handlers[t := w.handlers[t].(place := place)];
    LogStays(w.handlers, handlers', w.history, w.log);
    forall s | 0 <= s < |handlers'| && s != t && s in w.notes
      ensures CountHolds(handlers', handlers'[s], w.notes[s], w.issues, w.history)
    {
      CountStays(w.handlers, handlers', s, w.notes[s], w.issues, w.history);
      hide CountHolds;
    }
    assert w.history[|w.history|..] == [];
  }

  lemma ReadIssueKeeps(w: World, t: Task, initial: map<IssueKey, Issue>)
    requires Inv(w, initial) && At(w, t, AtIssue) && Holds(w.issueLocks, t)
    ensures Inv(ReadIssue(w, t), initial)
  {
    hide IssueSections, ContributorSections, ReadsHold, CountsHold, LogOk, OneByBot, Chained, Ok, Enter, Holds, Finish;
    var h := w.handlers[t];
    if h.issue !in w.issues {
      FinishKeeps(w, t, initial);
    } else if w.issues[h.issue].assignees != {} {
      IssueMoves(w.handlers, w.issueLocks, t, Refusing(false));
      ContributorMoves(w.handlers, w.contributorLocks, t, Refusing(false));
      DecisionsStay(w, t, Refusing(false));
    } else if h.limit.None? {
      IssueMoves(w.handlers, w.issueLocks, t, Checking);
      ContributorMoves(w.handlers, w.contributorLocks, t, Checking);
      DecisionStarts(w, t, Checking);
    } else if Enter(w.contributorLocks, t, h.Contributor()).None? {
      FinishKeeps(w, t, initial);
    } else {
      IssueMoves(w.handlers, w.issueLocks, t, AtContributor);
      ContributorEnters(w.handlers, w.contributorLocks, t);
      DecisionStarts(w, t, AtContributor);
    }
  }

  /** A handler that counted fewer open issues than its limit can account for them. */
  lemma CountStarts(w: World, t: Task, note: Note)
    requires t < |w.handlers| && LogOk(w.handlers, w.history, w.log) && w.handlers[t].place == AtContributor
    requires ReadsHold(w.handlers, w.notes, w.issues, w.history) && CountsHold(w.handlers, w.notes, w.issues, w.history)
    requires t in w.notes && note.readAt == w.notes[t].readAt && note.countedAt == |w.history|
    requires note.counted == |OpenFor(w.issues, w.handlers[t].Contributor())|
    requires w.handlers[t].limit.Some? && note.counted < w.handlers[t].limit.value
    ensures var handlers' := w.handlers[t := w.handlers[t].(place := Checking)];
      var notes := w.notes[t := note];
      && ReadsHold(handlers', notes, w.issues, w.history) && CountsHold(handlers', notes, w.issues, w.history)
      && LogOk(handlers', w.history, w.log)
  {
    hide LogOk, OpenFor, GainsUnlimited, Net, OutsideOnly;
    var handlers' := w.handlers[t := w.handlers[t].(place := Checking)];
    LogStays(w.handlers, handlers', w.history, w.log);
    forall s | 0 <= s < |handlers'| && s != t && s in w.notes
      ensures CountHolds(handlers', handlers'[s], w.notes[s], w.issues, w.history)
    {
      CountStays(w.handlers, handlers', s, w.notes[s], w.issues, w.history);
      hide CountHolds;
    }
    assert handlers'[t].Contributor() == w.handlers[t].Contributor();
    assert w.history[|w.history|..] == [];
    NoChangesNoGains(handlers', handlers'[t].Contributor());
  }

  lemma NoChangesNoGains(handlers: seq<Handler>, c: ContributorKey)
    ensures GainsUnlimited(handlers, [], c) && Gains([], c) == 0 && Losses([], c) == 0
  {
  }

  lemma CountLocks(w: World, t: Task, readable: bool)
    requires IssueSections(w.handlers, w.issueLocks) && ContributorSections(w.handlers, w.contributorLocks)
    requires At(w, t, AtContributor) && Holds(w.contributorLocks, t)
    ensures var w' := Count(w, t, readable);
      && w'.issueLocks == w.issueLocks && w'.contributorLocks == w.contributorLocks
      && IssueSections(w'.handlers, w'.issueLocks) && ContributorSections(w'.handlers, w'.contributorLocks)
  {
    hide IssueSections, ContributorSections, Holds, OpenFor;
    var place := Count(w, t, readable).handlers[t].place;
    HoldsIssue(w.handlers, w.issueLocks, t);
    IssueMoves(w.handlers, w.issueLocks, t, place);
    LimitKnown(w.handlers, w.contributorLocks, t);
    ContributorMoves(w.handlers, w.contributorLocks, t, place);
  }

  lemma CountPictures(w: World, t: Task, readable: bool, initial: map<IssueKey, Issue>)
    requires Pictured(w, initial) && At(w, t, AtContributor)
    ensures Pictured(Count(w, t, readable), initial)
  {
    hide LogOk, OneByBot, Chained, OpenFor, CountsHold, ReadHolds;
    var w' := Count(w, t, readable);
    var place := w'.handlers[t].place;
    if place == Checking { CountStarts(w, t, w'.notes[t]); } else { DecisionsStay(w, t, place); }
    hide ReadsHold;
  }

  lemma HoldsIssue(handlers: seq<Handler>, locks: Registry<IssueKey>, t: Task)
    requires IssueSections(handlers, locks) && t < |handlers| && handlers[t].InIssue() && handlers[t].place != AtIssue
    ensures Holds(locks, t)
  {
    hide Holds;
  }

  lemma LimitKnown(handlers: seq<Handler>, locks: Registry<ContributorKey>, t: Task)
    requires ContributorSections(handlers, locks) && t < |handlers| && handlers[t].InContributor()
    ensures handlers[t].limit.Some?
    ensures handlers[t].place != AtContributor ==> Holds(locks, t)
  {
    hide Holds;
  }

  lemma CheckLocks(w: World, t: Task, passes: bool)
    requires IssueSections(w.handlers, w.issueLocks) && ContributorSections(w.handlers, w.contributorLocks)
    requires At(w, t, Checking)
    ensures var w' := Check(w, t, passes);
      && w'.issueLocks == w.issueLocks && w'.contributorLocks == w.contributorLocks
      && IssueSections(w'.handlers, w'.issueLocks) && ContributorSections(w'.handlers, w'.contributorLocks)
  {
    hide IssueSections, ContributorSections, Holds;
    var place := Check(w, t, passes).handlers[t].place;
    HoldsIssue(w.handlers, w.issueLocks, t);
    IssueMoves(w.handlers, w.issueLocks, t, place);
    if w.handlers[t].InContributor() { LimitKnown(w.handlers, w.contributorLocks, t); }
    ContributorMoves(w.handlers, w.contributorLocks, t, place);
  }

  lemma CheckPictures(w: World, t: Task, passes: bool, initial: map<IssueKey, Issue>)
    requires Pictured(w, initial) && At(w, t, Checking)
    ensures Pictured(Check(w, t, passes), initial)
  {
    hide LogOk, OneByBot, Chained, ReadsHold, CountsHold;
    DecisionsStay(w, t, Check(w, t, passes).handlers[t].place);
  }

  lemma ConfirmKeeps(w: World, t: Task, initial: map<IssueKey, Issue>)
    requires Inv(w, initial) && At(w, t, Confirming)
    ensures Inv(Move(w, t, Recording), initial)
  {
    hide IssueSections, ContributorSections, LogOk, OneByBot, Chained, Ok, Holds, ReadsHold, CountsHold;
    HoldsIssue(w.handlers, w.issueLocks, t);
    IssueMoves(w.handlers, w.issueLocks, t, Recording);
    ContributorMoves(w.handlers, w.contributorLocks, t, Recording);
    DecisionsStay(w, t, Recording);
  }

  // ---------------------------------------------------------------- the assignment itself

  /** Two handlers deciding about the same issue are the same handler. */
  lemma OneDecider(w: World, s: Task, t: Task)
    requires Ok(w.issueLocks) && IssueSections(w.handlers, w.issueLocks) && s < |w.handlers| && t < |w.handlers|
    requires Deciding(w.handlers[s].place) && Deciding(w.handlers[t].place) && w.handlers[s].issue == w.handlers[t].issue
    ensures s == t
  {
    hide Ok, Holds;
    MutualExclusion(w.issueLocks, s, t);
  }

  /** Two handlers past counting for the same contributor are the same handler, if both run under a limit. */
  lemma OneCounter(w: World, s: Task, t: Task)
    requires Ok(w.contributorLocks) && ContributorSections(w.handlers, w.contributorLocks)
    requires s < |w.handlers| && t < |w.handlers|
    requires w.handlers[s].place in {Checking, Assigning} && w.handlers[t].place in {Checking, Assigning}
    requires w.handlers[s].limit.Some? && w.handlers[t].limit.Some?
    requires w.handlers[s].Contributor() == w.handlers[t].Contributor()
    ensures s == t
  {
    hide Ok, Holds;
    MutualExclusion(w.contributorLocks, s, t);
  }

  lemma OpenGrows(issues: map<IssueKey, Issue>, change: Change, c: ContributorKey)
    requires Grows(Moment(issues, change), c)
    ensures change.issue !in OpenFor(issues, c) && OpenFor(Apply(issues, change), c) == OpenFor(issues, c) + {change.issue}
  {
  }

  lemma OpenShrinks(issues: map<IssueKey, Issue>, change: Change, c: ContributorKey)
    requires Shrinks(Moment(issues, change), c)
    ensures change.issue in OpenFor(issues, c) && OpenFor(Apply(issues, change), c) == OpenFor(issues, c) - {change.issue}
  {
  }

  lemma OpenStays(issues: map<IssueKey, Issue>, change: Change, c: ContributorKey)
    requires change.Opened? ==> change.issue !in issues
    requires !Grows(Moment(issues, change), c) && !Shrinks(Moment(issues, change), c)
    ensures OpenFor(Apply(issues, change), c) == OpenFor(issues, c)
  {
  }

  /** A change grows, shrinks or leaves alone what a contributor holds. */
  lemma OpenChanges(issues: map<IssueKey, Issue>, change: Change, c: ContributorKey)
    requires change.Opened? ==> change.issue !in issues
    ensures var m := Moment(issues, change);
      |OpenFor(Apply(issues, change), c)| + (if Shrinks(m, c) then 1 else 0)
      == |OpenFor(issues, c)| + (if Grows(m, c) then 1 else 0)
  {
    var m := Moment(issues, change);
    assert !(Grows(m, c) && Shrinks(m, c));
    hide Grows, Shrinks, OpenFor, Apply;
    if Grows(m, c) { OpenGrows(issues, change, c); }
    else if Shrinks(m, c) { OpenShrinks(issues, change, c); }
    else { OpenStays(issues, change, c); }
  }

  lemma ReadKept(h: Handler, note: Note, issues: map<IssueKey, Issue>, history: seq<Moment>, change: Change)
    requires ReadHolds(h, note, issues, history)
    requires change.Opened? ==> change.issue !in issues
    requires change.Assigned? && change.issue == h.issue ==> change.who == None
    ensures ReadHolds(h, note, Apply(issues, change), history + [Moment(issues, change)])
  {
    var m := Moment(issues, change);
    var since := history[note.readAt..];
    assert (history + [m])[note.readAt..] == since + [m];
    assert (since + [m])[..|since|] == since;
  }

  lemma CountKept(handlers: seq<Handler>, h: Handler, note: Note, issues: map<IssueKey, Issue>, history: seq<Moment>, change: Change)
    requires CountHolds(handlers, h, note, issues, history)
    requires change.Opened? ==> change.issue !in issues
    requires h.place in {Checking, Assigning} && h.limit.Some? && change.Assigned? && change.who.Some?
      && ContributorKey(change.issue.owner, change.issue.repo, change.account) == h.Contributor()
      ==> change.who.value < |handlers| && handlers[change.who.value].limit.None?
    ensures CountHolds(handlers, h, note, Apply(issues, change), history + [Moment(issues, change)])
  {
    if h.place in {Checking, Assigning} && h.limit.Some? {
      var m := Moment(issues, change);
      var since := history[note.countedAt..];
      assert (history + [m])[note.countedAt..] == since + [m];
      assert (since + [m])[..|since|] == since;
      OpenChanges(issues, change, h.Contributor());
      hide OpenFor, Apply;
    }
  }

  lemma LogKept(handlers: seq<Handler>, history: seq<Moment>, log: seq<Assignment>, m: Moment)
    requires LogOk(handlers, history, log)
    ensures LogOk(handlers, history + [m], log)
  {
    hide Net, OutsideOnly, Gains, Losses, Grows, GainsUnlimited;
    forall i | 0 <= i < |log| ensures Explained(handlers, history + [m], log[i]) {
      var a := log[i];
      assert Explained(handlers, history, a);
      assert (history + [m])[a.at] == history[a.at];
      assert (history + [m])[a.note.readAt..a.at] == history[a.note.readAt..a.at];
      if a.note.countedAt <= a.at {
        assert (history + [m])[a.note.countedAt..a.at] == history[a.note.countedAt..a.at];
      }
    }
  }

  /** A change by nobody who must be accounted for leaves every handler's picture accurate. */
  lemma ChangeKept(w: World, change: Change, initial: map<IssueKey, Issue>)
    requires ReadsHold(w.handlers, w.notes, w.issues, w.history) && CountsHold(w.handlers, w.notes, w.issues, w.history)
    requires LogOk(w.handlers, w.history, w.log) && Chained(w.history, initial, w.issues)
    requires change.Opened? ==> change.issue !in w.issues
    requires change.Assigned? && change.who.Some? ==>
      && change.who.value < |w.handlers|
      && forall s :: 0 <= s < |w.handlers| ==>
        && (Deciding(w.handlers[s].place) ==> w.handlers[s].issue != change.issue)
        && (w.handlers[s].place in {Checking, Assigning} && w.handlers[s].limit.Some?
            && ContributorKey(change.issue.owner, change.issue.repo, change.account) == w.handlers[s].Contributor()
            ==> w.handlers[change.who.value].limit.None?)
    ensures var w' := Changed(w, change);
      && ReadsHold(w'.handlers, w'.notes, w'.issues, w'.history) && CountsHold(w'.handlers, w'.notes, w'.issues, w'.history)
      && LogOk(w'.handlers, w'.history, w'.log) && Chained(w'.history, initial, w'.issues)
  {
    var w', m := Changed(w, change), Moment(w.issues, change);
    hide LogOk, CountHolds, ReadHolds, Apply;
    LogKept(w.handlers, w.history, w.log, m);
    forall s | 0 <= s < |w.handlers| && Deciding(w.handlers[s].place) ensures ReadHolds(w.handlers[s], w.notes[s], w'.issues, w'.history) {
      ReadKept(w.handlers[s], w.notes[s], w.issues, w.history, change);
    }
    forall s | 0 <= s < |w.handlers| && s in w.notes
      ensures CountHolds(w.handlers, w.handlers[s], w.notes[s], w'.issues, w'.history)
    {
      CountKept(w.handlers, w.handlers[s], w.notes[s], w.issues, w.history, change);
    }
    assert w'.history[..|w.history|] == w.history;
  }

  /** No other handler decides about this one's issue, or under a limit about its contributor if it has a limit too. */
  ghost predicate Sole(handlers: seq<Handler>, t: Task)
    requires t < |handlers|
  {
    forall s :: 0 <= s < |handlers| && s != t ==>
      && (Deciding(handlers[s].place) ==> handlers[s].issue != handlers[t].issue)
      && (handlers[s].place in {Checking, Assigning} && handlers[s].limit.Some?
          && handlers[s].Contributor() == handlers[t].Contributor()
          ==> handlers[t].limit.None?)
  }

  /** Once a handler is past its assignment, no one else has to account for it unless it ran without a limit. */
  lemma AssignmentKept(w: World, t: Task, place: Place, initial: map<IssueKey, Issue>)
    requires Pictured(w, initial) && At(w, t, Assigning) && Sole(w.handlers, t) && !Deciding(place)
    ensures var w' := Changed(Move(w, t, place), Assigned(w.handlers[t].issue, w.handlers[t].Account(), Some(t)));
      && ReadsHold(w'.handlers, w'.notes, w'.issues, w'.history) && CountsHold(w'.handlers, w'.notes, w'.issues, w'.history)
      && LogOk(w'.handlers, w'.history, w'.log) && Chained(w'.history, initial, w'.issues)
  {
    hide ReadsHold, CountsHold, LogOk, OneByBot, Chained, Changed;
    var h := w.handlers[t];
    DecisionsStay(w, t, place);
    ChangeKept(Move(w, t, place), Assigned(h.issue, h.Account(), Some(t)), initial);
  }

  /** The new entry is explained by the read and the count of its handler. */
  lemma AssignmentExplained(w: World, t: Task)
    requires At(w, t, Assigning) && t in w.notes
    requires ReadHolds(w.handlers[t], w.notes[t], w.issues, w.history)
    requires CountHolds(w.handlers, w.handlers[t], w.notes[t], w.issues, w.history)
    ensures var w' := Effect(w, t);
      && w'.log != [] && w'.log == w.log + [w'.log[|w.log|]]
      && Explained(w.handlers, w'.history, w'.log[|w.log|])
  {
    var h, note := w.handlers[t], w.notes[t];
    var w' := Effect(w, t);
    assert w'.history[note.readAt..|w.history|] == w.history[note.readAt..];
    if h.limit.Some? {
      assert w'.history[note.countedAt..|w.history|] == w.history[note.countedAt..];
      OpenChanges(w.issues, Assigned(h.issue, h.Account(), Some(t)), h.Contributor());
    }
    hide OpenFor, Net, OutsideOnly, GainsUnlimited, Gains, Losses;
  }

  lemma {:induction false} NetIsOutside(changes: seq<Moment>, k: IssueKey)
    requires OutsideOnly(changes, k)
    ensures Net(changes, k) <= Outside(changes, k)
  {
    if changes != [] {
      var rest, m := changes[..|changes| - 1], changes[|changes| - 1];
      assert changes == rest + [m];
      NetIsOutside(rest, k);
      OutsideGrows(rest, m, k);
    }
  }

  lemma OutsideGrows(changes: seq<Moment>, m: Moment, k: IssueKey)
    ensures Outside(changes + [m], k) == Outside(changes, k)
      + if m.change.Assigned? && m.change.issue == k && m.change.who == None then {m.change.account} else {}
  {
    assert forall n :: n in changes + [m] <==> n in changes || n == m;
  }

  lemma OutsideOfSuffix(history: seq<Moment>, n: nat, k: IssueKey)
    requires n <= |history|
    ensures Outside(history[n..], k) <= Outside(history, k)
  {
  }

  /** Only an assignment by the bot adds to the assignees that are there through it. */
  lemma ByBotShrinks(issues: map<IssueKey, Issue>, history: seq<Moment>, change: Change, initial: map<IssueKey, Issue>, k: IssueKey)
    requires k in Apply(issues, change) && (change.Opened? ==> change.issue !in issues)
    requires change.Assigned? && change.issue == k ==> change.who == None
    ensures ByBot(Apply(issues, change), history + [Moment(issues, change)], initial, k)
      <= if k in issues then ByBot(issues, history, initial, k) else {}
  {
    OutsideGrows(history, Moment(issues, change), k);
    hide Outside;
  }

  lemma ByBotAssigned(issues: map<IssueKey, Issue>, history: seq<Moment>, change: Change, initial: map<IssueKey, Issue>)
    requires change.Assigned? && change.who.Some? && change.issue in issues
    requires issues[change.issue].assignees <= Outside(history, change.issue)
    ensures ByBot(Apply(issues, change), history + [Moment(issues, change)], initial, change.issue) <= {change.account}
  {
    OutsideGrows(history, Moment(issues, change), change.issue);
    hide Outside;
  }

  lemma OneByBotKept(issues: map<IssueKey, Issue>, history: seq<Moment>, change: Change, initial: map<IssueKey, Issue>)
    requires OneByBot(issues, history, initial) && (change.Opened? ==> change.issue !in issues)
    requires change.Assigned? && change.who.Some? ==>
      change.issue in issues && issues[change.issue].assignees <= Outside(history, change.issue)
    ensures OneByBot(Apply(issues, change), history + [Moment(issues, change)], initial)
  {
    var issues', history' := Apply(issues, change), history + [Moment(issues, change)];
    forall k, a, b | k in issues' && a in ByBot(issues', history', initial, k) && b in ByBot(issues', history', initial, k)
      ensures a == b
    {
      if change.Assigned? && change.issue == k && change.who.Some? {
        ByBotAssigned(issues, history, change, initial);
      } else {
        ByBotShrinks(issues, history, change, initial, k);
      }
      hide ByBot, Apply, Outside;
    }
  }

  lemma AssignedOnce(w: World, t: Task, initial: map<IssueKey, Issue>)
    requires At(w, t, Assigning) && t in w.notes && OneByBot(w.issues, w.history, initial)
    requires ReadHolds(w.handlers[t], w.notes[t], w.issues, w.history)
    ensures OneByBot(Effect(w, t).issues, Effect(w, t).history, initial)
  {
    var h := w.handlers[t];
    NetIsOutside(w.history[w.notes[t].readAt..], h.issue);
    OutsideOfSuffix(w.history, w.notes[t].readAt, h.issue);
    hide OneByBot, Apply, Outside, OutsideOnly, Net;
    OneByBotKept(w.issues, w.history, Assigned(h.issue, h.Account(), Some(t)), initial);
  }

  lemma AssignIssueLocks(w: World, t: Task, takesEffect: bool, succeeds: bool)
    requires Ok(w.issueLocks) && IssueSections(w.handlers, w.issueLocks) && At(w, t, Assigning)
    ensures var w' := Assign(w, t, takesEffect, succeeds); Ok(w'.issueLocks) && IssueSections(w'.handlers, w'.issueLocks)
  {
    hide IssueSections, Ok, Holds, Release, Apply, OpenFor;
    HoldsIssue(w.handlers, w.issueLocks, t);
    if succeeds { IssueMoves(w.handlers, w.issueLocks, t, Confirming); } else { IssueLeaves(w.handlers, w.issueLocks, t); }
  }

  lemma AssignContributorLocks(w: World, t: Task, takesEffect: bool, succeeds: bool)
    requires Ok(w.contributorLocks) && ContributorSections(w.handlers, w.contributorLocks) && At(w, t, Assigning)
    ensures var w' := Assign(w, t, takesEffect, succeeds);
      Ok(w'.contributorLocks) && ContributorSections(w'.handlers, w'.contributorLocks)
  {
    hide ContributorSections, Ok, Holds, Release, Apply, OpenFor;
    var place := if succeeds then Confirming else Finished;
    if w.handlers[t].InContributor() {
      ContributorLeaves(w.handlers, w.contributorLocks, t, place);
    } else {
      ContributorMoves(w.handlers, w.contributorLocks, t, place);
    }
  }

  /** An assignment, whether it succeeds, fails, or fails after it took effect. */
  lemma AssignPictures(w: World, t: Task, takesEffect: bool, succeeds: bool, initial: map<IssueKey, Issue>)
    requires Pictured(w, initial) && At(w, t, Assigning) && Sole(w.handlers, t)
    ensures Pictured(Assign(w, t, takesEffect, succeeds), initial)
  {
    hide LogOk, OneByBot, Chained, CountsHold, ReadsHold, Release, Effect, Sole;
    var place := if succeeds then Confirming else Finished;
    if takesEffect { EffectKept(w, t, place, initial); } else { DecisionsStay(w, t, place); }
  }

  lemma EffectKept(w: World, t: Task, place: Place, initial: map<IssueKey, Issue>)
    requires Pictured(w, initial) && At(w, t, Assigning) && Sole(w.handlers, t) && !Deciding(place)
    ensures var w' := Effect(w, t);
      w'.handlers == w.handlers && Pictured(w'.(handlers := w.handlers[t := w.handlers[t].(place := place)]), initial)
  {
    hide OneByBot, Chained, CountsHold, ReadsHold, ReadHolds, LogOk, Apply, OpenFor, Sole;
    var w', moved := Effect(w, t), Move(w, t, place);
    var entry := AssignmentKnown(w, t);
    AssignmentKept(w, t, place, initial);
    AssignedOnce(w, t, initial);
    LogStays(w.handlers, moved.handlers, w'.history, [entry]);
    LogsJoin(moved.handlers, w'.history, w.log, entry);
  }

  lemma LogsJoin(handlers: seq<Handler>, history: seq<Moment>, log: seq<Assignment>, entry: Assignment)
    requires LogOk(handlers, history, log) && LogOk(handlers, history, [entry])
    ensures LogOk(handlers, history, log + [entry])
  {
    hide Explained;
    assert Explained(handlers, history, [entry][0]);
  }

  lemma AssignmentKnown(w: World, t: Task) returns (entry: Assignment)
    requires At(w, t, Assigning)
    requires ReadsHold(w.handlers, w.notes, w.issues, w.history) && CountsHold(w.handlers, w.notes, w.issues, w.history)
    ensures t in w.notes && ReadHolds(w.handlers[t], w.notes[t], w.issues, w.history)
    ensures Effect(w, t).log == w.log + [entry] && LogOk(w.handlers, Effect(w, t).history, [entry])
  {
    AssignmentExplained(w, t);
    entry := Effect(w, t).log[|w.log|];
    hide ReadHolds, CountHolds, Explained;
  }

  // ---------------------------------------------------------------- what happens on GitHub meanwhile

  lemma ArriveKeeps(w: World, h: Handler, initial: map<IssueKey, Issue>)
    requires Inv(w, initial) && h.place == Arriving
    ensures Inv(w.(handlers := w.handlers + [h]), initial)
  {
    hide Ok, Holds, LogOk, OneByBot, Chained, ReadHolds, CountHolds;
    var handlers' := w.handlers + [h];
    assert SameHandlers(w.handlers, handlers');
    LogStays(w.handlers, handlers', w.history, w.log);
    forall t | 0 <= t < |handlers'| && t in w.notes ensures CountHolds(handlers', handlers'[t], w.notes[t], w.issues, w.history) {
      if t < |w.handlers| { CountStays(w.handlers, handlers', t, w.notes[t], w.issues, w.history); } else { NotCounting(handlers', h, w.notes[t], w.issues, w.history); }
    }
    ArrivesOutside(w.handlers, h, w.issueLocks, w.contributorLocks);
    hide IssueSections, ContributorSections;
  }

  lemma NotCounting(handlers: seq<Handler>, h: Handler, note: Note, issues: map<IssueKey, Issue>, history: seq<Moment>)
    requires h.place !in {Checking, Assigning}
    ensures CountHolds(handlers, h, note, issues, history)
  {
  }

  lemma ArrivesOutside(handlers: seq<Handler>, h: Handler, issueLocks: Registry<IssueKey>, contributorLocks: Registry<ContributorKey>)
    requires IssueSections(handlers, issueLocks) && ContributorSections(handlers, contributorLocks) && h.place == Arriving
    ensures IssueSections(handlers + [h], issueLocks) && ContributorSections(handlers + [h], contributorLocks)
  {
    hide Holds;
  }

  /** Whatever others do on GitHub, the handlers' pictures of it stay accurate. */
  lemma GitHubKeeps(w: World, change: Change, initial: map<IssueKey, Issue>)
    requires Inv(w, initial) && (change.Opened? ==> change.issue !in w.issues) && (change.Assigned? ==> change.who == None)
    ensures Inv(Changed(w, change), initial)
  {
    hide Ok, IssueSections, ContributorSections, LogOk, ReadsHold, CountsHold, Chained, OneByBot, Apply;
    ChangeKept(w, change, initial);
    OneByBotKept(w.issues, w.history, change, initial);
  }

  lemma StepKeeps(w: World, e: Event, initial: map<IssueKey, Issue>)
    requires Inv(w, initial) && Enabled(w, e)
    ensures Inv(Step(w, e), initial)
  {
    hide Ok, IssueSections, ContributorSections, ReadsHold, CountsHold, LogOk, OneByBot, Chained, Count, Check, Assign, Release,
      Enter, Grant, Changed;
    match e
    case Begins(t) => BeginKeeps(w, t, initial);
    case GetsIssueLock(t) => IssueGranted(w.handlers, w.issueLocks, t);
    case ReadsIssue(t) => ReadIssueKeeps(w, t, initial);
    case GetsContributorLock(t) => ContributorGranted(w.handlers, w.contributorLocks, t);
    case Counts(t, readable) => CountLocks(w, t, readable); CountPictures(w, t, readable, initial);
    case Checks(t, passes) => CheckLocks(w, t, passes); CheckPictures(w, t, passes, initial);
    case Assigns(t, takesEffect, succeeds) =>
      forall s | 0 <= s < |w.handlers| && s != t && Deciding(w.handlers[s].place) ensures w.handlers[s].issue != w.handlers[t].issue {
        if w.handlers[s].issue == w.handlers[t].issue { OneDecider(w, s, t); }
      }
      forall s | 0 <= s < |w.handlers| && s != t && w.handlers[s].place in {Checking, Assigning} && w.handlers[s].limit.Some?
                 && w.handlers[s].Contributor() == w.handlers[t].Contributor()
        ensures w.handlers[t].limit.None?
      {
        if w.handlers[t].limit.Some? { OneCounter(w, s, t); }
      }
      AssignIssueLocks(w, t, takesEffect, succeeds);
      AssignContributorLocks(w, t, takesEffect, succeeds);
      AssignPictures(w, t, takesEffect, succeeds, initial);
    case Confirms(t) => ConfirmKeeps(w, t, initial);
    case Records(t) => FinishKeeps(w, t, initial);
    case Refuses(t) => FinishKeeps(w, t, initial);
    case Fails(t) => FinishKeeps(w, t, initial);
    case Arrives(h) => ArriveKeeps(w, h, initial);
    case Opens(k) => GitHubKeeps(w, Opened(k), initial);
    case Closes(k) => GitHubKeeps(w, Closed(k), initial);
    case Reopens(k) => GitHubKeeps(w, Reopened(k), initial);
    case Unassigns(k, account) => GitHubKeeps(w, Unassigned(k, account), initial);
    case AssignsOutside(k, account) => GitHubKeeps(w, Assigned(k, account, None), initial);
  }

  // ---------------------------------------------------------------- what every run guarantees

  lemma {:induction false} RunKeeps(ws: seq<World>, es: seq<Event>, issues: map<IssueKey, Issue>, capacity: nat, i: nat)
    requires IsRun(ws, es, issues, capacity) && i < |ws|
    ensures Inv(ws[i], issues)
  {
    if i > 0 {
      hide Inv, Step, Enabled;
      RunKeeps(ws, es, issues, capacity, i - 1);
      StepKeeps(ws[i - 1], es[i - 1], issues);
    }
  }
}
