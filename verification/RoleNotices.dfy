/**
 * Announcing a role after a merge. The audit log is checked, and the announcement recorded in it,
 * under one lock per repository and contributor, so that each role is announced once.
 */
module RoleNotices {
  import opened OrderedDict
  import opened LockRegistry
  import P = Progression
  import Text

  /** A contributor of a repository, by case-folded login. */
  datatype Person = Person(owner: string, repo: string, account: string)

  /** A committed `contributor.role_suggested` row, or a notice posted as a comment. */
  datatype Notice = Notice(person: Person, role: P.Role)

  datatype Place =
    | Arriving
    | AtLock
    | Posting
    | Recording(announced: bool)
    | Finished
  {
    predicate Inside() { !Arriving? && !Finished? }
    predicate Past() { Posting? || Recording? }
  }

  /** A handler of one merge, with what it measured before asking for the lock. */
  datatype Handler = Handler(owner: string, repo: string, login: string, stats: P.Stats, cfg: P.RoleConfig,
                             current: P.Role, place: Place)
  {
    function Who(): Person { Person(owner, repo, Text.Lower(login)) }

    function Wanted(): Option<P.Role> { P.Announced(stats, cfg, current) }

    /** The notice this handler posts if it posts one. */
    function ToPost(): Option<Notice> {
      match Wanted() case Some(role) => Some(Notice(Who(), role)) case None => None
    }
  }

  /**
   * `suggested` are the committed rows, `posted` the comments, and `lost` the comments whose handler
   * failed before committing its row.
   */
  datatype World = World(
    suggested: seq<Notice>,
    posted: seq<Notice>,
    lost: seq<Notice>,
    locks: Registry<Person>,
    handlers: seq<Handler>)

  datatype Event =
    | Arrives(handler: Handler)
    | Begins(t: Task)
    | GetsLock(t: Task)
    | Looks(t: Task)
    | Posts(t: Task)
    | FailsToPost(t: Task, posted: bool)
    | Commits(t: Task)
    | FailsToCommit(t: Task)
    | Gives(t: Task)
    | Reports(notice: Notice)

  predicate At(w: World, t: Task, place: Place) {
    t < |w.handlers| && w.handlers[t].place == place
  }

  predicate Enabled(w: World, e: Event) {
    match e
    case Arrives(h) => h.place == Arriving
    case Begins(t) => At(w, t, Arriving)
    case GetsLock(t) => At(w, t, AtLock) && CanGrant(w.locks, t)
    case Looks(t) => At(w, t, AtLock) && Holds(w.locks, t)
    case Posts(t) => At(w, t, Posting)
    case FailsToPost(t, _) => At(w, t, Posting)
    case Commits(t) => t < |w.handlers| && w.handlers[t].place.Recording?
    case FailsToCommit(t) => t < |w.handlers| && w.handlers[t].place.Recording?
    case Gives(t) => At(w, t, AtLock)
    case Reports(_) => true
  }

  function Move(w: World, t: Task, place: Place): World
    requires t < |w.handlers|
  {
    w.(handlers := w.handlers[t := w.handlers[t].(place := place)])
  }

  function Finish(w: World, t: Task): World
    requires t < |w.handlers|
  {
    Move(w, t, Finished).(
      locks := if Using(w.locks, t) && w.locks.locks[w.locks.uses[t].lock].users > 0 then Leave(w.locks, t) else w.locks)
  }

  /** What a handler posts, as a list. */
  function Own(h: Handler): seq<Notice> {
    match h.ToPost() case Some(n) => [n] case None => []
  }

  function Step(w: World, e: Event): World
    requires Enabled(w, e)
  {
    match e
    case Arrives(h) => w.(handlers := w.handlers + [h])
    case Begins(t) =>
      (match Enter(w.locks, t, w.handlers[t].Who())
       case None => Move(w, t, Finished)
       case Some(locks) => Move(w, t, AtLock).(locks := locks))
    case GetsLock(t) => w.(locks := Grant(w.locks, t))
    case Looks(t) =>
      (match w.handlers[t].ToPost()
       case Some(notice) => Move(w, t, if notice in w.suggested then Recording(false) else Posting)
       case None => Move(w, t, Recording(false)))
    case Posts(t) => Move(w, t, Recording(true)).(posted := w.posted + Own(w.handlers[t]))
    case FailsToPost(t, posted) =>
      if posted then Finish(w, t).(posted := w.posted + Own(w.handlers[t]), lost := w.lost + Own(w.handlers[t]))
      else Finish(w, t)
    case Commits(t) =>
      if w.handlers[t].place.announced then Finish(w, t).(suggested := w.suggested + Own(w.handlers[t])) else Finish(w, t)
    case FailsToCommit(t) =>
      if w.handlers[t].place.announced then Finish(w, t).(lost := w.lost + Own(w.handlers[t])) else Finish(w, t)
    case Gives(t) => Finish(w, t)
    case Reports(notice) => w.(suggested := w.suggested + [notice])
  }

  ghost predicate IsRun(ws: seq<World>, es: seq<Event>) {
    && |ws| == |es| + 1
    && (exists suggested, capacity :: ws[0] == World(suggested, [], [], NewRegistry(capacity), []))
    && forall i :: 0 <= i < |es| ==> Enabled(ws[i], es[i]) && ws[i + 1] == Step(ws[i], es[i])
  }

  function Times(s: seq<Notice>, n: Notice): nat {
    multiset(s)[n]
  }

  function Inside(handlers: seq<Handler>): map<Task, Person> {
    map t | 0 <= t < |handlers| && handlers[t].place.Inside() :: handlers[t].Who()
  }

  function Past(handlers: seq<Handler>): set<Task> {
    set t | 0 <= t < |handlers| && handlers[t].place.Past()
  }

  /** A handler that posted this notice has yet to record it. */
  ghost predicate Unrecorded(handlers: seq<Handler>, n: Notice) {
    exists t :: 0 <= t < |handlers| && handlers[t].place == Recording(true) && handlers[t].ToPost() == Some(n)
  }

  /** Only a lost notice, one that is recorded, or one about to be recorded has been posted. */
  ghost predicate PostedOnce(posted: seq<Notice>, lost: seq<Notice>, suggested: seq<Notice>, handlers: seq<Handler>) {
    forall n :: Times(posted, n) <= Times(lost, n) + if n in suggested || Unrecorded(handlers, n) then 1 else 0
  }

  /** A handler about to post knows that nothing posted before was kept. */
  ghost predicate PostingIsNew(posted: seq<Notice>, lost: seq<Notice>, handlers: seq<Handler>) {
    forall t :: 0 <= t < |handlers| && handlers[t].place == Posting ==>
      && handlers[t].ToPost().Some?
      && Times(posted, handlers[t].ToPost().value) <= Times(lost, handlers[t].ToPost().value)
  }

  /** Every notice names a role above the one its contributor held. */
  ghost predicate PostedAbove(posted: seq<Notice>, handlers: seq<Handler>) {
    forall n :: n in posted ==>
      exists t :: 0 <= t < |handlers| && handlers[t].ToPost() == Some(n) && n.role.Rank() > handlers[t].current.Rank()
  }

  ghost predicate Announcing(handlers: seq<Handler>) {
    forall t :: 0 <= t < |handlers| && handlers[t].place == Recording(true) ==> handlers[t].ToPost().Some?
  }

  ghost predicate Inv(w: World) {
    && Sections(w.locks, Inside(w.handlers), Past(w.handlers))
    && PostedOnce(w.posted, w.lost, w.suggested, w.handlers)
    && PostingIsNew(w.posted, w.lost, w.handlers)
    && PostedAbove(w.posted, w.handlers)
    && Announcing(w.handlers)
  }

  lemma Moved(handlers: seq<Handler>, t: Task, place: Place)
    requires t < |handlers|
    ensures var handlers' := handlers[t := handlers[t].(place := place)];
      && Inside(handlers') == (if place.Inside() then Inside(handlers)[t := handlers[t].Who()] else Inside(handlers) - {t})
      && Past(handlers') == (if place.Past() then Past(handlers) + {t} else Past(handlers) - {t})
      && forall s :: 0 <= s < |handlers| ==> handlers'[s].ToPost() == handlers[s].ToPost() && handlers'[s].Who() == handlers[s].Who()
  {
    var handlers' := handlers[t := handlers[t].(place := place)];
    assert handlers'[t].ToPost() == handlers[t].ToPost();
  }

  lemma OwnOnce(s: seq<Notice>, h: Handler, n: Notice)
    ensures Times(s + Own(h), n) == Times(s, n) + if h.ToPost() == Some(n) then 1 else 0
  {
  }

  /** Whoever is in a person's critical section is alone there. */
  lemma Alone(w: World, s: Task, t: Task)
    requires Inv(w) && s < |w.handlers| && t < |w.handlers| && w.handlers[s].place.Past()
    requires w.handlers[t].place.Inside() && Holds(w.locks, t) && w.handlers[s].Who() == w.handlers[t].Who()
    ensures s == t
  {
    hide Ok, Holds, PostedOnce, PostingIsNew, PostedAbove, Announcing;
    assert s in Past(w.handlers) && t in Inside(w.handlers);
    MutualExclusion(w.locks, s, t);
  }

  lemma PastHolds(w: World, t: Task)
    requires Inv(w) && t < |w.handlers| && w.handlers[t].place.Past()
    ensures Holds(w.locks, t)
  {
    hide Ok, Holds, PostedOnce, PostingIsNew, PostedAbove, Announcing;
    assert t in Past(w.handlers);
  }

  /** The locks after a handler leaves its section. */
  lemma FinishSections(w: World, t: Task)
    requires Inv(w) && t < |w.handlers| && w.handlers[t].place.Inside()
    ensures Sections(Finish(w, t).locks, Inside(Finish(w, t).handlers), Past(Finish(w, t).handlers))
  {
    hide Sections, PostedOnce, PostingIsNew, PostedAbove, Announcing;
    Moved(w.handlers, t, Finished);
    assert t in Inside(w.handlers);
    SectionLeft(w.locks, Inside(w.handlers), Past(w.handlers), t);
  }

  /** Notices about to be recorded stay so while their handler stays where it is. */
  lemma UnrecordedStays(handlers: seq<Handler>, handlers': seq<Handler>, n: Notice, t: Task)
    requires Unrecorded(handlers, n) && |handlers| <= |handlers'|
    requires forall s :: 0 <= s < |handlers| && s != t ==> handlers'[s] == handlers[s]
    requires t < |handlers| ==> handlers[t].place != Recording(true) || handlers[t].ToPost() != Some(n)
    ensures Unrecorded(handlers', n)
  {
    hide Handler.ToPost;
    var s :| 0 <= s < |handlers| && handlers[s].place == Recording(true) && handlers[s].ToPost() == Some(n);
    assert handlers'[s].place == Recording(true);
  }

  /** Leaving without anything to record keeps what was posted accounted for. */
  lemma FinishKeeps(w: World, t: Task)
    requires Inv(w) && t < |w.handlers| && w.handlers[t].place.Inside() && w.handlers[t].place != Recording(true)
    ensures Inv(Finish(w, t))
  {
    hide Sections, Times, Handler.ToPost, Handler.Who, Unrecorded, PostedAbove, Inside, Past, Own, Holds;
    var w' := Finish(w, t);
    FinishSections(w, t);
    Moved(w.handlers, t, Finished);
    forall n | Unrecorded(w.handlers, n) ensures Unrecorded(w'.handlers, n) {
      UnrecordedStays(w.handlers, w'.handlers, n, t);
    }
    AboveStays(w, w'.handlers, w.posted);
  }

  lemma AboveStays(w: World, handlers: seq<Handler>, posted: seq<Notice>)
    requires PostedAbove(w.posted, w.handlers) && |w.handlers| <= |handlers|
    requires forall t :: 0 <= t < |w.handlers| ==> handlers[t].(place := w.handlers[t].place) == w.handlers[t]
    requires forall n :: n in posted && n !in w.posted ==>
      exists t :: 0 <= t < |handlers| && handlers[t].ToPost() == Some(n)
    ensures PostedAbove(posted, handlers)
  {
    forall n | n in posted
      ensures exists t :: 0 <= t < |handlers| && handlers[t].ToPost() == Some(n) && n.role.Rank() > handlers[t].current.Rank()
    {
      if n in w.posted {
        var t :| 0 <= t < |w.handlers| && w.handlers[t].ToPost() == Some(n) && n.role.Rank() > w.handlers[t].current.Rank();
        assert handlers[t].ToPost() == w.handlers[t].ToPost();
      }
    }
  }

  lemma LookSections(w: World, t: Task)
    requires Inv(w) && Enabled(w, Looks(t))
    ensures var w' := Step(w, Looks(t)); Sections(w'.locks, Inside(w'.handlers), Past(w'.handlers))
  {
    hide Ok, Holds, PostedOnce, PostingIsNew, PostedAbove, Announcing, Handler.ToPost, Handler.Who;
    var place := Step(w, Looks(t)).handlers[t].place;
    Moved(w.handlers, t, place);
    assert Inside(w.handlers)[t := w.handlers[t].Who()] == Inside(w.handlers);
  }

  /** A handler that holds the lock finds every notice posted before either recorded or lost. */
  lemma LookIsAlone(w: World, t: Task)
    requires Inv(w) && Enabled(w, Looks(t)) && w.handlers[t].ToPost().Some?
    ensures !Unrecorded(w.handlers, w.handlers[t].ToPost().value)
  {
    hide Sections, Holds, PostedOnce, PostingIsNew, PostedAbove, Announcing;
    if Unrecorded(w.handlers, w.handlers[t].ToPost().value) {
      var s :| 0 <= s < |w.handlers| && w.handlers[s].place == Recording(true) && w.handlers[s].ToPost() == w.handlers[t].ToPost();
      Alone(w, s, t);
    }
  }

  lemma PostSections(w: World, t: Task)
    requires Inv(w) && Enabled(w, Posts(t))
    ensures var w' := Step(w, Posts(t)); Sections(w'.locks, Inside(w'.handlers), Past(w'.handlers))
  {
    hide Ok, Holds, PostedOnce, PostingIsNew, PostedAbove, Announcing, Handler.ToPost, Handler.Who;
    Moved(w.handlers, t, Recording(true));
    assert Inside(w.handlers)[t := w.handlers[t].Who()] == Inside(w.handlers);
    assert Past(w.handlers) + {t} == Past(w.handlers);
  }

  /** No two handlers are about to post the same notice. */
  lemma PosterIsAlone(w: World, s: Task, t: Task)
    requires Inv(w) && At(w, s, Posting) && At(w, t, Posting) && s != t
    ensures w.handlers[s].ToPost() != w.handlers[t].ToPost()
  {
    hide Sections, Holds, PostedOnce, PostedAbove, Announcing;
    PastHolds(w, t);
    if w.handlers[s].ToPost() == w.handlers[t].ToPost() { Alone(w, s, t); }
  }

  lemma LookKeeps(w: World, t: Task)
    requires Inv(w) && Enabled(w, Looks(t))
    ensures Inv(Step(w, Looks(t)))
  {
    hide Sections, Times, Handler.ToPost, Handler.Who, Unrecorded, PostedAbove, Inside, Past, Own, Holds;
    var h, w' := w.handlers[t], Step(w, Looks(t));
    LookSections(w, t);
    Moved(w.handlers, t, w'.handlers[t].place);
    forall n | Unrecorded(w.handlers, n) ensures Unrecorded(w'.handlers, n) {
      UnrecordedStays(w.handlers, w'.handlers, n, t);
    }
    if h.ToPost().Some? && Unrecorded(w.handlers, h.ToPost().value) { LookIsAlone(w, t); }
    AboveStays(w, w'.handlers, w.posted);
  }

  lemma PostKeeps(w: World, t: Task)
    requires Inv(w) && Enabled(w, Posts(t))
    ensures Inv(Step(w, Posts(t)))
  {
    hide Sections, Times, Handler.ToPost, Handler.Who, Unrecorded, PostedAbove, Inside, Past, Own, Holds;
    var h, w' := w.handlers[t], Step(w, Posts(t));
    PostSections(w, t);
    Moved(w.handlers, t, Recording(true));
    forall n ensures Times(w'.posted, n) == Times(w.posted, n) + if h.ToPost() == Some(n) then 1 else 0 {
      OwnOnce(w.posted, h, n);
    }
    forall n | Unrecorded(w.handlers, n) ensures Unrecorded(w'.handlers, n) {
      UnrecordedStays(w.handlers, w'.handlers, n, t);
    }
    NowUnrecorded(w'.handlers, t);
    forall s | 0 <= s < |w.handlers| && s != t && w.handlers[s].place == Posting ensures w.handlers[s].ToPost() != h.ToPost() {
      PosterIsAlone(w, s, t);
    }
    OwnNotice(h);
    AboveStays(w, w'.handlers, w'.posted);
  }

  lemma NowUnrecorded(handlers: seq<Handler>, t: Task)
    requires t < |handlers| && handlers[t].place == Recording(true) && handlers[t].ToPost().Some?
    ensures Unrecorded(handlers, handlers[t].ToPost().value)
  {
  }

  lemma OwnNotice(h: Handler)
    ensures forall n :: n in Own(h) <==> h.ToPost() == Some(n)
  {
  }

  lemma SettledOnce(w: World, t: Task, w': World)
    requires PostedOnce(w.posted, w.lost, w.suggested, w.handlers) && t < |w.handlers|
    requires forall n :: n in w.suggested ==> n in w'.suggested
    requires forall n :: Unrecorded(w.handlers, n) && w.handlers[t].ToPost() != Some(n) ==> Unrecorded(w'.handlers, n)
    requires forall n :: w.handlers[t].ToPost() != Some(n) ==>
      Times(w'.posted, n) == Times(w.posted, n) && Times(w'.lost, n) == Times(w.lost, n)
    requires forall n :: w.handlers[t].ToPost() == Some(n) ==>
      || (w.handlers[t].place == Recording(true) && Times(w'.posted, n) == Times(w.posted, n) && n in w'.suggested
          && Times(w'.lost, n) == Times(w.lost, n))
      || (w.handlers[t].place == Recording(true) && Times(w'.posted, n) == Times(w.posted, n)
          && Times(w'.lost, n) == Times(w.lost, n) + 1)
      || (Times(w'.posted, n) <= Times(w'.lost, n))
    ensures PostedOnce(w'.posted, w'.lost, w'.suggested, w'.handlers)
  {
    hide Times, Unrecorded, Handler.ToPost;
  }

  /** A handler leaves with its notice recorded, or lost. */
  lemma SettleKeeps(w: World, t: Task, w': World)
    requires Inv(w) && t < |w.handlers|
    requires w'.handlers == Finish(w, t).handlers && w'.locks == Finish(w, t).locks
    requires w.handlers[t].place == Recording(true) || w.handlers[t].place == Posting
    requires forall n :: n in w.suggested ==> n in w'.suggested
    requires w.handlers[t].place == Recording(true) ==>
      && w'.posted == w.posted
      && ((w'.lost == w.lost && w'.suggested == w.suggested + Own(w.handlers[t]))
          || (w'.lost == w.lost + Own(w.handlers[t]) && w'.suggested == w.suggested))
    requires w.handlers[t].place == Posting ==>
      && w'.posted == w.posted + Own(w.handlers[t]) && w'.lost == w.lost + Own(w.handlers[t])
      && w'.suggested == w.suggested
    ensures Inv(w')
  {
    hide Sections, Times, Handler.ToPost, Handler.Who, Unrecorded, PostedAbove, Inside, Past, Own, Holds;
    var h := w.handlers[t];
    FinishSections(w, t);
    Moved(w.handlers, t, Finished);
    forall n ensures Times(w.posted + Own(h), n) == Times(w.posted, n) + if h.ToPost() == Some(n) then 1 else 0
             ensures Times(w.lost + Own(h), n) == Times(w.lost, n) + if h.ToPost() == Some(n) then 1 else 0 {
      OwnOnce(w.posted, h, n);
      OwnOnce(w.lost, h, n);
    }
    forall n | Unrecorded(w.handlers, n) && h.ToPost() != Some(n) ensures Unrecorded(w'.handlers, n) {
      UnrecordedStays(w.handlers, w'.handlers, n, t);
    }
    OwnNotice(h);
    SettledOnce(w, t, w');
    AboveStays(w, w'.handlers, w'.posted);
  }

  lemma BeginSections(w: World, t: Task)
    requires Inv(w) && Enabled(w, Begins(t))
    ensures var w' := Step(w, Begins(t)); Sections(w'.locks, Inside(w'.handlers), Past(w'.handlers))
  {
    hide Sections, Enter, PostedOnce, PostingIsNew, PostedAbove, Announcing, Handler.ToPost, Handler.Who;
    var key := w.handlers[t].Who();
    Moved(w.handlers, t, Step(w, Begins(t)).handlers[t].place);
    assert Past(w.handlers) - {t} == Past(w.handlers);
    if Enter(w.locks, t, key).Some? {
      SectionEntered(w.locks, Inside(w.handlers), Past(w.handlers), t, key);
    } else {
      assert Inside(w.handlers) - {t} == Inside(w.handlers);
    }
  }

  lemma BeginKeeps(w: World, t: Task)
    requires Inv(w) && Enabled(w, Begins(t))
    ensures Inv(Step(w, Begins(t)))
  {
    hide Sections, Enter, Times, Unrecorded, Handler.ToPost, Handler.Who, PostedAbove, Inside, Past;
    var w' := Step(w, Begins(t));
    BeginSections(w, t);
    Moved(w.handlers, t, w'.handlers[t].place);
    forall n | Unrecorded(w.handlers, n) ensures Unrecorded(w'.handlers, n) {
      UnrecordedStays(w.handlers, w'.handlers, n, t);
    }
    AboveStays(w, w'.handlers, w.posted);
  }

  lemma ArriveKeeps(w: World, h: Handler)
    requires Inv(w) && h.place == Arriving
    ensures Inv(w.(handlers := w.handlers + [h]))
  {
    hide Sections, Times;
    var handlers' := w.handlers + [h];
    assert Inside(handlers') == Inside(w.handlers) && Past(handlers') == Past(w.handlers);
    forall n | Unrecorded(w.handlers, n) ensures Unrecorded(handlers', n) {
      var s :| 0 <= s < |w.handlers| && w.handlers[s].place == Recording(true) && w.handlers[s].ToPost() == Some(n);
      assert handlers'[s].place == Recording(true);
    }
    AboveStays(w, handlers', w.posted);
  }

  lemma StepKeeps(w: World, e: Event)
    requires Inv(w) && Enabled(w, e)
    ensures Inv(Step(w, e))
  {
    match e
    case Arrives(h) => ArriveKeeps(w, h);
    case Begins(t) => BeginKeeps(w, t);
    case GetsLock(t) => GrantKeepsAll(w, t);
    case Looks(t) => LookKeeps(w, t);
    case Posts(t) => PostKeeps(w, t);
    case FailsToPost(t, posted) => if posted { SettleKeeps(w, t, Step(w, e)); } else { FinishKeeps(w, t); }
    case Commits(t) => if w.handlers[t].place.announced { SettleKeeps(w, t, Step(w, e)); } else { FinishKeeps(w, t); }
    case FailsToCommit(t) => if w.handlers[t].place.announced { SettleKeeps(w, t, Step(w, e)); } else { FinishKeeps(w, t); }
    case Gives(t) => FinishKeeps(w, t);
    case Reports(notice) => ReportKeeps(w, notice);
  }

  lemma GrantKeepsAll(w: World, t: Task)
    requires Inv(w) && CanGrant(w.locks, t)
    ensures Inv(w.(locks := Grant(w.locks, t)))
  {
    SectionGranted(w.locks, Inside(w.handlers), Past(w.handlers), t);
    hide Sections, Times, Unrecorded;
  }

  lemma ReportKeeps(w: World, notice: Notice)
    requires Inv(w)
    ensures Inv(w.(suggested := w.suggested + [notice]))
  {
    hide Sections, Times, Unrecorded;
  }

  lemma {:induction false} RunKeeps(ws: seq<World>, es: seq<Event>, i: nat)
    requires IsRun(ws, es) && i < |ws|
    ensures Inv(ws[i])
  {
    if i == 0 {
      assert Inside(ws[0].handlers) == map[] && Past(ws[0].handlers) == {};
    } else {
      hide Inv, Step, Enabled;
      RunKeeps(ws, es, i - 1);
      StepKeeps(ws[i - 1], es[i - 1]);
    }
  }

  /**
   * In any interleaving, a role is announced to a contributor at most once more than the handlers
   * that failed between their comment and their commit; so once, if none did.
   */
  lemma AnnouncedOnce(ws: seq<World>, es: seq<Event>, i: nat, n: Notice)
    requires IsRun(ws, es) && i < |ws|
    ensures Times(ws[i].posted, n) <= Times(ws[i].lost, n) + 1
    ensures n !in ws[i].lost ==> Times(ws[i].posted, n) <= 1
  {
    hide IsRun, Sections, PostingIsNew, PostedAbove, Unrecorded;
    RunKeeps(ws, es, i);
  }

  /** Every announced role is above the one its contributor held, and the highest whose minima the measured stats all reach. */
  lemma AnnouncedAboveCurrent(ws: seq<World>, es: seq<Event>, i: nat, n: Notice) returns (t: Task)
    requires IsRun(ws, es) && i < |ws| && n in ws[i].posted
    ensures t < |ws[i].handlers|
    ensures var h := ws[i].handlers[t];
      && n.person.owner == h.owner && n.person.repo == h.repo && n.person.account == Text.Lower(h.login)
      && h.current in P.RolesBelow(n.role)
      && P.HighestReached(h.stats, h.cfg, n.role)
  {
    hide IsRun, Sections, PostingIsNew, PostedOnce;
    RunKeeps(ws, es, i);
    t :| 0 <= t < |ws[i].handlers| && ws[i].handlers[t].ToPost() == Some(n)
      && n.role.Rank() > ws[i].handlers[t].current.Rank();
    var h := ws[i].handlers[t];
    P.AnnouncedIff(h.stats, h.cfg, h.current, n.role);
  }

  // ---------------------------------------------------------------- what one handler does

  /** The notice is for this handler's contributor, and for the role to be announced to them. */
  ghost predicate Due(h: Handler, n: Notice) {
    && n.person == Person(h.owner, h.repo, Text.Lower(h.login))
    && h.current in P.RolesBelow(n.role)
    && P.HighestReached(h.stats, h.cfg, n.role)
  }

  lemma ToPostIff(h: Handler, n: Notice)
    ensures h.ToPost() == Some(n) <==> Due(h, n)
  {
    P.AnnouncedIff(h.stats, h.cfg, h.current, n.role);
    hide P.HighestReached;
    hide P.Announced;
  }

  /** Under the lock a handler goes on to post exactly when a notice is due and not recorded yet. */
  lemma LooksDecides(w: World, t: Task)
    requires Enabled(w, Looks(t))
    ensures var w' := Step(w, Looks(t));
      && t < |w'.handlers| && w'.posted == w.posted && w'.suggested == w.suggested && w'.lost == w.lost
      && (w'.handlers[t].place == Posting <==> exists n :: Due(w.handlers[t], n) && n !in w.suggested)
      && (w'.handlers[t].place != Posting ==> w'.handlers[t].place == Recording(false))
  {
    var h := w.handlers[t];
    forall n ensures h.ToPost() == Some(n) <==> Due(h, n) {
      ToPostIff(h, n);
    }
    hide Handler.ToPost, Due, Holds;
  }

  /** Posting and committing add the notice that is due, once each. */
  lemma PostsAndRecords(w: World, t: Task, n: Notice)
    requires Enabled(w, Posts(t)) && Due(w.handlers[t], n)
    ensures var w' := Step(w, Posts(t));
      && w'.posted == w.posted + [n] && w'.suggested == w.suggested
      && Enabled(w', Commits(t))
      && var w'' := Step(w', Commits(t));
      w''.posted == w'.posted && w''.suggested == w'.suggested + [n] && w''.lost == w.lost
  {
    ToPostIff(w.handlers[t], n);
    var w' := Step(w, Posts(t));
    assert w'.handlers[t].ToPost() == w.handlers[t].ToPost();
    hide Due, Handler.ToPost, Leave;
  }

  ghost predicate Leads(w: World, es: seq<Event>, w': World)
    decreases |es|
  {
    if es == [] then w' == w else Enabled(w, es[0]) && Leads(Step(w, es[0]), es[1..], w')
  }

  lemma LeadsFirst(w: World, e: Event, es: seq<Event>, w': World)
    requires Enabled(w, e) && Leads(Step(w, e), es, w')
    ensures Leads(w, [e] + es, w')
  {
    assert ([e] + es)[1..] == es;
  }

  /**
   * While no other handler is at work, a handler can go on to its end with the notice that is due
   * posted and recorded, unless it had been recorded before.
   */
  lemma DueIsAnnounced(w: World, t: Task, n: Notice) returns (es: seq<Event>, w': World)
    requires Ok(w.locks) && w.locks.uses == map[] && w.locks.capacity >= 1
    requires At(w, t, Arriving) && Due(w.handlers[t], n)
    ensures Leads(w, es, w') && |w'.handlers| == |w.handlers| && w'.handlers[t].place == Finished
    ensures if n in w.suggested then w'.posted == w.posted && w'.suggested == w.suggested
            else w'.posted == w.posted + [n] && w'.suggested == w.suggested + [n]
  {
    hide Ok, Holds, Enter, Leave, Handler.ToPost, Due;
    var h := w.handlers[t];
    EntersAlone(w.locks, t, h.Who());
    var w1 := Step(w, Begins(t));
    var w2 := Step(w1, Looks(t));
    SameDue(h, w1.handlers[t], n);
    ToPostIff(w1.handlers[t], n);
    if n in w.suggested {
      w' := Step(w2, Commits(t));
      LeadsFirst(w2, Commits(t), [], w');
      es := [Commits(t)];
    } else {
      SameDue(h, w2.handlers[t], n);
      PostsAndRecords(w2, t, n);
      var w3 := Step(w2, Posts(t));
      w' := Step(w3, Commits(t));
      LeadsFirst(w3, Commits(t), [], w');
      LeadsFirst(w2, Posts(t), [Commits(t)], w');
      es := [Posts(t)] + [Commits(t)];
    }
    LeadsFirst(w1, Looks(t), es, w');
    es := [Looks(t)] + es;
    LeadsFirst(w, Begins(t), es, w');
    es := [Begins(t)] + es;
  }

  lemma SameDue(h: Handler, h': Handler, n: Notice)
    requires h'.(place := h.place) == h && Due(h, n)
    ensures Due(h', n)
  {
  }

  /**
   * A handler may fail before its comment, at it, and at its commit. None of these records anything,
   * and a notice that is lost is one whose comment was made.
   */
  lemma FailuresRecordNothing(w: World, t: Task, posted: bool, n: Notice)
    requires t < |w.handlers| && Due(w.handlers[t], n)
    ensures w.handlers[t].place == AtLock ==> Enabled(w, Gives(t))
    ensures w.handlers[t].place == Posting ==> Enabled(w, FailsToPost(t, posted))
    ensures w.handlers[t].place.Recording? ==> Enabled(w, FailsToCommit(t))
    ensures Enabled(w, Gives(t)) ==>
      var w' := Step(w, Gives(t));
      w'.suggested == w.suggested && w'.posted == w.posted && w'.lost == w.lost
    ensures Enabled(w, FailsToPost(t, posted)) ==>
      var w' := Step(w, FailsToPost(t, posted));
      && w'.suggested == w.suggested && w'.posted == w.posted + (if posted then [n] else [])
      && w'.lost == w.lost + (if posted then [n] else [])
    ensures Enabled(w, FailsToCommit(t)) ==>
      var w' := Step(w, FailsToCommit(t));
      && w'.suggested == w.suggested && w'.posted == w.posted
      && w'.lost == w.lost + (if w.handlers[t].place.announced then [n] else [])
  {
    ToPostIff(w.handlers[t], n);
    hide Due, Handler.ToPost, Leave;
  }

  /** A notice may be recorded without the bot's handlers at any time; a handler that looks afterwards does not post it. */
  lemma ReportedIsNotPosted(w: World, t: Task, n: Notice)
    requires Enabled(w, Looks(t)) && Due(w.handlers[t], n)
    ensures Enabled(w, Reports(n))
    ensures var w' := Step(w, Reports(n));
      && w'.posted == w.posted && w'.lost == w.lost && w'.handlers == w.handlers
      && Enabled(w', Looks(t))
      && !Enabled(Step(w', Looks(t)), Posts(t))
  {
    ToPostIff(w.handlers[t], n);
    hide Due, Handler.ToPost;
  }
}
