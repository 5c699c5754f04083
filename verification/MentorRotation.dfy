/**
 * Assigning a mentor to each first-time contributor. The counts are read, and the choice is
 * recorded in the audit log, under one lock per repository.
 */
module MentorRotation {
  import opened OrderedDict
  import opened LockRegistry
  import opened Selection
  import Text

  datatype Repo = Repo(owner: string, name: string) {
    /** The lock's key ignores case; the audit query does not. */
    function LockKey(): Repo { Repo(Text.Lower(owner), Text.Lower(name)) }
  }

  /** One committed `contributor.mentor_assigned` row of the audit log. */
  datatype Entry = Entry(repo: Repo, mentor: string)

  function RowsOf(log: seq<Entry>, repo: Repo): seq<Row> {
    if log == [] then []
    else
      var last := log[|log| - 1];
      RowsOf(log[..|log| - 1], repo) + if last.repo == repo then [[last.mentor]] else []
  }

  datatype Place =
    | Arriving
    | AtLock
    | Assigning(mentor: string)
    | Commenting(mentor: string)
    | Recording(mentor: string)
    | Finished
  {
    predicate Inside() { !Arriving? && !Finished? }
    predicate Past() { Assigning? || Commenting? || Recording? }
  }

  /** A handler and the team members it read before asking for the lock. */
  datatype Handler = Handler(repo: Repo, members: seq<string>, place: Place)

  datatype World = World(log: seq<Entry>, locks: Registry<Repo>, handlers: seq<Handler>)

  datatype Event =
    | Arrives(handler: Handler)
    | Begins(t: Task)
    | GetsLock(t: Task)
    | Chooses(t: Task, counts: map<string, nat>)
    | Assigned(t: Task)
    | Commented(t: Task)
    | Commits(t: Task)
    | Fails(t: Task)

  /** The chooser's counts are those of the rows committed for its repository. */
  ghost predicate Enabled(w: World, e: Event) {
    match e
    case Arrives(h) => h.place == Arriving
    case Begins(t) => t < |w.handlers| && w.handlers[t].place == Arriving
    case GetsLock(t) => t < |w.handlers| && CanGrant(w.locks, t)
    case Chooses(t, counts) =>
      && t < |w.handlers| && w.handlers[t].place == AtLock && Holds(w.locks, t)
      && CountsLog(counts, RowsOf(w.log, w.handlers[t].repo))
    case Assigned(t) => t < |w.handlers| && w.handlers[t].place.Assigning?
    case Commented(t) => t < |w.handlers| && w.handlers[t].place.Commenting?
    case Commits(t) => t < |w.handlers| && w.handlers[t].place.Recording?
    case Fails(t) => t < |w.handlers| && w.handlers[t].place.Inside()
  }

  function Move(w: World, t: Task, place: Place): World
    requires t < |w.handlers|
  {
    w.(handlers := w.handlers[t := w.handlers[t].(place := place)])
  }

  function Finish(w: World, t: Task): World
    requires t < |w.handlers|
  {
    Move(w, t, Finished).(
      locks := if Using(w.locks, t) && w.locks.locks[w.locks.uses[t].lock].users > 0 then Leave(w.locks, t) else w.locks)
  }

  ghost function Step(w: World, e: Event): World
    requires Enabled(w, e)
  {
    match e
    case Arrives(h) => w.(handlers := w.handlers + [h])
    case Begins(t) =>
      (match Enter(w.locks, t, w.handlers[t].repo.LockKey())
       case None => Move(w, t, Finished)
       case Some(locks) => Move(w, t, AtLock).(locks := locks))
    case GetsLock(t) => w.(locks := Grant(w.locks, t))
    case Chooses(t, counts) =>
      (match SelectMentor(w.handlers[t].members, counts)
       case None => Finish(w, t)
       case Some(mentor) => Move(w, t, Assigning(mentor)))
    case Assigned(t) => Move(w, t, Commenting(w.handlers[t].place.mentor))
    case Commented(t) => Move(w, t, Recording(w.handlers[t].place.mentor))
    case Commits(t) =>
      Finish(w, t).(log := w.log + [Entry(w.handlers[t].repo, w.handlers[t].place.mentor)])
    case Fails(t) => Finish(w, t)
  }

  ghost predicate IsRun(ws: seq<World>, es: seq<Event>) {
    && |ws| == |es| + 1
    && (exists log, capacity :: ws[0] == World(log, NewRegistry(capacity), []))
    && forall i :: 0 <= i < |es| ==> Enabled(ws[i], es[i]) && ws[i + 1] == Step(ws[i], es[i])
  }

  function Inside(handlers: seq<Handler>): map<Task, Repo> {
    map t | 0 <= t < |handlers| && handlers[t].place.Inside() :: handlers[t].repo.LockKey()
  }

  function Past(handlers: seq<Handler>): set<Task> {
    set t | 0 <= t < |handlers| && handlers[t].place.Past()
  }

  function Team(h: Handler): set<string> { Folded(h.members) - {""} }

  /** A choice made under the lock is still a least-assigned one until it is committed. */
  ghost predicate ChoicesHold(handlers: seq<Handler>, log: seq<Entry>) {
    forall t :: 0 <= t < |handlers| && handlers[t].place.Past() ==>
      LeastAssigned(RowsOf(log, handlers[t].repo), Team(handlers[t]), [handlers[t].place.mentor])
  }

  ghost predicate Inv(w: World) {
    Sections(w.locks, Inside(w.handlers), Past(w.handlers)) && ChoicesHold(w.handlers, w.log)
  }

  lemma Moved(handlers: seq<Handler>, t: Task, place: Place)
    requires t < |handlers|
    ensures var handlers' := handlers[t := handlers[t].(place := place)];
      && Inside(handlers') == (if place.Inside() then Inside(handlers)[t := handlers[t].repo.LockKey()] else Inside(handlers) - {t})
      && Past(handlers') == if place.Past() then Past(handlers) + {t} else Past(handlers) - {t}
  {
  }

  lemma FinishKeeps(w: World, t: Task)
    requires Inv(w) && t < |w.handlers| && w.handlers[t].place.Inside()
    ensures Inv(Finish(w, t))
  {
    hide Sections, LeastAssigned, RowsOf;
    Moved(w.handlers, t, Finished);
    assert t in Inside(w.handlers);
    SectionLeft(w.locks, Inside(w.handlers), Past(w.handlers), t);
  }

  lemma ChooseKeeps(w: World, t: Task, counts: map<string, nat>)
    requires Inv(w) && Enabled(w, Chooses(t, counts))
    ensures Inv(Step(w, Chooses(t, counts)))
  {
    hide RowsOf, LeastAssigned, Ok, Holds;
    var h := w.handlers[t];
    match SelectMentor(h.members, counts)
    case None => FinishKeeps(w, t);
    case Some(mentor) =>
      MentorIsLeast(h.members, counts, RowsOf(w.log, h.repo));
      Moved(w.handlers, t, Assigning(mentor));
      assert Inside(w.handlers)[t := h.repo.LockKey()] == Inside(w.handlers);
  }

  /** A commit adds no row to the repository of anyone else about to assign. */
  lemma OthersRowsStay(w: World, t: Task, s: Task)
    requires Inv(w) && Enabled(w, Commits(t)) && s < |w.handlers| && s != t && w.handlers[s].place.Past()
    ensures RowsOf(w.log + [Entry(w.handlers[t].repo, w.handlers[t].place.mentor)], w.handlers[s].repo) == RowsOf(w.log, w.handlers[s].repo)
  {
    hide LeastAssigned, Sections;
    var h := w.handlers[t];
    var log := w.log + [Entry(h.repo, h.place.mentor)];
    assert log[..|w.log|] == w.log;
    if w.handlers[s].repo == h.repo {
      assert s in Past(w.handlers) && t in Past(w.handlers);
      SectionExclusive(w.locks, Inside(w.handlers), Past(w.handlers), s, t);
    }
    assert RowsOf(w.log, w.handlers[s].repo) + [] == RowsOf(w.log, w.handlers[s].repo);
  }

  lemma CommitKeeps(w: World, t: Task)
    requires Inv(w) && Enabled(w, Commits(t))
    ensures Inv(Step(w, Commits(t)))
  {
    hide LeastAssigned, Sections, RowsOf, Inside, Past, Team;
    var h := w.handlers[t];
    FinishKeeps(w, t);
    var log := w.log + [Entry(h.repo, h.place.mentor)];
    forall s | 0 <= s < |w.handlers| && s != t && w.handlers[s].place.Past()
      ensures RowsOf(log, w.handlers[s].repo) == RowsOf(w.log, w.handlers[s].repo)
    {
      OthersRowsStay(w, t, s);
    }
  }

  lemma StepKeeps(w: World, e: Event)
    requires Inv(w) && Enabled(w, e)
    ensures Inv(Step(w, e))
  {
    match e
    case Arrives(h) => ArriveKeeps(w, h);
    case Begins(t) => BeginKeeps(w, t);
    case GetsLock(t) => SectionGranted(w.locks, Inside(w.handlers), Past(w.handlers), t);
    case Chooses(t, counts) => ChooseKeeps(w, t, counts);
    case Assigned(t) => GoOnKeeps(w, t, Commenting(w.handlers[t].place.mentor));
    case Commented(t) => GoOnKeeps(w, t, Recording(w.handlers[t].place.mentor));
    case Commits(t) => CommitKeeps(w, t);
    case Fails(t) => FinishKeeps(w, t);
  }

  lemma ArriveKeeps(w: World, h: Handler)
    requires Inv(w) && h.place == Arriving
    ensures Inv(w.(handlers := w.handlers + [h]))
  {
    hide Sections, LeastAssigned, RowsOf;
    assert Inside(w.handlers + [h]) == Inside(w.handlers);
    assert Past(w.handlers + [h]) == Past(w.handlers);
  }

  lemma BeginKeeps(w: World, t: Task)
    requires Inv(w) && Enabled(w, Begins(t))
    ensures Inv(Step(w, Begins(t)))
  {
    hide Sections, LeastAssigned, RowsOf, Enter;
    var key := w.handlers[t].repo.LockKey();
    if Enter(w.locks, t, key).Some? {
      Moved(w.handlers, t, AtLock);
      SectionEntered(w.locks, Inside(w.handlers), Past(w.handlers), t, key);
      assert Past(w.handlers) - {t} == Past(w.handlers);
    } else {
      Moved(w.handlers, t, Finished);
      assert Inside(w.handlers) - {t} == Inside(w.handlers);
      assert Past(w.handlers) - {t} == Past(w.handlers);
    }
  }

  lemma GoOnKeeps(w: World, t: Task, place: Place)
    requires Inv(w) && t < |w.handlers| && w.handlers[t].place.Past() && place.Past()
    requires place.mentor == w.handlers[t].place.mentor
    ensures Inv(Move(w, t, place))
  {
    hide Sections, LeastAssigned, RowsOf;
    Moved(w.handlers, t, place);
    assert Inside(w.handlers)[t := w.handlers[t].repo.LockKey()] == Inside(w.handlers);
    assert Past(w.handlers) + {t} == Past(w.handlers);
  }

  lemma {:induction false} RunKeeps(ws: seq<World>, es: seq<Event>, i: nat)
    requires IsRun(ws, es) && i < |ws|
    ensures Inv(ws[i])
  {
    if i == 0 {
      assert Inside(ws[0].handlers) == map[] && Past(ws[0].handlers) == {};
    } else {
      hide Inv, Step, Enabled;
      RunKeeps(ws, es, i - 1);
      StepKeeps(ws[i - 1], es[i - 1]);
    }
  }

  /** Every handler of this repository read the same team. */
  ghost predicate SameTeam(w: World, repo: Repo, team: set<string>) {
    forall t :: 0 <= t < |w.handlers| && w.handlers[t].repo == repo ==> Team(w.handlers[t]) == team
  }

  /**
   * Mentors stay balanced: in any interleaving of any number of handlers, with any of them failing
   * anywhere, no mentor of a fixed team is recorded more than one assignment ahead of another.
   */
  lemma {:induction false} MentorsStayBalanced(ws: seq<World>, es: seq<Event>, i: nat, repo: Repo, team: set<string>)
    requires IsRun(ws, es) && i < |ws|
    requires Balanced(RowsOf(ws[0].log, repo), team)
    requires forall j :: 0 <= j < |ws| ==> SameTeam(ws[j], repo, team)
    ensures Balanced(RowsOf(ws[i].log, repo), team)
  {
    if i > 0 {
      MentorsStayBalanced(ws, es, i - 1, repo, team);
      RunKeeps(ws, es, i - 1);
      assert SameTeam(ws[i - 1], repo, team);
      assert Enabled(ws[i - 1], es[i - 1]) && ws[i] == Step(ws[i - 1], es[i - 1]);
      hide IsRun;
      StepBalanced(ws[i - 1], es[i - 1], repo, team);
    }
  }

  lemma StepBalanced(w: World, e: Event, repo: Repo, team: set<string>)
    requires Inv(w) && Enabled(w, e) && SameTeam(w, repo, team) && Balanced(RowsOf(w.log, repo), team)
    ensures Balanced(RowsOf(Step(w, e).log, repo), team)
  {
    hide Sections, LeastAssigned, Balanced;
    if e.Commits? {
      var h := w.handlers[e.t];
      assert (w.log + [Entry(h.repo, h.place.mentor)])[..|w.log|] == w.log;
      if h.repo == repo {
        BalancedStep(RowsOf(w.log, repo), team, [h.place.mentor]);
      } else {
        assert RowsOf(w.log, repo) + [] == RowsOf(w.log, repo);
      }
    }
  }

  /** The rows that name a mentor of the repository, in capital or small letters. */
  function Naming(log: seq<Entry>, repo: Repo, login: string): set<int> {
    set i | 0 <= i < |log| && log[i].repo == repo && Text.SameLetters(log[i].mentor, login)
  }

  /** A mentor's count is how many rows of the repository name them. */
  lemma {:induction false} RowsAreCounted(log: seq<Entry>, repo: Repo, login: string)
    ensures Selection.Assigned(RowsOf(log, repo), Text.Lower(login)) == |Naming(log, repo, login)|
  {
    hide CountIn, Text.SameLetters, Text.Lower;
    if log == [] {
      assert Naming(log, repo, login) == {};
    } else {
      var n := |log| - 1;
      RowsAreCounted(log[..n], repo, login);
      assert Naming(log[..n], repo, login) == Naming(log, repo, login) - {n};
      CountsOne(log[n].mentor, login);
      if log[n].repo != repo { assert RowsOf(log, repo) == RowsOf(log[..n], repo); }
    }
  }

  // ---------------------------------------------------------------- one handler

  /** A row is recorded when a handler commits, and then the mentor it chose for its repository; nothing else changes the log. */
  lemma CommitsRecord(w: World, e: Event)
    requires Enabled(w, e)
    ensures Step(w, e).log == if e.Commits? then w.log + [Entry(w.handlers[e.t].repo, w.handlers[e.t].place.mentor)] else w.log
  {
    hide Enter, Grant, Leave;
  }

  /** What a handler that holds the lock goes on to do: assign the member preferred to all others, if any has a login. */
  lemma ChoosesPreferred(w: World, t: Task, counts: map<string, nat>)
    requires Enabled(w, Chooses(t, counts))
    ensures var w', members := Step(w, Chooses(t, counts)), w.handlers[t].members;
      && |w'.handlers| == |w.handlers|
      && match w'.handlers[t].place
         case Assigning(mentor) =>
           mentor in members && mentor != "" && forall m :: m in members && m != "" ==> Preferred(counts, mentor, m)
         case Finished => forall m :: m in members ==> m == ""
         case _ => false
  {
    MentorIsPreferred(w.handlers[t].members, counts);
    hide Preferred, Leave, CountsLog, Holds;
  }

  /** A handler may fail anywhere once it has begun, and then records nothing. */
  lemma FailureEnds(w: World, t: Task)
    requires t < |w.handlers| && w.handlers[t].place != Arriving && w.handlers[t].place != Finished
    ensures Enabled(w, Fails(t))
    ensures Step(w, Fails(t)).log == w.log
    ensures Step(w, Fails(t)).handlers == w.handlers[t := w.handlers[t].(place := Finished)]
  {
    hide Leave;
  }

  ghost predicate Leads(w: World, es: seq<Event>, w': World)
    decreases |es|
  {
    if es == [] then w' == w else Enabled(w, es[0]) && Leads(Step(w, es[0]), es[1..], w')
  }

  lemma LeadsFirst(w: World, e: Event, es: seq<Event>, w': World)
    requires Enabled(w, e) && Leads(Step(w, e), es, w')
    ensures Leads(w, [e] + es, w')
  {
    assert ([e] + es)[1..] == es;
  }

  /**
   * While no other handler is at work, a handler whose team has a member with a login can go on to
   * its end, and then the log has one row more: the member preferred to all others.
   */
  lemma MentorIsRecorded(w: World, t: Task, counts: map<string, nat>) returns (es: seq<Event>, w': World, mentor: string)
    requires Ok(w.locks) && w.locks.uses == map[] && w.locks.capacity >= 1
    requires t < |w.handlers| && w.handlers[t].place == Arriving && CountsLog(counts, RowsOf(w.log, w.handlers[t].repo))
    requires exists m :: m in w.handlers[t].members && m != ""
    ensures Leads(w, es, w') && |w'.handlers| == |w.handlers| && w'.handlers[t].place == Finished
    ensures w'.log == w.log + [Entry(w.handlers[t].repo, mentor)]
    ensures mentor in w.handlers[t].members && mentor != ""
    ensures forall m :: m in w.handlers[t].members && m != "" ==> Preferred(counts, mentor, m)
  {
    hide Ok, Holds, Enter, Leave, CountsLog, RowsOf, Preferred, SelectMentor;
    var h := w.handlers[t];
    EntersAlone(w.locks, t, h.repo.LockKey());
    var w1 := Step(w, Begins(t));
    MentorIsPreferred(h.members, counts);
    var w2 := Step(w1, Chooses(t, counts));
    mentor := SelectMentor(h.members, counts).value;
    var w3 := Step(w2, Assigned(t));
    var w4 := Step(w3, Commented(t));
    w' := Step(w4, Commits(t));
    LeadsFirst(w4, Commits(t), [], w');
    LeadsFirst(w3, Commented(t), [Commits(t)], w');
    es := [Commented(t)] + [Commits(t)];
    LeadsFirst(w2, Assigned(t), es, w');
    es := [Assigned(t)] + es;
    LeadsFirst(w1, Chooses(t, counts), es, w');
    es := [Chooses(t, counts)] + es;
    LeadsFirst(w, Begins(t), es, w');
    es := [Begins(t)] + es;
  }
}
