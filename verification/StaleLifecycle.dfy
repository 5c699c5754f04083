/**
 * An issue's life under the stale scan. First, scans that interleave with each other and with
 * other activity on the issue; then a regular schedule of scans on an issue left alone.
 */
module StaleLifecycle {
  import opened OrderedDict
  import opened StaleIssues
  import Text

  /** What a call does to the issue; every call is activity. */
  function After(issue: Issue, act: Act, at: int): Issue {
    match act
    case RemoveAssignees(_, logins) => issue.(assignees := Others(issue.assignees, logins), updatedAt := at)
    case Comment(_) => issue.(updatedAt := at)
    case AddLabel(_, name) => issue.(labels := issue.labels + [name], updatedAt := at)
    case CloseIssue(_) => issue.(open := false, updatedAt := at)
    case _ => issue
  }

  function Others(logins: seq<string>, removed: seq<string>): (r: seq<string>)
    ensures (forall login :: login in logins ==> login in removed) ==> r == []
    ensures forall login :: login in r <==> login in logins && login !in removed
  {
    if logins == [] then []
    else (if logins[0] in removed then [] else [logins[0]]) + Others(logins[1..], removed)
  }

  // ---------------------------------------------------------------- scans and other activity

  /** Activity on the issue by a scan, or by someone else. */
  datatype Touch = Touch(at: int, who: Option<nat>)

  /** The issue as a scan listed it, when the stale label was put on it, and how much activity preceded. */
  datatype Listing = Listing(issue: Issue, labelledAt: Option<int>, at: int, touches: nat)

  datatype Visit = Visit(now: int, listing: Option<Listing>, todo: seq<Act>)

  datatype World = World(time: int, issue: Issue, labelledAt: Option<int>, touches: seq<Touch>, visits: seq<Visit>)

  datatype Event =
    | Passes(time: nat)
    | Changes(labels: seq<string>, assignees: seq<string>, open: bool)
    | Starts
    | Lists(s: nat)
    | Performs(s: nat)
    | Drops(s: nat)

  predicate Enabled(w: World, e: Event) {
    match e
    case Passes(_) => true
    case Changes(_, _, _) => true
    case Starts => true
    case Lists(s) => s < |w.visits| && w.visits[s].listing == None
    case Performs(s) => s < |w.visits| && w.visits[s].todo != []
    case Drops(s) => s < |w.visits|
  }

  function Labelled(cfg: Config, w: World, issue: Issue): Option<int> {
    if !IsStale(cfg, issue) then None else if IsStale(cfg, w.issue) then w.labelledAt else Some(w.time)
  }

  /** The issue changes now. */
  function Touched(cfg: Config, w: World, issue: Issue, who: Option<nat>): World {
    w.(issue := issue, labelledAt := Labelled(cfg, w, issue), touches := w.touches + [Touch(w.time, who)])
  }

  function Step(cfg: Config, w: World, e: Event): World
    requires Enabled(w, e)
  {
    match e
    case Passes(time) => w.(time := w.time + time)
    case Changes(labels, assignees, open) =>
      Touched(cfg, w, w.issue.(labels := labels, assignees := assignees, open := open, updatedAt := w.time), None)
    case Starts => w.(visits := w.visits + [Visit(w.time, None, [])])
    case Lists(s) =>
      if !w.issue.open then w
      else
        var listing := Listing(w.issue, w.labelledAt, w.time, |w.touches|);
        w.(visits := w.visits[s := Visit(w.visits[s].now, Some(listing), Acts(cfg, w.issue, w.visits[s].now))])
    case Performs(s) =>
      var v := w.visits[s];
      var w' := w.(visits := w.visits[s := v.(todo := v.todo[1..])]);
      if v.todo[0].Calls() then Touched(cfg, w', After(w.issue, v.todo[0], w.time), Some(s)) else w'
    case Drops(s) => w.(visits := w.visits[s := w.visits[s].(todo := [])])
  }

  ghost predicate IsRun(cfg: Config, ws: seq<World>, es: seq<Event>) {
    && |ws| == |es| + 1
    && ws[0].touches == [] && ws[0].visits == [] && DatesOk(cfg, ws[0].issue, ws[0].labelledAt, ws[0].time)
    && forall i :: 0 <= i < |es| ==> Enabled(ws[i], es[i]) && ws[i + 1] == Step(cfg, ws[i], es[i])
  }

  /** The label was put on no later than the last activity. */
  ghost predicate DatesOk(cfg: Config, issue: Issue, labelledAt: Option<int>, time: int) {
    && issue.updatedAt <= time
    && (labelledAt.Some? <==> IsStale(cfg, issue))
    && (labelledAt.Some? ==> labelledAt.value <= issue.updatedAt)
  }

  ghost predicate TouchesOk(touches: seq<Touch>, updatedAt: int) {
    forall i :: 0 <= i < |touches| ==> touches[i].at <= updatedAt
  }

  ghost predicate VisitOk(cfg: Config, v: Visit, touches: seq<Touch>, time: int) {
    && v.now <= time
    && (v.listing.None? ==> v.todo == [])
    && (v.listing.Some? ==> ListingOk(cfg, v.listing.value, v.now, touches, time))
    && (v.listing.Some? ==> forall act :: act in v.todo ==> act in Acts(cfg, v.listing.value.issue, v.now))
  }

  ghost predicate ListingOk(cfg: Config, l: Listing, now: int, touches: seq<Touch>, time: int) {
    && now <= l.at <= time && l.issue.open
    && DatesOk(cfg, l.issue, l.labelledAt, l.at)
    && l.touches <= |touches|
    && (forall i :: 0 <= i < l.touches ==> touches[i].at <= l.issue.updatedAt)
    && (forall i :: l.touches <= i < |touches| ==> l.at <= touches[i].at)
  }

  ghost predicate VisitsOk(cfg: Config, visits: seq<Visit>, touches: seq<Touch>, time: int) {
    forall s :: 0 <= s < |visits| ==> VisitOk(cfg, visits[s], touches, time)
  }

  ghost predicate Inv(cfg: Config, w: World) {
    && DatesOk(cfg, w.issue, w.labelledAt, w.time)
    && TouchesOk(w.touches, w.issue.updatedAt)
    && VisitsOk(cfg, w.visits, w.touches, w.time)
  }

  lemma VisitStays(cfg: Config, v: Visit, touches: seq<Touch>, time: int, touch: Touch, time': int)
    requires VisitOk(cfg, v, touches, time) && touch.at == time <= time'
    ensures VisitOk(cfg, v, touches, time') && VisitOk(cfg, v, touches + [touch], time')
  {
    hide Acts, DatesOk;
  }

  lemma TouchKeeps(cfg: Config, w: World, issue: Issue, who: Option<nat>)
    requires Inv(cfg, w) && issue.updatedAt == w.time
    ensures Inv(cfg, Touched(cfg, w, issue, who))
  {
    hide IsStale, VisitOk;
    forall s | 0 <= s < |w.visits| ensures VisitOk(cfg, w.visits[s], w.touches + [Touch(w.time, who)], w.time) {
      VisitStays(cfg, w.visits[s], w.touches, w.time, Touch(w.time, who), w.time);
    }
  }

  lemma ActKeeps(cfg: Config, w: World, s: nat)
    requires Inv(cfg, w) && Enabled(w, Performs(s))
    ensures Inv(cfg, Step(cfg, w, Performs(s)))
  {
    hide IsStale, Acts, ListingOk, Labelled;
    var v := w.visits[s];
    assert VisitOk(cfg, v, w.touches, w.time);
    var w' := w.(visits := w.visits[s := v.(todo := v.todo[1..])]);
    assert Inv(cfg, w');
    if v.todo[0].Calls() { TouchKeeps(cfg, w', After(w.issue, v.todo[0], w.time), Some(s)); }
    hide Touched;
  }

  lemma StepKeeps(cfg: Config, w: World, e: Event)
    requires Inv(cfg, w) && Enabled(w, e)
    ensures Inv(cfg, Step(cfg, w, e))
  {
    match e
    case Passes(time) =>
      hide IsStale, VisitOk;
      forall s | 0 <= s < |w.visits| ensures VisitOk(cfg, w.visits[s], w.touches, w.time + time) {
        VisitStays(cfg, w.visits[s], w.touches, w.time, Touch(w.time, None), w.time + time);
      }
    case Changes(labels, assignees, open) =>
      TouchKeeps(cfg, w, w.issue.(labels := labels, assignees := assignees, open := open, updatedAt := w.time), None);
    case Starts =>
      hide IsStale, ListingOk;
    case Lists(s) =>
      hide IsStale, Acts;
      assert VisitOk(cfg, w.visits[s], w.touches, w.time);
    case Performs(s) => ActKeeps(cfg, w, s);
    case Drops(s) =>
      hide IsStale, ListingOk;
      assert VisitOk(cfg, w.visits[s], w.touches, w.time);
  }

  lemma {:induction false} RunKeeps(cfg: Config, ws: seq<World>, es: seq<Event>, i: nat)
    requires IsRun(cfg, ws, es) && i < |ws|
    ensures Inv(cfg, ws[i])
  {
    if i > 0 {
      RunKeeps(cfg, ws, es, i - 1);
      StepKeeps(cfg, ws[i - 1], es[i - 1]);
      hide Inv, Step, Enabled;
    }
  }

  lemma {:induction false} NoCallInAudits(number: int, logins: seq<string>, act: Act)
    requires act.Calls()
    ensures act !in Audits(number, logins)
  {
    if logins != [] { NoCallInAudits(number, logins[1..], act); }
  }

  /** Every call a scan makes is for the issue it listed, and is due by what it listed. */
  lemma CallIsDecided(cfg: Config, issue: Issue, now: int, act: Act)
    requires act in Acts(cfg, issue, now) && act.Calls()
    ensures !LeftAlone(cfg, issue) && act.number == issue.number
    ensures match act
      case CloseIssue(_) => Bears(issue, cfg.staleLabel) && now - issue.updatedAt >= cfg.closeDays * 86_400_000_000
      case RemoveAssignees(_, logins) =>
        logins == issue.assignees && logins != [] && IdleFor(issue, cfg.unassignDays, now)
      case AddLabel(_, name) =>
        name == cfg.staleLabel && !Bears(issue, cfg.staleLabel) && IdleFor(issue, cfg.staleDays, now)
      case _ => true
  {
    NoCallInAudits(issue.number, issue.assignees, act);
    ExemptIff(cfg, issue);
    StaleIff(cfg, issue);
    hide IsStale, Exempt, LeftAlone, Bears;
  }

  lemma CloseIsDecided(cfg: Config, issue: Issue, now: int, n: int)
    requires CloseIssue(n) in Acts(cfg, issue, now)
    ensures !issue.pull && !Exempt(cfg, issue) && Closes(cfg, issue, now)
  {
    NoCallInAudits(issue.number, issue.assignees, CloseIssue(n));
    hide IsStale, Exempt;
  }

  /**
   * An issue is closed only when the closing period has passed since the stale label was put on it
   * and since all activity there had been when the scan listed it, by anyone including the bot.
   */
  lemma ClosedOnlyWhenIdle(cfg: Config, ws: seq<World>, es: seq<Event>, i: nat, s: nat)
    requires IsRun(cfg, ws, es) && i < |es| && es[i] == Performs(s) && s < |ws[i].visits|
    requires ws[i].visits[s].todo != [] && ws[i].visits[s].todo[0].CloseIssue?
    ensures ws[i].visits[s].listing.Some?
    ensures var w, l := ws[i], ws[i].visits[s].listing.value;
      && l.issue.open && !l.issue.pull && !Exempt(cfg, l.issue) && IsStale(cfg, l.issue)
      && l.touches <= |w.touches|
      && l.issue.updatedAt + cfg.closeDays * DAY <= w.time
      && l.labelledAt.Some? && l.labelledAt.value + cfg.closeDays * DAY <= w.time
      && forall k :: 0 <= k < l.touches ==> w.touches[k].at + cfg.closeDays * DAY <= w.time
  {
    RunKeeps(cfg, ws, es, i);
    hide IsRun, Acts, Exempt, IsStale;
    var v := ws[i].visits[s];
    assert VisitOk(cfg, v, ws[i].touches, ws[i].time);
    CloseIsDecided(cfg, v.listing.value.issue, v.now, v.todo[0].number);
  }

  /** A visit's next call is for the issue as it listed it, at a moment no earlier than its start. */
  lemma CallsAreListed(cfg: Config, ws: seq<World>, es: seq<Event>, i: nat, s: nat)
    requires IsRun(cfg, ws, es) && i < |es| && es[i] == Performs(s) && s < |ws[i].visits|
    requires ws[i].visits[s].todo != []
    ensures var v := ws[i].visits[s];
      && v.listing.Some? && v.now <= v.listing.value.at <= ws[i].time && v.listing.value.issue.open
      && v.todo[0] in Acts(cfg, v.listing.value.issue, v.now)
  {
    RunKeeps(cfg, ws, es, i);
    hide IsRun, Acts;
    assert VisitOk(cfg, ws[i].visits[s], ws[i].touches, ws[i].time);
  }

  /**
   * Assignees are removed only when the listed activity is more than the unassigning period before
   * the scan's start, and then all the listed ones; the stale label is put on only when it is more
   * than the stale period before, and the label was not there; and neither happens to pull requests
   * and issues with an exempt label.
   */
  lemma ActsOnlyWhenIdle(cfg: Config, ws: seq<World>, es: seq<Event>, i: nat, s: nat)
    requires IsRun(cfg, ws, es) && i < |es| && es[i] == Performs(s) && s < |ws[i].visits|
    requires ws[i].visits[s].todo != [] && ws[i].visits[s].todo[0].Calls()
    ensures ws[i].visits[s].listing.Some?
    ensures var v, issue, act := ws[i].visits[s], ws[i].visits[s].listing.value.issue, ws[i].visits[s].todo[0];
      && !LeftAlone(cfg, issue) && issue.open && act.number == issue.number && v.now <= ws[i].time
      && (act.RemoveAssignees? ==>
          act.logins == issue.assignees && act.logins != [] && v.now - issue.updatedAt > cfg.unassignDays * 86_400_000_000)
      && (act.AddLabel? ==>
          && act.name == cfg.staleLabel && !Bears(issue, cfg.staleLabel)
          && v.now - issue.updatedAt > cfg.staleDays * 86_400_000_000)
      && (act.CloseIssue? ==>
          Bears(issue, cfg.staleLabel) && v.now - issue.updatedAt >= cfg.closeDays * 86_400_000_000)
  {
    CallsAreListed(cfg, ws, es, i, s);
    var v := ws[i].visits[s];
    CallIsDecided(cfg, v.listing.value.issue, v.now, v.todo[0]);
    hide IsRun, Acts, LeftAlone, Bears;
  }

  /**
   * When a scan that takes less than the closing period closes an issue, everyone else's last
   * activity is at least that period ago if and only if there was none since the listing.
   */
  lemma ClosesIdleIffUntouched(cfg: Config, ws: seq<World>, es: seq<Event>, i: nat, s: nat)
    requires IsRun(cfg, ws, es) && i < |es| && es[i] == Performs(s) && s < |ws[i].visits|
    requires ws[i].visits[s].todo != [] && ws[i].visits[s].todo[0].CloseIssue?
    requires ws[i].visits[s].listing.Some? && ws[i].time < ws[i].visits[s].listing.value.at + cfg.closeDays * DAY
    ensures var w, l := ws[i], ws[i].visits[s].listing.value;
      (forall k :: 0 <= k < |w.touches| && w.touches[k].who != Some(s) ==> w.touches[k].at + cfg.closeDays * DAY <= w.time)
      <==> (forall k :: l.touches <= k < |w.touches| ==> w.touches[k].who == Some(s))
  {
    ClosedOnlyWhenIdle(cfg, ws, es, i, s);
    RunKeeps(cfg, ws, es, i);
    hide IsRun, Acts, Exempt, IsStale;
    assert VisitOk(cfg, ws[i].visits[s], ws[i].touches, ws[i].time);
  }

  /** Activity between the listing and the closing does not keep an issue open. */
  lemma ActivityDuringScanIsMissed(cfg: Config) returns (ws: seq<World>, es: seq<Event>)
    requires Accepted(cfg) && cfg.exempt == []
    ensures IsRun(cfg, ws, es) && |es| == 5 && es[2].Changes? && es[4] == Performs(0)
    ensures ws[4].visits[0].todo != [] && ws[4].visits[0].todo[0].CloseIssue? && !ws[5].issue.open
    ensures ws[2].time == ws[4].time && ws[3].touches[|ws[3].touches| - 1] == Touch(ws[4].time, None)
  {
    var issue := Issue(1, false, [cfg.staleLabel], [], 0, true);
    assert Text.Lower(cfg.staleLabel) in Folded(issue.labels) && Folded(cfg.exempt) == {};
    var now := cfg.closeDays * DAY;
    assert Acts(cfg, issue, now) == Closing(issue, now);
    es := [Starts, Lists(0), Changes(issue.labels, [], true), Performs(0), Performs(0)];
    ClosingStarts(issue, now);
    StaleWith(cfg, issue);
    hide Acts, IsStale, Exempt, Closing, Labelled;
    var todo := Closing(issue, now);
    var w0 := World(now, issue, Some(0), [], []);
    var w1 := w0.(visits := [Visit(now, None, [])]);
    var w2 := w0.(visits := [Visit(now, Some(Listing(issue, Some(0), now, 0)), todo)]);
    var w3 := Step(cfg, w2, es[2]);
    var w4 := Step(cfg, w3, es[3]);
    assert w4.visits[0].todo == todo[1..];
    var w5 := Step(cfg, w4, es[4]);
    assert w1 == Step(cfg, w0, es[0]) && w2 == Step(cfg, w1, es[1]);
    hide Step, Enabled, Touched, After;
    ws := [w0, w1, w2, w3, w4, w5];
  }

  lemma ClosingStarts(issue: Issue, now: int)
    ensures var acts := Closing(issue, now); |acts| == 5 && acts[0] == Comment(issue.number) && acts[1] == CloseIssue(issue.number)
  {
  }

  lemma StaleWith(cfg: Config, issue: Issue)
    requires cfg.staleLabel in issue.labels
    ensures IsStale(cfg, issue)
  {
  }

  // ---------------------------------------------------------------- a schedule of scans

  /** A scan that starts and finishes at these times. */
  datatype Slot = Slot(start: int, end: int)

  function AfterAll(issue: Issue, acts: seq<Act>, at: int): Issue
    decreases |acts|
  {
    if acts == [] then issue else AfterAll(After(issue, acts[0], at), acts[1..], at)
  }

  /** A scan that succeeds, on an issue that no one else touches. The last activity is its last call. */
  function Scanned(cfg: Config, issue: Issue, slot: Slot): Issue {
    if issue.open then AfterAll(issue, Acts(cfg, issue, slot.start), slot.end) else issue
  }

  function ScannedBy(cfg: Config, issue: Issue, slots: seq<Slot>): Issue
    decreases |slots|
  {
    if slots == [] then issue else ScannedBy(cfg, Scanned(cfg, issue, slots[0]), slots[1..])
  }

  lemma {:induction false} AllInTurn(issue: Issue, a: seq<Act>, b: seq<Act>, at: int)
    ensures AfterAll(issue, a + b, at) == AfterAll(AfterAll(issue, a, at), b, at)
    decreases |a|
  {
    if a == [] {
      assert a + b == b;
    } else {
      assert (a + b)[1..] == a[1..] + b;
      AllInTurn(After(issue, a[0], at), a[1..], b, at);
    }
  }

  lemma {:induction false} AuditsTouchNothing(issue: Issue, number: int, logins: seq<string>, at: int)
    ensures AfterAll(issue, Audits(number, logins), at) == issue
    decreases |logins|
  {
    if logins != [] { AuditsTouchNothing(issue, number, logins[1..], at); }
  }

  lemma AfterOne(issue: Issue, act: Act, at: int)
    ensures AfterAll(issue, [act], at) == After(issue, act, at)
  {
    assert [act][1..] == [];
  }

  lemma AfterTwo(issue: Issue, a: Act, b: Act, at: int)
    ensures AfterAll(issue, [a, b], at) == After(After(issue, a, at), b, at)
  {
    assert [a, b][1..] == [b];
    assert AfterAll(issue, [a, b], at) == AfterAll(After(issue, a, at), [b], at);
    AfterOne(After(issue, a, at), b, at);
  }

  lemma AfterThree(issue: Issue, a: Act, b: Act, c: Act, at: int)
    ensures AfterAll(issue, [a, b, c], at) == After(After(After(issue, a, at), b, at), c, at)
  {
    assert [a, b, c][1..] == [b, c];
    assert AfterAll(issue, [a, b, c], at) == AfterAll(After(issue, a, at), [b, c], at);
    AfterTwo(After(issue, a, at), b, c, at);
  }

  lemma AfterUnassigning(issue: Issue, listed: Issue, now: int, at: int)
    requires issue.assignees == listed.assignees
    ensures AfterAll(issue, Unassigning(listed, now), at) == issue.(assignees := [], updatedAt := at)
  {
    var acts, logins := Unassigning(listed, now), listed.assignees;
    var begun := [acts[0], acts[1], acts[2]];
    AfterThree(issue, acts[0], acts[1], acts[2], at);
    AllInTurn(issue, begun + Audits(listed.number, logins), [CountUnassigned(|logins|)], at);
    AllInTurn(issue, begun, Audits(listed.number, logins), at);
    AuditsTouchNothing(AfterAll(issue, begun, at), listed.number, logins, at);
  }

  lemma AfterClosing(issue: Issue, listed: Issue, now: int, at: int)
    ensures AfterAll(issue, Closing(listed, now), at) == issue.(open := false, updatedAt := at)
  {
    var acts := Closing(listed, now);
    AfterThree(issue, acts[0], acts[1], acts[2], at);
    assert acts == [acts[0], acts[1], acts[2]] + [acts[3], acts[4]];
    AllInTurn(issue, [acts[0], acts[1], acts[2]], [acts[3], acts[4]], at);
    AfterTwo(AfterAll(issue, [acts[0], acts[1], acts[2]], at), acts[3], acts[4], at);
  }

  lemma AfterMarking(cfg: Config, issue: Issue, listed: Issue, now: int, at: int)
    ensures AfterAll(issue, Marking(cfg, listed, now), at) == issue.(labels := issue.labels + [cfg.staleLabel], updatedAt := at)
  {
    var acts := Marking(cfg, listed, now);
    AfterThree(issue, acts[0], acts[1], acts[2], at);
    assert acts == [acts[0], acts[1], acts[2]] + [acts[3], acts[4]];
    AllInTurn(issue, [acts[0], acts[1], acts[2]], [acts[3], acts[4]], at);
    AfterTwo(AfterAll(issue, [acts[0], acts[1], acts[2]], at), acts[3], acts[4], at);
  }

  lemma ScannedAs(cfg: Config, issue: Issue, slot: Slot)
    requires issue.open && !issue.pull && !Exempt(cfg, issue)
    ensures var now := slot.start;
      var unassigned := if Unassigns(cfg, issue, now) then issue.(assignees := [], updatedAt := slot.end) else issue;
      Scanned(cfg, issue, slot) ==
        if Closes(cfg, issue, now) then unassigned.(open := false, updatedAt := slot.end)
        else if Marks(cfg, issue, now) then unassigned.(labels := issue.labels + [cfg.staleLabel], updatedAt := slot.end)
        else unassigned
  {
    hide IsStale, Exempt, Unassigning, Closing, Marking;
    var now := slot.start;
    var first := if Unassigns(cfg, issue, now) then Unassigning(issue, now) else [];
    AllInTurn(issue, first, Second(cfg, issue, now), slot.end);
    AfterUnassigning(issue, issue, now, slot.end);
    var unassigned := if Unassigns(cfg, issue, now) then issue.(assignees := [], updatedAt := slot.end) else issue;
    assert AfterAll(issue, first, slot.end) == unassigned;
    AfterClosing(unassigned, issue, now, slot.end);
    AfterMarking(cfg, unassigned, issue, now, slot.end);
  }

  /**
   * What a scan that succeeds does to an issue, all of it decided on the listed activity: after more
   * than the unassigning period the assignees go; a stale one is closed after the closing period,
   * and one that is not stale gets the label after more than the stale period.
   */
  lemma ScannedIs(cfg: Config, issue: Issue, slot: Slot)
    requires issue.open
    ensures var now := slot.start;
      var unassigns := issue.assignees != [] && IdleFor(issue, cfg.unassignDays, now);
      var closes := Bears(issue, cfg.staleLabel) && now - issue.updatedAt >= cfg.closeDays * 86_400_000_000;
      var marks := !Bears(issue, cfg.staleLabel) && IdleFor(issue, cfg.staleDays, now);
      Scanned(cfg, issue, slot) ==
        if LeftAlone(cfg, issue) || !(unassigns || closes || marks) then issue
        else issue.(assignees := if unassigns then [] else issue.assignees,
                    open := !closes,
                    labels := if marks then issue.labels + [cfg.staleLabel] else issue.labels,
                    updatedAt := slot.end)
  {
    ExemptIff(cfg, issue);
    StaleIff(cfg, issue);
    if !issue.pull && !Exempt(cfg, issue) { ScannedAs(cfg, issue, slot); }
    hide IsStale, Exempt, LeftAlone, Bears;
  }

  /** Scans start at most `gap` apart, the first at most `gap` after `from`, take at most `delay`, and do not overlap. */
  ghost predicate Spaced(slots: seq<Slot>, from: int, free: int, gap: int, delay: int)
    decreases |slots|
  {
    slots != [] ==>
      && free <= slots[0].start <= from + gap && slots[0].start <= slots[0].end <= slots[0].start + delay
      && Spaced(slots[1..], slots[0].start, slots[0].end, gap, delay)
  }

  /** When the issue is closed at the latest. */
  function Deadline(cfg: Config, issue: Issue, gap: int, delay: int): int {
    issue.updatedAt
    + (if issue.assignees != [] then cfg.unassignDays * DAY + gap + delay else 0)
    + (if IsStale(cfg, issue) then 0 else cfg.staleDays * DAY + gap + delay)
    + cfg.closeDays * DAY + gap
  }

  /** An open issue that scans act on, and that the scan at `last` found nothing to do about. */
  ghost predicate Waiting(cfg: Config, issue: Issue, last: int) {
    && issue.open && !issue.pull && !Exempt(cfg, issue)
    && (issue.assignees != [] ==> last <= issue.updatedAt + cfg.unassignDays * DAY)
    && (!IsStale(cfg, issue) ==> last <= issue.updatedAt + cfg.staleDays * DAY)
    && (IsStale(cfg, issue) ==> last < issue.updatedAt + cfg.closeDays * DAY)
  }

  predicate StaleIsExempt(cfg: Config) {
    Text.Lower(cfg.staleLabel) in Folded(cfg.exempt)
  }

  lemma MarkedIsStale(cfg: Config, issue: Issue)
    requires !StaleIsExempt(cfg) && !Exempt(cfg, issue)
    ensures var marked := issue.(labels := issue.labels + [cfg.staleLabel]); IsStale(cfg, marked) && !Exempt(cfg, marked)
  {
    var labels := issue.labels + [cfg.staleLabel];
    assert cfg.staleLabel in labels;
    assert Folded(labels) == Folded(issue.labels) + {Text.Lower(cfg.staleLabel)};
  }

  /** A scan closes the issue in time, or brings it no further from its deadline. */
  lemma ScanProgresses(cfg: Config, issue: Issue, slot: Slot, last: int, gap: int, delay: int)
    requires Accepted(cfg) && !StaleIsExempt(cfg) && Waiting(cfg, issue, last)
    requires last <= slot.start <= last + gap && slot.start <= slot.end <= slot.start + delay
    ensures var issue' := Scanned(cfg, issue, slot);
      && (issue'.open ==> Waiting(cfg, issue', slot.start) && Deadline(cfg, issue', gap, delay) <= Deadline(cfg, issue, gap, delay)
                          && slot.start < Deadline(cfg, issue', gap, delay))
      && (!issue'.open ==> slot.start < Deadline(cfg, issue, gap, delay))
  {
    ScannedAs(cfg, issue, slot);
    MarkedIsStale(cfg, issue);
    hide Scanned;
  }

  /**
   * An issue that everyone leaves alone, and that scans with gaps of at most `gap` act on, is
   * closed by a scan that starts before the deadline.
   */
  lemma {:induction false} ClosedInTime(cfg: Config, issue: Issue, slots: seq<Slot>, last: int, gap: int, delay: int) returns (k: nat)
    requires Accepted(cfg) && !StaleIsExempt(cfg) && Waiting(cfg, issue, last)
    requires Spaced(slots, last, last, gap, delay) && delay >= 0
    requires slots != [] && slots[|slots| - 1].start >= Deadline(cfg, issue, gap, delay)
    ensures k < |slots| && slots[k].start < Deadline(cfg, issue, gap, delay)
    ensures !ScannedBy(cfg, issue, slots[..k + 1]).open
    decreases |slots|
  {
    hide Waiting, Deadline, Scanned, StaleIsExempt;
    var issue' := Scanned(cfg, issue, slots[0]);
    ScanProgresses(cfg, issue, slots[0], last, gap, delay);
    if issue'.open {
      assert |slots| > 1;
      k := ClosedInTime(cfg, issue', slots[1..], slots[0].start, gap, delay);
      k := k + 1;
      assert slots[..k + 1][1..] == slots[1..][..k];
    } else {
      k := 0;
      assert slots[..1] == [slots[0]];
      assert ScannedBy(cfg, issue, [slots[0]]) == ScannedBy(cfg, issue', []);
    }
  }

  lemma {:induction false} StaysClosed(cfg: Config, issue: Issue, slots: seq<Slot>)
    requires !issue.open
    ensures ScannedBy(cfg, issue, slots) == issue
    decreases |slots|
  {
    if slots != [] { StaysClosed(cfg, issue, slots[1..]); }
  }

  lemma {:induction false} ScannedInTurn(cfg: Config, issue: Issue, a: seq<Slot>, b: seq<Slot>)
    ensures ScannedBy(cfg, issue, a + b) == ScannedBy(cfg, ScannedBy(cfg, issue, a), b)
    decreases |a|
  {
    if a == [] {
      assert a + b == b;
    } else {
      assert (a + b)[1..] == a[1..] + b;
      ScannedInTurn(cfg, Scanned(cfg, issue, a[0]), a[1..], b);
    }
  }

  predicate Spared(cfg: Config, issue: Issue) {
    issue.pull || Exempt(cfg, issue) || StaleIsExempt(cfg)
  }

  lemma {:induction false} SparedStaysOpen(cfg: Config, issue: Issue, slots: seq<Slot>)
    requires issue.open && Spared(cfg, issue)
    ensures ScannedBy(cfg, issue, slots).open
    decreases |slots|
  {
    if slots != [] {
      SparedIsNotClosed(cfg, issue, slots[0]);
      hide Spared, Scanned;
      SparedStaysOpen(cfg, Scanned(cfg, issue, slots[0]), slots[1..]);
    }
  }

  lemma SparedIsNotClosed(cfg: Config, issue: Issue, slot: Slot)
    requires issue.open && Spared(cfg, issue)
    ensures Scanned(cfg, issue, slot).open && Spared(cfg, Scanned(cfg, issue, slot))
  {
    if !issue.pull && !Exempt(cfg, issue) {
      ScannedAs(cfg, issue, slot);
      StaleIsThere(cfg, issue);
      hide Exempt, IsStale, StaleIsExempt, Scanned;
    }
  }

  lemma StaleIsThere(cfg: Config, issue: Issue)
    requires StaleIsExempt(cfg) && !Exempt(cfg, issue)
    ensures !IsStale(cfg, issue)
  {
    assert IsStale(cfg, issue) ==> Text.Lower(cfg.staleLabel) in Folded(issue.labels) * Folded(cfg.exempt);
  }

  /**
   * Scans that reach the deadline close an issue left alone if and only if it is not a pull
   * request, carries no exempt label, and the stale label itself is not among the exempt ones.
   */
  lemma ClosesIffNotSpared(cfg: Config, issue: Issue, slots: seq<Slot>, gap: int, delay: int)
    requires Accepted(cfg) && issue.open && delay >= 0
    requires slots != [] && Spaced(slots, issue.updatedAt, issue.updatedAt, gap, delay)
    requires slots[|slots| - 1].start >= Deadline(cfg, issue, gap, delay)
    ensures !ScannedBy(cfg, issue, slots).open <==> !Spared(cfg, issue)
  {
    hide Scanned, ScannedBy, Deadline, Spaced, Waiting, Spared;
    if Spared(cfg, issue) {
      SparedStaysOpen(cfg, issue, slots);
    } else {
      StartsWaiting(cfg, issue);
      var k := ClosedInTime(cfg, issue, slots, issue.updatedAt, gap, delay);
      assert slots == slots[..k + 1] + slots[k + 1..];
      ScannedInTurn(cfg, issue, slots[..k + 1], slots[k + 1..]);
      StaysClosed(cfg, ScannedBy(cfg, issue, slots[..k + 1]), slots[k + 1..]);
    }
  }

  lemma StartsWaiting(cfg: Config, issue: Issue)
    requires Accepted(cfg) && issue.open && !Spared(cfg, issue)
    ensures !StaleIsExempt(cfg) && Waiting(cfg, issue, issue.updatedAt)
  {
    hide IsStale, Exempt;
  }

  // ---------------------------------------------------------------- a scan alone

  ghost predicate Leads(cfg: Config, w: World, es: seq<Event>, w': World)
    decreases |es|
  {
    if es == [] then w' == w else Enabled(w, es[0]) && Leads(cfg, Step(cfg, w, es[0]), es[1..], w')
  }

  lemma LeadsFirst(cfg: Config, w: World, e: Event, es: seq<Event>, w': World)
    requires Enabled(w, e) && Leads(cfg, Step(cfg, w, e), es, w')
    ensures Leads(cfg, w, [e] + es, w')
  {
    assert ([e] + es)[1..] == es;
  }

  lemma {:induction false} PerformsAll(cfg: Config, w: World, s: nat) returns (es: seq<Event>, w': World)
    requires s < |w.visits|
    ensures Leads(cfg, w, es, w') && w'.time == w.time
    ensures w'.issue == AfterAll(w.issue, w.visits[s].todo, w.time)
    decreases |w.visits[s].todo|
  {
    hide Labelled;
    es, w' := [], w;
    if w.visits[s].todo != [] {
      var next := Step(cfg, w, Performs(s));
      es, w' := PerformsAll(cfg, next, s);
      LeadsFirst(cfg, w, Performs(s), es, w');
      es := [Performs(s)] + es;
    }
  }

  /** A scan that nothing interleaves with, and that no call of which fails, leaves the issue as the schedule of scans has it. */
  lemma LoneScan(cfg: Config, w: World, end: int) returns (es: seq<Event>, w': World)
    requires w.time <= end
    ensures Leads(cfg, w, es, w') && w'.time == end
    ensures w'.issue == Scanned(cfg, w.issue, Slot(w.time, end))
  {
    hide Acts, AfterAll, Labelled;
    var s := |w.visits|;
    var w1 := Step(cfg, w, Starts);
    var w2 := Step(cfg, w1, Lists(s));
    var w3 := Step(cfg, w2, Passes(end - w.time));
    es, w' := PerformsAll(cfg, w3, s);
    assert !w.issue.open ==> AfterAll(w.issue, [], end) == w.issue by { NothingAfter(w.issue, end); }
    LeadsFirst(cfg, w2, Passes(end - w.time), es, w');
    es := [Passes(end - w.time)] + es;
    LeadsFirst(cfg, w1, Lists(s), es, w');
    es := [Lists(s)] + es;
    LeadsFirst(cfg, w, Starts, es, w');
    es := [Starts] + es;
  }

  lemma NothingAfter(issue: Issue, at: int)
    ensures AfterAll(issue, [], at) == issue
  {
  }

  /** A scan lists the issue once, as it is then, if it is open. */
  lemma ListsOnce(cfg: Config, w: World, s: nat)
    requires Enabled(w, Lists(s))
    ensures s < |w.visits| && w.visits[s].listing.None?
    ensures var w' := Step(cfg, w, Lists(s));
      && w'.issue == w.issue && w'.touches == w.touches && |w'.visits| == |w.visits|
      && w'.visits[s].now == w.visits[s].now
      && (w'.visits[s].listing.Some? <==> w.issue.open)
      && (w.issue.open ==> w'.visits[s].listing.value.issue == w.issue && w'.visits[s].listing.value.at == w.time)
  {
    hide Acts;
  }

  /** A scan may give up at any moment. It makes no further call then, and undoes none that it made. */
  lemma DropEnds(cfg: Config, w: World, s: nat)
    requires s < |w.visits|
    ensures Enabled(w, Drops(s))
    ensures var w' := Step(cfg, w, Drops(s));
      w'.issue == w.issue && w'.touches == w.touches && !Enabled(w', Performs(s)) && |w'.visits| == |w.visits|
  {
  }

  /** The date of the stale label is that of the event that put it on, for as long as it stays. */
  lemma LabelIsDated(cfg: Config, ws: seq<World>, es: seq<Event>, i: nat)
    requires IsRun(cfg, ws, es) && i < |es|
    ensures var w, w' := ws[i], ws[i + 1];
      && (w'.labelledAt.Some? <==> Bears(w'.issue, cfg.staleLabel))
      && (Bears(w'.issue, cfg.staleLabel) ==>
          w'.labelledAt == if Bears(w.issue, cfg.staleLabel) then w.labelledAt else Some(w.time))
  {
    RunKeeps(cfg, ws, es, i + 1);
    RunKeeps(cfg, ws, es, i);
    StaleIff(cfg, ws[i].issue);
    StaleIff(cfg, ws[i + 1].issue);
    assert Enabled(ws[i], es[i]) && ws[i + 1] == Step(cfg, ws[i], es[i]);
    hide IsRun, IsStale, Acts, After, Bears;
  }
}
