/**
 * The scheduled scan that unassigns, marks and closes inactive issues.
 *
 * This is one scan over a listing, with failures anywhere. Times count microseconds.
 */
module StaleIssues {
  import opened OrderedDict
  import Text

  const DAY: int := 86_400_000_000

  /** `exempt` and `staleLabel` as configured; the three periods in days. */
  datatype Config = Config(staleDays: int, closeDays: int, unassignDays: int, staleLabel: string, exempt: seq<string>)

  /** What the configuration schema accepts. */
  predicate Accepted(cfg: Config) {
    cfg.staleDays > 0 && cfg.closeDays > 0 && cfg.unassignDays > 0 && cfg.closeDays < cfg.staleDays
  }

  datatype Issue = Issue(number: int, pull: bool, labels: seq<string>, assignees: seq<string>, updatedAt: int, open: bool)

  function Folded(labels: seq<string>): set<string> {
    set name | name in labels :: Text.Lower(name)
  }

  predicate IsStale(cfg: Config, issue: Issue) {
    Text.Lower(cfg.staleLabel) in Folded(issue.labels)
  }

  predicate Exempt(cfg: Config, issue: Issue) {
    Folded(issue.labels) * Folded(cfg.exempt) != {}
  }

  /** What a scan does: calls to GitHub, audit rows added to the transaction, and counting. */
  datatype Act =
    | RemoveAssignees(number: int, logins: seq<string>)
    | Comment(number: int)
    | AddLabel(number: int, name: string)
    | CloseIssue(number: int)
    | Record(row: Row)
    | CountUnassigned(n: nat)
    | CountClosed
    | CountMarked
  {
    predicate Calls() { RemoveAssignees? || Comment? || AddLabel? || CloseIssue? }
  }

  datatype Row = StaleLog(number: int, action: string, daysInactive: int) | Audit(number: int, action: string, login: string)

  function Days(issue: Issue, now: int): int { (now - issue.updatedAt) / DAY }

  function Audits(number: int, logins: seq<string>): seq<Act> {
    if logins == [] then [] else [Record(Audit(number, "issue.unassigned", logins[0]))] + Audits(number, logins[1..])
  }

  function Unassigning(issue: Issue, now: int): seq<Act> {
    [RemoveAssignees(issue.number, issue.assignees), Comment(issue.number),
     Record(StaleLog(issue.number, "unassigned", Days(issue, now)))]
    + Audits(issue.number, issue.assignees) + [CountUnassigned(|issue.assignees|)]
  }

  function Closing(issue: Issue, now: int): seq<Act> {
    [Comment(issue.number), CloseIssue(issue.number), Record(StaleLog(issue.number, "closed", Days(issue, now))),
     Record(Audit(issue.number, "issue.closed", "")), CountClosed]
  }

  function Marking(cfg: Config, issue: Issue, now: int): seq<Act> {
    [AddLabel(issue.number, cfg.staleLabel), Comment(issue.number),
     Record(StaleLog(issue.number, "marked_stale", Days(issue, now))),
     Record(Audit(issue.number, "issue.stale_marked", "")), CountMarked]
  }

  predicate Unassigns(cfg: Config, issue: Issue, now: int) {
    issue.assignees != [] && issue.updatedAt < now - cfg.unassignDays * DAY
  }

  predicate Closes(cfg: Config, issue: Issue, now: int) {
    IsStale(cfg, issue) && issue.updatedAt <= now - cfg.closeDays * DAY
  }

  predicate Marks(cfg: Config, issue: Issue, now: int) {
    !IsStale(cfg, issue) && issue.updatedAt < now - cfg.staleDays * DAY
  }

  /** All that a scan started at `now` does about an issue it listed, if nothing fails. */
  function Acts(cfg: Config, issue: Issue, now: int): seq<Act> {
    if issue.pull || Exempt(cfg, issue) then []
    else
      (if Unassigns(cfg, issue, now) then Unassigning(issue, now) else []) + Second(cfg, issue, now)
  }

  function Second(cfg: Config, issue: Issue, now: int): seq<Act> {
    if Closes(cfg, issue, now) then Closing(issue, now)
    else if Marks(cfg, issue, now) then Marking(cfg, issue, now) else []
  }

  /** What is done before the act number `fault` raises. */
  function Until(acts: seq<Act>, fault: Option<nat>): seq<Act> {
    if fault.Some? && fault.value < |acts| then acts[..fault.value] else acts
  }

  function CallsIn(acts: seq<Act>): seq<Act> {
    if acts == [] then [] else (if acts[0].Calls() then [acts[0]] else []) + CallsIn(acts[1..])
  }

  function RowsIn(acts: seq<Act>): seq<Row> {
    if acts == [] then [] else (if acts[0].Record? then [acts[0].row] else []) + RowsIn(acts[1..])
  }

  datatype Counts = Counts(marked: nat, closed: nat, unassigned: nat, errors: nat) {
    function After(act: Act): Counts {
      match act
      case CountUnassigned(n) => this.(unassigned := unassigned + n)
      case CountClosed => this.(closed := closed + 1)
      case CountMarked => this.(marked := marked + 1)
      case _ => this
    }

    function AfterAll(acts: seq<Act>): Counts
      decreases |acts|
    {
      if acts == [] then this else After(acts[0]).AfterAll(acts[1..])
    }
  }

  /**
   * A scan under way. `fault` says how many more acts succeed before one raises; `raised` that
   * an exception is on its way to the loop over the issues.
   */
  datatype Scan = Scan(calls: seq<Act>, pending: seq<Row>, committed: seq<Row>, counts: Counts, fault: Option<nat>, raised: bool) {
    function Do(act: Act): Scan {
      if raised || fault == Some(0) then this.(raised := true)
      else Scan(
        if act.Calls() then calls + [act] else calls,
        if act.Record? then pending + [act.row] else pending,
        committed,
        counts.After(act),
        match fault case None => None case Some(k) => if k > 0 then Some(k - 1) else None,
        false)
    }

    function DoAll(acts: seq<Act>): Scan
      decreases |acts|
    {
      if acts == [] then this else Do(acts[0]).DoAll(acts[1..])
    }

    /** Commit, which may fail too, or roll back and count the error. */
    function Settle(): Scan {
      if raised || fault == Some(0) then this.(pending := [], counts := counts.(errors := counts.errors + 1), raised := false)
      else this.(pending := [], committed := committed + pending)
    }

    function Scanned(acts: seq<Act>, fault: Option<nat>): Scan {
      this.(fault := fault).DoAll(acts).Settle()
    }
  }

  function ScannedAll(start: Scan, cfg: Config, issues: seq<Issue>, now: int, faults: seq<Option<nat>>): Scan
    requires |faults| == |issues|
  {
    if issues == [] then start
    else
      var last := |issues| - 1;
      ScannedAll(start, cfg, issues[..last], now, faults[..last]).Scanned(Acts(cfg, issues[last], now), faults[last])
  }

  const IDLE := Scan([], [], [], Counts(0, 0, 0, 0), None, false)

  // ---------------------------------------------------------------- the code

  lemma {:induction false} DoneInTurn(scan: Scan, a: seq<Act>, b: seq<Act>)
    ensures scan.DoAll(a + b) == scan.DoAll(a).DoAll(b)
    decreases |a|
  {
    if a == [] {
      assert a + b == b;
    } else {
      assert (a + b)[1..] == a[1..] + b;
      DoneInTurn(scan.Do(a[0]), a[1..], b);
    }
  }

  lemma DoneOne(scan: Scan, act: Act)
    ensures scan.DoAll([act]) == scan.Do(act)
  {
    assert [act][1..] == [];
  }

  lemma DoneThree(scan: Scan, a: Act, b: Act, c: Act)
    ensures scan.DoAll([a, b, c]) == scan.Do(a).Do(b).Do(c)
  {
    assert [a, b, c] == [a] + [b] + [c];
    DoneOne(scan, a);
    DoneOne(scan.Do(a), b);
    DoneOne(scan.Do(a).Do(b), c);
    DoneInTurn(scan, [a], [b]);
    DoneInTurn(scan, [a] + [b], [c]);
  }

  lemma {:induction false} DoneNone(scan: Scan, acts: seq<Act>)
    requires scan.raised
    ensures scan.DoAll(acts) == scan
    decreases |acts|
  {
    if acts != [] { DoneNone(scan, acts[1..]); }
  }

  class StaleScan {
    var calls: seq<Act>
    var pending: seq<Row>
    var committed: seq<Row>
    var counts: Counts
    var fault: Option<nat>
    var raised: bool

    ghost function State(): Scan
      reads this
    {
      Scan(calls, pending, committed, counts, fault, raised)
    }

    constructor ()
      ensures State() == IDLE
    {
      calls, pending, committed, counts, fault, raised := [], [], [], Counts(0, 0, 0, 0), None, false;
    }

    /** One act, unless an exception is on its way or this act raises. */
    method Do(act: Act) returns (ok: bool)
      modifies this
      ensures State() == old(State()).Do(act) && ok == !raised
    {
      if raised || fault == Some(0) {
        raised := true;
        return false;
      }
      if act.Calls() { calls := calls + [act]; }
      if act.Record? { pending := pending + [act.row]; }
      counts := counts.After(act);
      if fault.Some? && fault.value > 0 { fault := Some(fault.value - 1); }
      return true;
    }

    method Perform3(a: Act, b: Act, c: Act) returns (ok: bool)
      modifies this
      ensures State() == old(State()).DoAll([a, b, c]) && ok == !raised
    {
      DoneThree(State(), a, b, c);
      ok := Do(a);
      ok := Do(b);
      ok := Do(c);
    }

    method UnassignInactive(issue: Issue, now: int) returns (ok: bool)
      modifies this
      ensures State() == old(State()).DoAll(Unassigning(issue, now)) && ok == !raised
    {
      ghost var before, all := State(), Audits(issue.number, issue.assignees);
      ok := Perform3(RemoveAssignees(issue.number, issue.assignees), Comment(issue.number),
                     Record(StaleLog(issue.number, "unassigned", Days(issue, now))));
      ghost var begun := State();
      var i := 0;
      AuditsAre(issue.number, issue.assignees);
      while i < |issue.assignees|
        invariant 0 <= i <= |issue.assignees|
        invariant State() == begun.DoAll(all[..i])
      {
        DoneInTurn(begun, all[..i], [all[i]]);
        DoneOne(begun.DoAll(all[..i]), all[i]);
        assert all[..i + 1] == all[..i] + [all[i]];
        ok := Do(Record(Audit(issue.number, "issue.unassigned", issue.assignees[i])));
        i := i + 1;
      }
      assert all[..i] == all;
      ok := Do(CountUnassigned(|issue.assignees|));
      UnassignedInTurn(before, issue, now);
    }

    method CloseStale(issue: Issue, now: int) returns (ok: bool)
      modifies this
      ensures State() == old(State()).DoAll(Closing(issue, now)) && ok == !raised
    {
      ghost var before := State();
      ok := Perform3(Comment(issue.number), CloseIssue(issue.number), Record(StaleLog(issue.number, "closed", Days(issue, now))));
      ok := Do(Record(Audit(issue.number, "issue.closed", "")));
      ok := Do(CountClosed);
      DoneFive(before, Closing(issue, now));
    }

    method MarkStale(cfg: Config, issue: Issue, now: int) returns (ok: bool)
      modifies this
      ensures State() == old(State()).DoAll(Marking(cfg, issue, now)) && ok == !raised
    {
      ghost var before := State();
      ok := Perform3(AddLabel(issue.number, cfg.staleLabel), Comment(issue.number),
                     Record(StaleLog(issue.number, "marked_stale", Days(issue, now))));
      ok := Do(Record(Audit(issue.number, "issue.stale_marked", "")));
      ok := Do(CountMarked);
      DoneFive(before, Marking(cfg, issue, now));
    }

    method ScanIssue(cfg: Config, issue: Issue, now: int) returns (ok: bool)
      requires !raised
      modifies this
      ensures State() == old(State()).DoAll(Acts(cfg, issue, now)) && ok == !raised
    {
      ghost var before := State();
      ok := true;
      if issue.pull { return; }
      if Folded(issue.labels) * Folded(cfg.exempt) != {} { return; }
      var isStale := Text.Lower(cfg.staleLabel) in Folded(issue.labels);
      ActsInTurn(before, cfg, issue, now);
      if issue.assignees != [] && issue.updatedAt < now - cfg.unassignDays * DAY {
        ok := UnassignInactive(issue, now);
        if !ok {
          AllRaised(State(), cfg, issue, now);
          return;
        }
      }
      if isStale && issue.updatedAt <= now - cfg.closeDays * DAY {
        ok := CloseStale(issue, now);
        return;
      }
      if !isStale && issue.updatedAt < now - cfg.staleDays * DAY {
        ok := MarkStale(cfg, issue, now);
      }
    }

    /** Commits what one issue added, unless that fails too. */
    method Commit() returns (ok: bool)
      requires !raised
      modifies this
      ensures ok <==> old(fault) != Some(0)
      ensures State() == if ok then old(State()).Settle() else old(State()).(raised := true)
    {
      if fault == Some(0) {
        raised := true;
        return false;
      }
      committed, pending := committed + pending, [];
      return true;
    }

    /** The scan of a listing. `faults` says how the work on each issue fails. */
    method Run(cfg: Config, issues: seq<Issue>, now: int, faults: seq<Option<nat>>)
      requires !raised && pending == [] && |faults| == |issues|
      modifies this
      ensures State() == ScannedAll(old(State()), cfg, issues, now, faults)
    {
      var i := 0;
      while i < |issues|
        invariant 0 <= i <= |issues| && !raised && pending == []
        invariant State() == ScannedAll(old(State()), cfg, issues[..i], now, faults[..i])
      {
        assert issues[..i + 1][..i] == issues[..i] && faults[..i + 1][..i] == faults[..i];
        fault := faults[i];
        var ok := ScanIssue(cfg, issues[i], now);
        if ok {
          ok := Commit();
        }
        if !ok {
          counts := counts.(errors := counts.errors + 1);
          pending, raised := [], false;
        }
        i := i + 1;
      }
      assert issues[..i] == issues && faults[..i] == faults;
    }
  }

  lemma UnassignedInTurn(scan: Scan, issue: Issue, now: int)
    ensures var all := Unassigning(issue, now);
      scan.DoAll(all) == scan.DoAll([all[0], all[1], all[2]]).DoAll(Audits(issue.number, issue.assignees)).Do(all[|all| - 1])
  {
    var all := Unassigning(issue, now);
    var begun := [all[0], all[1], all[2]];
    DoneInTurn(scan, begun + Audits(issue.number, issue.assignees), [CountUnassigned(|issue.assignees|)]);
    DoneInTurn(scan, begun, Audits(issue.number, issue.assignees));
    DoneOne(scan.DoAll(begun + Audits(issue.number, issue.assignees)), CountUnassigned(|issue.assignees|));
  }

  lemma DoneFive(scan: Scan, acts: seq<Act>)
    requires |acts| == 5
    ensures scan.DoAll(acts) == scan.DoAll([acts[0], acts[1], acts[2]]).Do(acts[3]).Do(acts[4])
  {
    assert acts == [acts[0], acts[1], acts[2]] + [acts[3]] + [acts[4]];
    var begun := scan.DoAll([acts[0], acts[1], acts[2]]);
    DoneInTurn(scan, [acts[0], acts[1], acts[2]], [acts[3]]);
    DoneInTurn(scan, [acts[0], acts[1], acts[2]] + [acts[3]], [acts[4]]);
    DoneOne(begun, acts[3]);
    DoneOne(begun.Do(acts[3]), acts[4]);
  }

  lemma ActsInTurn(scan: Scan, cfg: Config, issue: Issue, now: int)
    requires !issue.pull && !Exempt(cfg, issue)
    ensures scan.DoAll(Acts(cfg, issue, now)) ==
      (if Unassigns(cfg, issue, now) then scan.DoAll(Unassigning(issue, now)) else scan).DoAll(Second(cfg, issue, now))
  {
    var first := if Unassigns(cfg, issue, now) then Unassigning(issue, now) else [];
    DoneInTurn(scan, first, Second(cfg, issue, now));
  }

  lemma AllRaised(scan: Scan, cfg: Config, issue: Issue, now: int)
    requires scan.raised
    ensures scan.DoAll(Second(cfg, issue, now)) == scan
  {
    DoneNone(scan, Second(cfg, issue, now));
  }

  lemma {:induction false} AuditsAre(number: int, logins: seq<string>)
    ensures |Audits(number, logins)| == |logins|
    ensures forall i :: 0 <= i < |logins| ==> Audits(number, logins)[i] == Record(Audit(number, "issue.unassigned", logins[i]))
  {
    if logins != [] { AuditsAre(number, logins[1..]); }
  }

  // ---------------------------------------------------------------- issues are isolated

  /** The work on an issue and its commit succeed. */
  predicate Commits(acts: seq<Act>, fault: Option<nat>) {
    fault.Some? ==> fault.value > |acts|
  }

  lemma {:induction false} DoneUntil(scan: Scan, acts: seq<Act>)
    requires !scan.raised
    ensures var done := scan.DoAll(acts);
      && done.calls == scan.calls + CallsIn(Until(acts, scan.fault))
      && done.pending == scan.pending + RowsIn(Until(acts, scan.fault))
      && done.committed == scan.committed
      && done.counts == scan.counts.AfterAll(Until(acts, scan.fault))
      && (done.raised || done.fault == Some(0) <==> !Commits(acts, scan.fault))
    decreases |acts|
  {
    if acts != [] {
      if scan.fault == Some(0) {
        DoneNone(scan.Do(acts[0]), acts[1..]);
      } else {
        var next := scan.Do(acts[0]);
        DoneUntil(next, acts[1..]);
        assert Until(acts, scan.fault)[0] == acts[0] && Until(acts, scan.fault)[1..] == Until(acts[1..], next.fault);
      }
    }
  }

  function AllCalls(cfg: Config, issues: seq<Issue>, now: int, faults: seq<Option<nat>>): seq<Act>
    requires |faults| == |issues|
  {
    if issues == [] then []
    else
      var last := |issues| - 1;
      AllCalls(cfg, issues[..last], now, faults[..last]) + CallsIn(Until(Acts(cfg, issues[last], now), faults[last]))
  }

  function AllRows(cfg: Config, issues: seq<Issue>, now: int, faults: seq<Option<nat>>): seq<Row>
    requires |faults| == |issues|
  {
    if issues == [] then []
    else
      var last := |issues| - 1;
      var acts := Acts(cfg, issues[last], now);
      AllRows(cfg, issues[..last], now, faults[..last]) + if Commits(acts, faults[last]) then RowsIn(acts) else []
  }

  function Failures(cfg: Config, issues: seq<Issue>, now: int, faults: seq<Option<nat>>): nat
    requires |faults| == |issues|
  {
    if issues == [] then 0
    else
      var last := |issues| - 1;
      Failures(cfg, issues[..last], now, faults[..last])
      + if Commits(Acts(cfg, issues[last], now), faults[last]) then 0 else 1
  }

  /**
   * A failure on one issue takes nothing from the others: the calls are those made for each issue
   * up to its own failure, the rows committed are all of those of the issues that did not fail,
   * and the errors counted are the issues that did.
   */
  lemma {:induction false} IssuesAreIsolated(cfg: Config, issues: seq<Issue>, now: int, faults: seq<Option<nat>>)
    requires |faults| == |issues|
    ensures var scan := ScannedAll(IDLE, cfg, issues, now, faults);
      && scan.calls == AllCalls(cfg, issues, now, faults)
      && scan.committed == AllRows(cfg, issues, now, faults)
      && scan.pending == [] && !scan.raised
      && scan.counts.errors == Failures(cfg, issues, now, faults)
    decreases |issues|
  {
    if issues != [] {
      var last := |issues| - 1;
      IssuesAreIsolated(cfg, issues[..last], now, faults[..last]);
      ScannedOne(ScannedAll(IDLE, cfg, issues[..last], now, faults[..last]), Acts(cfg, issues[last], now), faults[last]);
      hide Acts, Scan.Scanned, CallsIn, RowsIn, Until, Commits;
    }
  }

  lemma ScannedOne(scan: Scan, acts: seq<Act>, fault: Option<nat>)
    requires !scan.raised && scan.pending == []
    ensures var done := scan.Scanned(acts, fault);
      && done.calls == scan.calls + CallsIn(Until(acts, fault))
      && done.committed == scan.committed + (if Commits(acts, fault) then RowsIn(acts) else [])
      && done.pending == [] && !done.raised
      && done.counts.errors == scan.counts.errors + if Commits(acts, fault) then 0 else 1
  {
    hide Scan.DoAll, Scan.Do, CallsIn, RowsIn;
    DoneUntil(scan.(fault := fault), acts);
    CountsNoErrors(scan.counts, Until(acts, fault));
  }

  lemma {:induction false} CountsNoErrors(counts: Counts, acts: seq<Act>)
    ensures counts.AfterAll(acts).errors == counts.errors
    decreases |acts|
  {
    if acts != [] { CountsNoErrors(counts.After(acts[0]), acts[1..]); }
  }

  // ---------------------------------------------------------------- what a scan does about an issue

  /** The issue has this label, in capital or small letters. */
  ghost predicate Bears(issue: Issue, name: string) {
    exists l :: l in issue.labels && Text.SameLetters(l, name)
  }

  /** Pull requests and issues with an exempt label are left alone. */
  ghost predicate LeftAlone(cfg: Config, issue: Issue) {
    issue.pull || exists name :: name in cfg.exempt && Bears(issue, name)
  }

  /** The last activity is more than this many days before this moment. */
  predicate IdleFor(issue: Issue, days: int, now: int) {
    now - issue.updatedAt > days * 86_400_000_000
  }

  lemma FoldedIff(labels: seq<string>, name: string)
    ensures Text.Lower(name) in Folded(labels) <==> exists l :: l in labels && Text.SameLetters(l, name)
  {
    if Text.Lower(name) in Folded(labels) {
      var l :| l in labels && Text.Lower(l) == Text.Lower(name);
      Text.FoldsCase(l, name);
    }
    if l :| l in labels && Text.SameLetters(l, name) { Text.FoldsCase(l, name); }
  }

  lemma StaleIff(cfg: Config, issue: Issue)
    ensures IsStale(cfg, issue) <==> Bears(issue, cfg.staleLabel)
  {
    FoldedIff(issue.labels, cfg.staleLabel);
  }

  lemma ExemptIff(cfg: Config, issue: Issue)
    ensures issue.pull || Exempt(cfg, issue) <==> LeftAlone(cfg, issue)
  {
    if Exempt(cfg, issue) {
      var folded :| folded in Folded(issue.labels) * Folded(cfg.exempt);
      var name :| name in cfg.exempt && Text.Lower(name) == folded;
      FoldedIff(issue.labels, name);
      assert Bears(issue, name);
    }
    if name :| name in cfg.exempt && Bears(issue, name) {
      FoldedIff(issue.labels, name);
      assert Text.Lower(name) in Folded(issue.labels) * Folded(cfg.exempt);
    }
  }

  lemma {:induction false} AuditsOnly(number: int, logins: seq<string>, counts: Counts)
    ensures CallsIn(Audits(number, logins)) == []
    ensures RowsIn(Audits(number, logins)) == seq(|logins|, i requires 0 <= i < |logins| => Audit(number, "issue.unassigned", logins[i]))
    ensures counts.AfterAll(Audits(number, logins)) == counts
    decreases |logins|
  {
    if logins != [] {
      var acts := Audits(number, logins);
      assert acts[1..] == Audits(number, logins[1..]);
      AuditsOnly(number, logins[1..], counts);
      assert [Audit(number, "issue.unassigned", logins[0])]
        + seq(|logins[1..]|, i requires 0 <= i < |logins[1..]| => Audit(number, "issue.unassigned", logins[1..][i]))
        == seq(|logins|, i requires 0 <= i < |logins| => Audit(number, "issue.unassigned", logins[i]));
    }
  }

  lemma {:induction false} InTurn(a: seq<Act>, b: seq<Act>, counts: Counts)
    ensures CallsIn(a + b) == CallsIn(a) + CallsIn(b)
    ensures RowsIn(a + b) == RowsIn(a) + RowsIn(b)
    ensures counts.AfterAll(a + b) == counts.AfterAll(a).AfterAll(b)
    decreases |a|
  {
    hide Counts.After, Act.Calls;
    if a == [] {
      assert a + b == b;
    } else {
      var rest := a[1..] + b;
      assert a + b == [a[0]] + rest && (a + b)[1..] == rest;
      InTurn(a[1..], b, counts.After(a[0]));
      var call, row := if a[0].Calls() then [a[0]] else [], if a[0].Record? then [a[0].row] else [];
      assert CallsIn(a + b) == call + (CallsIn(a[1..]) + CallsIn(b)) == (call + CallsIn(a[1..])) + CallsIn(b);
      assert RowsIn(a + b) == row + (RowsIn(a[1..]) + RowsIn(b)) == (row + RowsIn(a[1..])) + RowsIn(b);
    }
  }

  lemma OneAct(act: Act, counts: Counts)
    ensures CallsIn([act]) == (if act.Calls() then [act] else [])
    ensures RowsIn([act]) == (if act.Record? then [act.row] else [])
    ensures counts.AfterAll([act]) == counts.After(act)
  {
    assert [act][1..] == [];
  }

  lemma TwoActs(a: Act, b: Act, counts: Counts)
    ensures CallsIn([a, b]) == CallsIn([a]) + CallsIn([b]) && RowsIn([a, b]) == RowsIn([a]) + RowsIn([b])
    ensures counts.AfterAll([a, b]) == counts.After(a).After(b)
  {
    assert [a, b] == [a] + [b];
    InTurn([a], [b], counts);
    OneAct(a, counts);
    OneAct(b, counts.After(a));
  }

  lemma ThreeActs(a: Act, b: Act, c: Act, counts: Counts)
    ensures CallsIn([a, b, c]) == CallsIn([a]) + CallsIn([b]) + CallsIn([c])
    ensures RowsIn([a, b, c]) == RowsIn([a]) + RowsIn([b]) + RowsIn([c])
    ensures counts.AfterAll([a, b, c]) == counts.After(a).After(b).After(c)
  {
    hide CallsIn, RowsIn, Counts.AfterAll, Counts.After;
    assert [a, b, c] == [a, b] + [c];
    InTurn([a, b], [c], counts);
    TwoActs(a, b, counts);
    OneAct(c, counts.After(a).After(b));
  }

  /** The whole days since the last activity. */
  ghost predicate DaysSince(issue: Issue, now: int, days: int) {
    days * 86_400_000_000 <= now - issue.updatedAt < (days + 1) * 86_400_000_000
  }

  lemma UnassigningBegins(issue: Issue, days: int, counts: Counts)
    ensures var begun := [RemoveAssignees(issue.number, issue.assignees), Comment(issue.number),
                          Record(StaleLog(issue.number, "unassigned", days))];
      && CallsIn(begun) == [begun[0], begun[1]]
      && RowsIn(begun) == [StaleLog(issue.number, "unassigned", days)]
      && counts.AfterAll(begun) == counts
  {
    var a, b, c := RemoveAssignees(issue.number, issue.assignees), Comment(issue.number), Record(StaleLog(issue.number, "unassigned", days));
    ThreeActs(a, b, c, counts);
    OneAct(a, counts);
    OneAct(b, counts);
    OneAct(c, counts);
    hide CallsIn, RowsIn, Counts.AfterAll;
  }

  lemma UnassigningDoes(issue: Issue, now: int, counts: Counts) returns (days: int)
    ensures DaysSince(issue, now, days)
    ensures var acts := Unassigning(issue, now);
      && CallsIn(acts) == [RemoveAssignees(issue.number, issue.assignees), Comment(issue.number)]
      && RowsIn(acts) == [StaleLog(issue.number, "unassigned", days)]
         + seq(|issue.assignees|, i requires 0 <= i < |issue.assignees| => Audit(issue.number, "issue.unassigned", issue.assignees[i]))
      && counts.AfterAll(acts) == counts.(unassigned := counts.unassigned + |issue.assignees|)
  {
    hide CallsIn, RowsIn, Counts.AfterAll;
    days := Days(issue, now);
    var begun := [RemoveAssignees(issue.number, issue.assignees), Comment(issue.number), Record(StaleLog(issue.number, "unassigned", days))];
    var audits, count := Audits(issue.number, issue.assignees), CountUnassigned(|issue.assignees|);
    UnassigningBegins(issue, days, counts);
    InTurn(begun + audits, [count], counts);
    InTurn(begun, audits, counts);
    AuditsOnly(issue.number, issue.assignees, counts);
    OneAct(count, counts);
  }

  lemma FiveActs(a: Act, b: Act, c: Act, d: Act, e: Act, counts: Counts)
    ensures CallsIn([a, b, c, d, e]) == CallsIn([a]) + CallsIn([b]) + CallsIn([c]) + CallsIn([d]) + CallsIn([e])
    ensures RowsIn([a, b, c, d, e]) == RowsIn([a]) + RowsIn([b]) + RowsIn([c]) + RowsIn([d]) + RowsIn([e])
    ensures counts.AfterAll([a, b, c, d, e]) == counts.After(a).After(b).After(c).After(d).After(e)
  {
    hide CallsIn, RowsIn, Counts.AfterAll, Counts.After;
    assert [a, b, c, d, e] == [a, b, c] + [d, e];
    InTurn([a, b, c], [d, e], counts);
    ThreeActs(a, b, c, counts);
    TwoActs(d, e, counts.After(a).After(b).After(c));
  }

  lemma ClosingDoes(issue: Issue, now: int, counts: Counts) returns (days: int)
    ensures DaysSince(issue, now, days)
    ensures var acts := Closing(issue, now);
      && CallsIn(acts) == [Comment(issue.number), CloseIssue(issue.number)]
      && RowsIn(acts) == [StaleLog(issue.number, "closed", days), Audit(issue.number, "issue.closed", "")]
      && counts.AfterAll(acts) == counts.(closed := counts.closed + 1)
  {
    days := Days(issue, now);
    hide CallsIn, RowsIn, Counts.AfterAll;
    var a, b, c := Comment(issue.number), CloseIssue(issue.number), Record(StaleLog(issue.number, "closed", days));
    var d, e := Record(Audit(issue.number, "issue.closed", "")), CountClosed;
    FiveActs(a, b, c, d, e, counts);
    OneAct(a, counts);
    OneAct(b, counts);
    OneAct(c, counts);
    OneAct(d, counts);
    OneAct(e, counts);
  }

  lemma MarkingDoes(cfg: Config, issue: Issue, now: int, counts: Counts) returns (days: int)
    ensures DaysSince(issue, now, days)
    ensures var acts := Marking(cfg, issue, now);
      && CallsIn(acts) == [AddLabel(issue.number, cfg.staleLabel), Comment(issue.number)]
      && RowsIn(acts) == [StaleLog(issue.number, "marked_stale", days), Audit(issue.number, "issue.stale_marked", "")]
      && counts.AfterAll(acts) == counts.(marked := counts.marked + 1)
  {
    days := Days(issue, now);
    hide CallsIn, RowsIn, Counts.AfterAll;
    var a, b, c := AddLabel(issue.number, cfg.staleLabel), Comment(issue.number), Record(StaleLog(issue.number, "marked_stale", days));
    var d, e := Record(Audit(issue.number, "issue.stale_marked", "")), CountMarked;
    FiveActs(a, b, c, d, e, counts);
    OneAct(a, counts);
    OneAct(b, counts);
    OneAct(c, counts);
    OneAct(d, counts);
    OneAct(e, counts);
  }

  /**
   * The calls of a scan that succeeds. An issue idle for more than the unassigning period loses all
   * its assignees; a stale one idle for the closing period is closed, and one that is not stale and
   * is idle for more than the stale period is marked. Nothing is done about one that is left alone.
   */
  lemma ScanCalls(cfg: Config, issue: Issue, now: int)
    ensures var n := issue.number;
      var unassigns := issue.assignees != [] && IdleFor(issue, cfg.unassignDays, now);
      var closes := Bears(issue, cfg.staleLabel) && now - issue.updatedAt >= cfg.closeDays * 86_400_000_000;
      var marks := !Bears(issue, cfg.staleLabel) && IdleFor(issue, cfg.staleDays, now);
      var first := if unassigns then [RemoveAssignees(n, issue.assignees), Comment(n)] else [];
      var second := if closes then [Comment(n), CloseIssue(n)] else if marks then [AddLabel(n, cfg.staleLabel), Comment(n)] else [];
      CallsIn(Acts(cfg, issue, now)) == if LeftAlone(cfg, issue) then [] else first + second
  {
    ExemptIff(cfg, issue);
    StaleIff(cfg, issue);
    var first := if Unassigns(cfg, issue, now) then Unassigning(issue, now) else [];
    var counts := Counts(0, 0, 0, 0);
    InTurn(first, Second(cfg, issue, now), counts);
    var a := UnassigningDoes(issue, now, counts);
    var b := ClosingDoes(issue, now, counts);
    var c := MarkingDoes(cfg, issue, now, counts);
    hide Bears, LeftAlone, IsStale, Exempt, Unassigning, Closing, Marking;
  }

  /** What a scan that succeeds adds to the counts, besides no errors. */
  lemma ScanCounts(cfg: Config, issue: Issue, now: int, counts: Counts)
    ensures var acts := !LeftAlone(cfg, issue);
      var stale := Bears(issue, cfg.staleLabel);
      counts.AfterAll(Acts(cfg, issue, now)) == Counts(
        counts.marked + (if acts && !stale && IdleFor(issue, cfg.staleDays, now) then 1 else 0),
        counts.closed + (if acts && stale && now - issue.updatedAt >= cfg.closeDays * 86_400_000_000 then 1 else 0),
        counts.unassigned + (if acts && IdleFor(issue, cfg.unassignDays, now) then |issue.assignees| else 0),
        counts.errors)
  {
    ExemptIff(cfg, issue);
    StaleIff(cfg, issue);
    var first := if Unassigns(cfg, issue, now) then Unassigning(issue, now) else [];
    InTurn(first, Second(cfg, issue, now), counts);
    var a := UnassigningDoes(issue, now, counts);
    var middle := counts.AfterAll(first);
    var b := ClosingDoes(issue, now, middle);
    var c := MarkingDoes(cfg, issue, now, middle);
    hide Bears, LeftAlone, IsStale, Exempt, Unassigning, Closing, Marking;
  }
}
