/**
 * Choosing reviewers and mentors: the ones assigned least often so far, by login among equals,
 * with the counts recomputed from the audit log each time.
 */
module Selection {
  import opened OrderedDict
  import Text

  /** The names one audit row assigned. A row without metadata assigned nobody. */
  type Row = seq<string>

  function CountIn(names: Row, key: string): nat {
    if names == [] then 0 else (if Text.Lower(names[0]) == key then 1 else 0) + CountIn(names[1..], key)
  }

  /** How often the log assigned the person with the case-folded login `key`. */
  function Assigned(log: seq<Row>, key: string): nat {
    if log == [] then 0 else Assigned(log[..|log| - 1], key) + CountIn(log[|log| - 1], key)
  }

  function CountAt(counts: map<string, nat>, key: string): nat {
    if key in counts then counts[key] else 0
  }

  lemma {:induction false} CountInSnoc(names: Row, name: string, key: string)
    ensures CountIn(names + [name], key) == CountIn(names, key) + if Text.Lower(name) == key then 1 else 0
  {
    if names == [] {
      assert names + [name] == [name];
      assert CountIn([name][1..], key) == 0;
    } else {
      assert (names + [name])[1..] == names[1..] + [name];
      CountInSnoc(names[1..], name, key);
    }
  }

  /** `_get_assignment_counts`: one pass over the log's rows and the names in each. */
  method AssignmentCounts(log: seq<Option<Row>>) returns (counts: map<string, nat>)
    ensures forall key :: CountAt(counts, key) == Assigned(Names(log), key)
    ensures forall key :: key in counts ==> counts[key] > 0
  {
    counts := map[];
    var i := 0;
    while i < |log|
      invariant 0 <= i <= |log|
      invariant forall key :: CountAt(counts, key) == Assigned(Names(log)[..i], key)
      invariant forall key :: key in counts ==> counts[key] > 0
    {
      assert Names(log)[..i + 1][..i] == Names(log)[..i];
      if log[i].Some? {
        var names := log[i].value;
        ghost var before := counts;
        var j := 0;
        while j < |names|
          invariant 0 <= j <= |names|
          invariant forall key :: CountAt(counts, key) == CountAt(before, key) + CountIn(names[..j], key)
          invariant forall key :: key in counts ==> counts[key] > 0
        {
          var key := Text.Lower(names[j]);
          counts := counts[key := CountAt(counts, key) + 1];
          assert names[..j + 1] == names[..j] + [names[j]];
          forall k { CountInSnoc(names[..j], names[j], k); }
          j := j + 1;
        }
        assert names[..|names|] == names;
      }
      i := i + 1;
    }
    assert Names(log)[..|log|] == Names(log);
  }

  function Names(log: seq<Option<Row>>): (rows: seq<Row>)
    ensures |rows| == |log|
  {
    seq(|log|, i requires 0 <= i < |log| => if log[i].Some? then log[i].value else [])
  }

  /** `_mentor_assignment_counts`: rows without a mentor, or with an empty one, do not count. */
  method MentorCounts(log: seq<Option<string>>) returns (counts: map<string, nat>)
    ensures forall key :: CountAt(counts, key) == Assigned(MentorRows(log), key)
  {
    counts := map[];
    var i := 0;
    while i < |log|
      invariant 0 <= i <= |log|
      invariant forall key :: CountAt(counts, key) == Assigned(MentorRows(log)[..i], key)
    {
      assert MentorRows(log)[..i + 1][..i] == MentorRows(log)[..i];
      if log[i].Some? && log[i].value != "" {
        var key := Text.Lower(log[i].value);
        counts := counts[key := CountAt(counts, key) + 1];
        forall k ensures CountIn([log[i].value], k) == if k == key then 1 else 0 {
          assert CountIn([log[i].value][1..], k) == 0;
        }
      }
      i := i + 1;
    }
    assert MentorRows(log)[..|log|] == MentorRows(log);
  }

  function MentorRows(log: seq<Option<string>>): (rows: seq<Row>)
    ensures |rows| == |log|
  {
    seq(|log|, i requires 0 <= i < |log| => if log[i].Some? && log[i].value != "" then [log[i].value] else [])
  }

  // ---------------------------------------------------------------- the order

  /** Python's order on strings. */
  predicate StringLe(a: string, b: string) {
    a == [] || (b != [] && (a[0] < b[0] || (a[0] == b[0] && StringLe(a[1..], b[1..]))))
  }

  lemma {:induction false} StringLeTotal(a: string, b: string)
    ensures StringLe(a, b) || StringLe(b, a)
  {
    if a != [] && b != [] { StringLeTotal(a[1..], b[1..]); }
  }

  lemma {:induction false} StringLeTransitive(a: string, b: string, c: string)
    requires StringLe(a, b) && StringLe(b, c)
    ensures StringLe(a, c)
  {
    if a != [] && a[0] == b[0] == c[0] { StringLeTransitive(a[1..], b[1..], c[1..]); }
  }

  lemma {:induction false} StringLeAntisymmetric(a: string, b: string)
    requires StringLe(a, b) && StringLe(b, a)
    ensures a == b
  {
    if a != [] {
      StringLeAntisymmetric(a[1..], b[1..]);
      assert a == [a[0]] + a[1..] && b == [b[0]] + b[1..];
    }
  }

  /** The sort key: the count first, then the case-folded login. */
  predicate Before(counts: map<string, nat>, a: string, b: string) {
    var x, y := Text.Lower(a), Text.Lower(b);
    CountAt(counts, x) < CountAt(counts, y) || (CountAt(counts, x) == CountAt(counts, y) && StringLe(x, y))
  }

  lemma BeforeTotal(counts: map<string, nat>, a: string, b: string)
    ensures Before(counts, a, b) || Before(counts, b, a)
  {
    StringLeTotal(Text.Lower(a), Text.Lower(b));
  }

  lemma BeforeTransitive(counts: map<string, nat>, a: string, b: string, c: string)
    requires Before(counts, a, b) && Before(counts, b, c)
    ensures Before(counts, a, c)
  {
    var x, y, z := Text.Lower(a), Text.Lower(b), Text.Lower(c);
    if CountAt(counts, x) == CountAt(counts, y) == CountAt(counts, z) { StringLeTransitive(x, y, z); }
  }

  ghost predicate Ordered(counts: map<string, nat>, s: seq<string>) {
    forall i, j :: 0 <= i < j < |s| ==> Before(counts, s[i], s[j])
  }

  /** Python's `sorted`, which is stable. */
  function Insert(counts: map<string, nat>, x: string, s: seq<string>): seq<string> {
    if s == [] then [x]
    else if Before(counts, x, s[0]) then [x] + s
    else [s[0]] + Insert(counts, x, s[1..])
  }

  function Sorted(counts: map<string, nat>, s: seq<string>): seq<string> {
    if s == [] then [] else Insert(counts, s[0], Sorted(counts, s[1..]))
  }

  lemma {:induction false} InsertPermutes(counts: map<string, nat>, x: string, s: seq<string>)
    ensures multiset(Insert(counts, x, s)) == multiset(s) + multiset{x}
  {
    hide Before;
    if s != [] {
      InsertPermutes(counts, x, s[1..]);
      assert s == [s[0]] + s[1..];
    }
  }

  lemma {:induction false} InsertKeeps(counts: map<string, nat>, x: string, s: seq<string>)
    requires Ordered(counts, s)
    ensures Ordered(counts, Insert(counts, x, s))
  {
    hide Before;
    if s == [] {
    } else if Before(counts, x, s[0]) {
      forall j | 0 <= j < |s| ensures Before(counts, x, s[j]) {
        if j > 0 { BeforeTransitive(counts, x, s[0], s[j]); }
      }
      OrderedFrom(counts, x, s);
    } else {
      var rest := Insert(counts, x, s[1..]);
      BeforeTotal(counts, x, s[0]);
      InsertKeeps(counts, x, s[1..]);
      InsertPermutes(counts, x, s[1..]);
      forall y | y in rest ensures Before(counts, s[0], y) {
        assert y in multiset(rest);
        if y != x { assert y in s[1..]; }
      }
      OrderedFrom(counts, s[0], rest);
    }
  }

  lemma OrderedFrom(counts: map<string, nat>, x: string, rest: seq<string>)
    requires Ordered(counts, rest) && forall y :: y in rest ==> Before(counts, x, y)
    ensures Ordered(counts, [x] + rest)
  {
    hide Before;
  }

  lemma {:induction false} SortedIsSorted(counts: map<string, nat>, s: seq<string>)
    ensures Ordered(counts, Sorted(counts, s)) && multiset(Sorted(counts, s)) == multiset(s)
  {
    if s != [] {
      SortedIsSorted(counts, s[1..]);
      InsertKeeps(counts, s[0], Sorted(counts, s[1..]));
      InsertPermutes(counts, s[0], Sorted(counts, s[1..]));
      assert s == [s[0]] + s[1..];
    }
  }

  // ---------------------------------------------------------------- the selections

  /** `_select_reviewers` with the round-robin strategy. */
  function SelectReviewers(reviewers: seq<string>, wanted: nat, counts: map<string, nat>): (selected: seq<string>)
    ensures |selected| == if wanted < |reviewers| then wanted else |reviewers|
  {
    SortedLength(counts, reviewers);
    Sorted(counts, reviewers)[..if wanted < |reviewers| then wanted else |reviewers|]
  }

  lemma {:induction false} SortedLength(counts: map<string, nat>, s: seq<string>)
    ensures |Sorted(counts, s)| == |s|
  {
    SortedIsSorted(counts, s);
    assert |multiset(Sorted(counts, s))| == |multiset(s)|;
  }

  /** `_select_mentor`: the first login in the list whose key is smallest; members without a login are skipped. */
  function SelectMentor(members: seq<string>, counts: map<string, nat>): (mentor: Option<string>)
    ensures mentor.None? ==> forall m :: m in members ==> m == ""
    ensures mentor.Some? ==> mentor.value in members && mentor.value != ""
    ensures mentor.Some? ==> forall m :: m in members && m != "" ==> Before(counts, mentor.value, m)
  {
    if members == [] then None
    else
      assert members == [members[0]] + members[1..];
      var rest := SelectMentor(members[1..], counts);
      assert rest.Some? ==> rest.value in members;
      assert rest.None? ==> forall m :: m in members[1..] ==> m == "";
      if members[0] == "" then rest
      else if rest.None? then (BeforeTotal(counts, members[0], members[0]); Some(members[0]))
      else if Before(counts, members[0], rest.value) then
        (assert forall m :: m in members[1..] && m != "" ==> Before(counts, members[0], m) by {
           forall m | m in members[1..] && m != "" ensures Before(counts, members[0], m) {
             BeforeTransitive(counts, members[0], rest.value, m);
           }
         }
         BeforeTotal(counts, members[0], members[0]);
         Some(members[0]))
      else (BeforeTotal(counts, members[0], rest.value); rest)
  }

  // ---------------------------------------------------------------- balance

  function Folded(names: seq<string>): set<string> {
    set n | n in names :: Text.Lower(n)
  }

  /** The logins differ even when case is ignored. */
  predicate DistinctLogins(names: seq<string>) {
    forall i, j :: 0 <= i < j < |names| ==> Text.Lower(names[i]) != Text.Lower(names[j])
  }

  /** No two of the team were assigned a different number of times by more than one. */
  ghost predicate Balanced(log: seq<Row>, team: set<string>) {
    forall a, b :: a in team && b in team ==> Assigned(log, a) <= Assigned(log, b) + 1
  }

  /** The row assigns, once each, people no one else in the team was assigned less often than. */
  ghost predicate LeastAssigned(log: seq<Row>, team: set<string>, row: Row) {
    && DistinctLogins(row)
    && forall a, b :: a in Folded(row) && b in team && b !in Folded(row) ==> Assigned(log, a) <= Assigned(log, b)
  }

  lemma {:induction false} CountInDistinct(names: Row, key: string)
    requires DistinctLogins(names)
    ensures CountIn(names, key) == if key in Folded(names) then 1 else 0
  {
    if names != [] {
      var rest := names[1..];
      assert names == [names[0]] + rest;
      forall i, j | 0 <= i < j < |rest| ensures Text.Lower(rest[i]) != Text.Lower(rest[j]) {
        assert rest[i] == names[i + 1] && rest[j] == names[j + 1];
      }
      CountInDistinct(rest, key);
      forall j | 0 <= j < |rest| ensures Text.Lower(rest[j]) != Text.Lower(names[0]) {
        assert rest[j] == names[j + 1];
      }
      assert Text.Lower(names[0]) !in Folded(rest);
      assert Folded(names) == {Text.Lower(names[0])} + Folded(rest);
    }
  }

  lemma BalancedStep(log: seq<Row>, team: set<string>, row: Row)
    requires Balanced(log, team) && LeastAssigned(log, team, row)
    ensures Balanced(log + [row], team)
  {
    assert (log + [row])[..|log|] == log;
    forall a, b | a in team && b in team ensures Assigned(log + [row], a) <= Assigned(log + [row], b) + 1 {
      CountInDistinct(row, a);
      CountInDistinct(row, b);
    }
  }

  lemma {:induction false} SelectedAreLeast(reviewers: seq<string>, wanted: nat, counts: map<string, nat>, log: seq<Row>)
    requires DistinctLogins(reviewers)
    requires CountsLog(counts, log)
    ensures LeastAssigned(log, Folded(reviewers), SelectReviewers(reviewers, wanted, counts))
  {
    var sorted, row := Sorted(counts, reviewers), SelectReviewers(reviewers, wanted, counts);
    SortedIsSorted(counts, reviewers);
    SortedDistinct(reviewers, sorted);
    forall a, b | a in Folded(row) && b in Folded(reviewers) && b !in Folded(row) ensures Assigned(log, a) <= Assigned(log, b) {
      var x :| x in row && Text.Lower(x) == a;
      var y :| y in reviewers && Text.Lower(y) == b;
      var i :| 0 <= i < |row| && row[i] == x;
      assert y in multiset(sorted);
      var j :| 0 <= j < |sorted| && sorted[j] == y;
      assert j >= |row|;
      assert Before(counts, sorted[i], sorted[j]);
    }
  }

  /** Reordering a list keeps its logins distinct. */
  lemma SortedDistinct(names: seq<string>, names': seq<string>)
    requires DistinctLogins(names) && multiset(names) == multiset(names')
    ensures DistinctLogins(names')
  {
    forall i, j | 0 <= i < j < |names'| ensures Text.Lower(names'[i]) != Text.Lower(names'[j]) {
      assert names'[i] in multiset(names) && names'[j] in multiset(names);
      var a :| 0 <= a < |names| && names[a] == names'[i];
      var b :| 0 <= b < |names| && names[b] == names'[j];
      if a == b { TwiceCounted(names', i, j); OnceCounted(names, a); }
    }
  }

  lemma TwiceCounted(s: seq<string>, i: nat, j: nat)
    requires i < j < |s| && s[i] == s[j]
    ensures multiset(s)[s[i]] >= 2
  {
    assert s == s[..i + 1] + s[i + 1..];
    assert s[i] in s[..i + 1] by { assert s[..i + 1][i] == s[i]; }
    assert s[j] in s[i + 1..] by { assert s[i + 1..][j - i - 1] == s[j]; }
  }

  lemma OnceCounted(s: seq<string>, a: nat)
    requires DistinctLogins(s) && a < |s|
    ensures multiset(s)[s[a]] == 1
  {
    var front, back := s[..a], s[a + 1..];
    assert s == front + [s[a]] + back;
    assert s[a] !in front && s[a] !in back;
  }

  /** One round of reviewer assignment: any number of reviewers out of the team, listed in any order. */
  ghost predicate AssignsReviewers(log: seq<Row>, log': seq<Row>, team: set<string>) {
    exists reviewers, wanted: nat, counts ::
      && DistinctLogins(reviewers) && Folded(reviewers) == team
      && CountsLog(counts, log)
      && log' == log + [SelectReviewers(reviewers, wanted, counts)]
  }

  /** What `AssignmentCounts` computes. */
  ghost predicate CountsLog(counts: map<string, nat>, log: seq<Row>) {
    forall key :: CountAt(counts, key) == Assigned(log, key)
  }

  /** Reviewers stay balanced over any number of pull requests assigned one after the other. */
  lemma {:induction false} ReviewersStayBalanced(logs: seq<seq<Row>>, team: set<string>, n: nat)
    requires n < |logs| && Balanced(logs[0], team)
    requires forall i :: 0 <= i < |logs| - 1 ==> AssignsReviewers(logs[i], logs[i + 1], team)
    ensures Balanced(logs[n], team)
  {
    if n > 0 {
      hide Balanced, SelectReviewers;
      ReviewersStayBalanced(logs, team, n - 1);
      var log := logs[n - 1];
      assert AssignsReviewers(logs[n - 1], logs[n - 1 + 1], team);
      var reviewers, wanted: nat, counts :|
        && DistinctLogins(reviewers) && Folded(reviewers) == team
        && CountsLog(counts, log)
        && logs[n] == log + [SelectReviewers(reviewers, wanted, counts)];
      SelectedAreLeast(reviewers, wanted, counts, log);
      BalancedStep(log, team, SelectReviewers(reviewers, wanted, counts));
    }
  }

  /** A chosen mentor is one that nobody in the team was assigned less often than. */
  lemma MentorIsLeast(members: seq<string>, counts: map<string, nat>, log: seq<Row>)
    requires SelectMentor(members, counts).Some?
    requires CountsLog(counts, log)
    ensures LeastAssigned(log, Folded(members) - {""}, [SelectMentor(members, counts).value])
  {
    var mentor := SelectMentor(members, counts).value;
    forall b | b in Folded(members) && b != "" ensures Assigned(log, Text.Lower(mentor)) <= Assigned(log, b) {
      var m :| m in members && Text.Lower(m) == b;
      assert Before(counts, mentor, m);
    }
  }

  // ---------------------------------------------------------------- ties, and what the counts count

  /** The first place where the two differ, and `a` is smaller there. */
  ghost predicate SmallerAt(a: string, b: string, i: int) {
    0 <= i < |a| && i < |b| && (forall j :: 0 <= j < i ==> a[j] == b[j]) && a[i] < b[i]
  }

  /** The first of the two logins in the alphabet, or the same: a beginning of the other, or smaller where they first differ. */
  ghost predicate NotAfter(a: string, b: string) {
    a <= b || exists i :: SmallerAt(a, b, i)
  }

  lemma SmallerInRest(a: string, b: string)
    requires a != [] && b != [] && a[0] == b[0]
    ensures NotAfter(a, b) <==> NotAfter(a[1..], b[1..])
  {
    assert a == [a[0]] + a[1..] && b == [b[0]] + b[1..];
    if i :| SmallerAt(a, b, i) {
      assert i > 0;
      assert forall j :: 0 <= j < i - 1 ==> a[1..][j] == a[j + 1] && b[1..][j] == b[j + 1];
      assert SmallerAt(a[1..], b[1..], i - 1);
    } else if i :| SmallerAt(a[1..], b[1..], i) {
      forall j | 0 <= j < i + 1 ensures a[j] == b[j] {
        if j > 0 { assert a[1..][j - 1] == b[1..][j - 1]; }
      }
      assert SmallerAt(a, b, i + 1);
    }
  }

  lemma {:induction false} StringLeIff(a: string, b: string)
    ensures StringLe(a, b) <==> NotAfter(a, b)
  {
    if a == [] {
      assert a <= b;
    } else if b == [] {
      assert !(a <= b);
    } else if a[0] == b[0] {
      SmallerInRest(a, b);
      StringLeIff(a[1..], b[1..]);
      hide NotAfter;
    } else {
      if a[0] < b[0] { assert SmallerAt(a, b, 0); }
    }
  }

  /** Fewer assignments, or as many and an earlier login, case aside. */
  ghost predicate Preferred(counts: map<string, nat>, a: string, b: string) {
    var x, y := CountAt(counts, Text.Lower(a)), CountAt(counts, Text.Lower(b));
    x < y || (x == y && NotAfter(Text.Lower(a), Text.Lower(b)))
  }

  lemma BeforeIff(counts: map<string, nat>, a: string, b: string)
    ensures Before(counts, a, b) <==> Preferred(counts, a, b)
  {
    StringLeIff(Text.Lower(a), Text.Lower(b));
  }

  /** A mentor is chosen if and only if some member has a login, and is preferred to every other member. */
  lemma MentorIsPreferred(members: seq<string>, counts: map<string, nat>)
    ensures match SelectMentor(members, counts)
      case None => forall m :: m in members ==> m == ""
      case Some(mentor) => mentor in members && mentor != "" && forall m :: m in members && m != "" ==> Preferred(counts, mentor, m)
  {
    if SelectMentor(members, counts).Some? {
      var mentor := SelectMentor(members, counts).value;
      forall m | m in members && m != "" ensures Preferred(counts, mentor, m) {
        BeforeIff(counts, mentor, m);
      }
    }
    hide Preferred;
  }

  /** The reviewers selected are some of those listed, in order of preference, and each is preferred to everyone left out. */
  lemma ReviewersArePreferred(reviewers: seq<string>, wanted: nat, counts: map<string, nat>) returns (rest: seq<string>)
    ensures var selected := SelectReviewers(reviewers, wanted, counts);
      && multiset(selected) + multiset(rest) == multiset(reviewers)
      && (forall i, j :: 0 <= i < j < |selected| ==> Preferred(counts, selected[i], selected[j]))
      && (forall i, j :: 0 <= i < |selected| && 0 <= j < |rest| ==> Preferred(counts, selected[i], rest[j]))
  {
    hide Preferred;
    var sorted, selected := Sorted(counts, reviewers), SelectReviewers(reviewers, wanted, counts);
    SortedIsSorted(counts, reviewers);
    rest := sorted[|selected|..];
    assert sorted == selected + rest;
    forall i, j | 0 <= i < j < |sorted| ensures Preferred(counts, sorted[i], sorted[j]) {
      BeforeIff(counts, sorted[i], sorted[j]);
    }
    forall i, j | 0 <= i < |selected| && 0 <= j < |rest| ensures Preferred(counts, selected[i], rest[j]) {
      assert selected[i] == sorted[i] && rest[j] == sorted[|selected| + j];
    }
    assert multiset(selected) + multiset(rest) == multiset(reviewers);
  }

  /** The places of a row that name a login, in capital or small letters. */
  function Places(names: Row, login: string): set<int> {
    set i | 0 <= i < |names| && Text.SameLetters(names[i], login)
  }

  /** A row counts for a login as often as it names it. */
  lemma {:induction false} CountInCounts(names: Row, login: string)
    ensures CountIn(names, Text.Lower(login)) == |Places(names, login)|
  {
    if names == [] {
      assert Places(names, login) == {};
    } else {
      var n := |names| - 1;
      var front := names[..n];
      assert names == front + [names[n]];
      CountInSnoc(front, names[n], Text.Lower(login));
      CountInCounts(front, login);
      Text.FoldsCase(names[n], login);
      hide CountIn, Text.SameLetters, Text.Lower;
      assert Places(front, login) == Places(names, login) - {n};
    }
  }

  /** Where the log names a login, in capital or small letters: the row, and the place in it. */
  function Mentions(log: seq<Option<Row>>, login: string): set<(int, int)> {
    set i, j | 0 <= i < |log| && log[i].Some? && 0 <= j < |log[i].value| && Text.SameLetters(log[i].value[j], login) :: (i, j)
  }

  lemma MentionsOfLast(log: seq<Option<Row>>, login: string)
    requires log != []
    ensures var n := |log| - 1;
      var last := if log[n].Some? then log[n].value else [];
      Mentions(log, login) - Mentions(log[..n], login) == set j | j in Places(last, login) :: (n, j)
    ensures Mentions(log[..|log| - 1], login) <= Mentions(log, login)
  {
    hide Text.SameLetters;
    var n := |log| - 1;
    forall i, j | (i, j) in Mentions(log[..n], login) ensures i < n && (i, j) in Mentions(log, login) {
      assert log[..n][i] == log[i];
    }
    forall i, j | (i, j) in Mentions(log, login) && i < n ensures (i, j) in Mentions(log[..n], login) {
      assert log[..n][i] == log[i];
    }
  }

  lemma NamesOfLast(log: seq<Option<Row>>)
    requires log != []
    ensures var n := |log| - 1;
      Names(log) == Names(log[..n]) + [if log[n].Some? then log[n].value else []]
  {
  }

  lemma AssignedAfter(log: seq<Row>, row: Row, key: string)
    ensures Assigned(log + [row], key) == Assigned(log, key) + CountIn(row, key)
  {
    assert (log + [row])[..|log|] == log;
  }

  /** Reviewers are counted once for each place in the log that names them. */
  lemma {:induction false} ReviewersAreCounted(log: seq<Option<Row>>, login: string)
    ensures Assigned(Names(log), Text.Lower(login)) == |Mentions(log, login)|
  {
    if log == [] {
      assert Mentions(log, login) == {};
    } else {
      hide CountIn, Text.Lower, Mentions, Places, Names, Assigned;
      var n := |log| - 1;
      var last := if log[n].Some? then log[n].value else [];
      ReviewersAreCounted(log[..n], login);
      CountInCounts(last, login);
      var added := Mentions(log, login) - Mentions(log[..n], login);
      MentionsOfLast(log, login);
      OneEach(Places(last, login), added, n);
      NamesOfLast(log);
      AssignedAfter(Names(log[..n]), last, Text.Lower(login));
      assert |Mentions(log, login)| == |Mentions(log[..n], login)| + |added|;
    }
  }

  lemma {:induction false} OneEach<T>(at: set<T>, pairs: set<(int, T)>, n: int)
    requires pairs == set j | j in at :: (n, j)
    ensures |pairs| == |at|
  {
    if at != {} {
      var j :| j in at;
      OneEach(at - {j}, pairs - {(n, j)}, n);
    } else {
      assert pairs == {};
    }
  }

  /** The rows that name a mentor, in capital or small letters. */
  function RowsNaming(log: seq<Option<string>>, login: string): set<int> {
    set i | 0 <= i < |log| && log[i].Some? && log[i].value != "" && Text.SameLetters(log[i].value, login)
  }

  /** Mentors are counted once for each row that names them; rows without a name count for nobody. */
  lemma {:induction false} MentorsAreCounted(log: seq<Option<string>>, login: string)
    ensures Assigned(MentorRows(log), Text.Lower(login)) == |RowsNaming(log, login)|
  {
    hide CountIn, Text.SameLetters, Text.Lower;
    if log == [] {
      assert RowsNaming(log, login) == {};
    } else {
      var n := |log| - 1;
      MentorsAreCounted(log[..n], login);
      assert RowsNaming(log[..n], login) == RowsNaming(log, login) - {n};
      assert MentorRows(log)[..n] == MentorRows(log[..n]);
      if log[n].Some? && log[n].value != "" {
        CountsOne(log[n].value, login);
      } else {
        CountsNone(Text.Lower(login));
      }
    }
  }

  lemma CountsOne(name: string, login: string)
    ensures CountIn([name], Text.Lower(login)) == if Text.SameLetters(name, login) then 1 else 0
  {
    Text.FoldsCase(name, login);
    CountsNone(Text.Lower(login));
    assert [name][1..] == [];
    hide Text.SameLetters, Text.Lower;
  }

  lemma CountsNone(key: string)
    ensures CountIn([], key) == 0
  {
  }
}
