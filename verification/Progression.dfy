/**
 * Measuring a contributor with a bounded number of GitHub requests, and the role the measured
 * stats make them eligible for. What GitHub answers is a parameter; the claims are about how the
 * measured counts relate to the true ones.
 */
module Progression {
  import opened OrderedDict
  import Sets

  const MAX_REVIEWED_PRS_INSPECTED := 50
  const MAX_REST_PRS := 10 * 100
  const REVIEW_CAP := 2 * 100
  const DAYS_PER_MONTH := 30

  // ---------------------------------------------------------------- reviews on single pull requests

  /** How many of these reviews `login` submitted. */
  function By(login: string, authors: seq<string>): nat {
    if authors == [] then 0 else By(login, authors[..|authors| - 1]) + if authors[|authors| - 1] == login then 1 else 0
  }

  /** It is how often the login occurs among the authors. */
  lemma {:induction false} ByCounts(login: string, authors: seq<string>)
    ensures By(login, authors) == multiset(authors)[login]
  {
    if authors != [] {
      var rest, last := authors[..|authors| - 1], authors[|authors| - 1];
      ByCounts(login, rest);
      assert authors == rest + [last];
    }
  }

  lemma {:induction false} ByPrefix(login: string, authors: seq<string>, n: nat)
    requires n <= |authors|
    ensures By(login, authors[..n]) <= By(login, authors)
    decreases |authors|
  {
    if n < |authors| {
      assert authors[..|authors| - 1][..n] == authors[..n];
      ByPrefix(login, authors[..|authors| - 1], n);
    } else {
      assert authors[..n] == authors;
    }
  }

  /** One count per pull request, `None` where the reviews could not be read. */
  function ReviewCount(fetch: nat -> Option<seq<string>>, login: string, pr: nat): Option<nat> {
    match fetch(pr)
    case None => None
    case Some(authors) => Some(By(login, authors))
  }

  predicate Incomplete(fetch: nat -> Option<seq<string>>, pr: nat) {
    fetch(pr).None? || |fetch(pr).value| >= REVIEW_CAP
  }

  predicate SomeIncomplete(fetch: nat -> Option<seq<string>>, prs: seq<nat>) {
    exists i :: 0 <= i < |prs| && Incomplete(fetch, prs[i])
  }

  /** `_fetch_review_counts`: the flag is set by any failed read and by any list that reaches the cap. */
  method FetchReviewCounts(fetch: nat -> Option<seq<string>>, prs: seq<nat>, login: string)
    returns (counts: seq<Option<nat>>, incomplete: bool)
    ensures |counts| == |prs| && forall i :: 0 <= i < |prs| ==> counts[i] == ReviewCount(fetch, login, prs[i])
    ensures incomplete <==> SomeIncomplete(fetch, prs)
  {
    counts, incomplete := [], false;
    for i := 0 to |prs|
      invariant |counts| == i && forall j :: 0 <= j < i ==> counts[j] == ReviewCount(fetch, login, prs[j])
      invariant incomplete <==> exists j :: 0 <= j < i && Incomplete(fetch, prs[j])
    {
      var reviews := fetch(prs[i]);
      if reviews.None? {
        incomplete := true;
        counts := counts + [None];
      } else {
        if |reviews.value| >= REVIEW_CAP { incomplete := true; }
        var count := CountBy(login, reviews.value);
        counts := counts + [Some(count)];
      }
      assert Incomplete(fetch, prs[i]) <==> reviews.None? || |reviews.value| >= REVIEW_CAP;
    }
  }

  method CountBy(login: string, authors: seq<string>) returns (n: nat)
    ensures n == By(login, authors)
  {
    n := 0;
    for i := 0 to |authors|
      invariant n == By(login, authors[..i])
    {
      assert authors[..i + 1][..i] == authors[..i];
      if authors[i] == login { n := n + 1; }
    }
    assert authors[..|authors|] == authors;
  }

  function SumOr(counts: seq<Option<nat>>, default: nat): nat {
    if counts == [] then 0
    else SumOr(counts[..|counts| - 1], default)
         + match counts[|counts| - 1] case None => default case Some(n) => n
  }

  method Total(counts: seq<Option<nat>>, default: nat) returns (sum: nat)
    ensures sum == SumOr(counts, default)
  {
    sum := 0;
    for i := 0 to |counts|
      invariant sum == SumOr(counts[..i], default)
    {
      assert counts[..i + 1][..i] == counts[..i];
      match counts[i] {
        case None => sum := sum + default;
        case Some(n) => sum := sum + n;
      }
    }
    assert counts[..|counts|] == counts;
  }

  /** The numbers among listed items; an item may come without one. */
  function Numbers(items: seq<Option<nat>>): (prs: seq<nat>)
    ensures |prs| <= |items|
    ensures forall n :: n in prs ==> Some(n) in items
  {
    if items == [] then []
    else Numbers(items[..|items| - 1]) + match items[|items| - 1] case None => [] case Some(n) => [n]
  }

  /** Every number is listed as often as an item bears it. */
  lemma {:induction false} NumbersCount(items: seq<Option<nat>>, n: nat)
    ensures multiset(Numbers(items))[n] == multiset(items)[Some(n)]
  {
    if items != [] {
      var rest, last := items[..|items| - 1], items[|items| - 1];
      NumbersCount(rest, n);
      assert items == rest + [last];
      assert multiset(items) == multiset(rest) + multiset{last};
      var numbers := Numbers(rest);
      assert Numbers(items) == numbers + (match last case None => [] case Some(m) => [m]);
      hide Numbers;
      assert multiset(numbers + (match last case None => [] case Some(m) => [m]))
        == multiset(numbers) + (match last case None => multiset{} case Some(m) => multiset{m});
    }
  }

  method ListedNumbers(items: seq<Option<nat>>) returns (prs: seq<nat>)
    ensures prs == Numbers(items)
  {
    prs := [];
    for i := 0 to |items|
      invariant prs == Numbers(items[..i])
    {
      assert items[..i + 1][..i] == items[..i];
      if items[i].Some? { prs := prs + [items[i].value]; }
    }
    assert items[..|items|] == items;
  }

  // ---------------------------------------------------------------- sums over pull requests

  /** The sum of a map's values. */
  ghost function Sum(m: map<nat, nat>): nat
    decreases |m|
  {
    if m == map[] then 0
    else
      var k :| k in m;
      assert (m - {k}).Keys == m.Keys - {k};
      m[k] + Sum(m - {k})
  }

  lemma {:induction false} SumPick(m: map<nat, nat>, k: nat)
    requires k in m
    ensures Sum(m) == m[k] + Sum(m - {k})
    decreases |m|
  {
    var j :| j in m && Sum(m) == m[j] + Sum(m - {j});
    if j != k {
      assert (m - {j}).Keys == m.Keys - {j};
      SumPick(m - {j}, k);
      assert (m - {k}).Keys == m.Keys - {k};
      SumPick(m - {k}, j);
      assert m - {j} - {k} == m - {k} - {j};
    }
  }

  function SumAt(m: map<nat, nat>, prs: seq<nat>): nat
    requires forall pr :: pr in prs ==> pr in m
  {
    if prs == [] then 0 else SumAt(m, prs[..|prs| - 1]) + m[prs[|prs| - 1]]
  }

  /** Distinct pull requests, and one for each of the others when each counts at least one, stay below the sum. */
  lemma {:induction false} SumAtBelow(m: map<nat, nat>, prs: seq<nat>)
    requires Distinct(prs) && forall pr :: pr in prs ==> pr in m
    ensures SumAt(m, prs) <= Sum(m) && |prs| <= |m|
    ensures (forall pr :: pr in m ==> m[pr] >= 1) ==> SumAt(m, prs) + (|m| - |prs|) <= Sum(m)
    ensures |prs| == |m| ==> SumAt(m, prs) == Sum(m)
    decreases |prs|
  {
    if prs == [] {
      if m == map[] { assert |m.Keys| == 0; }
      AtLeastOneEach(m);
    } else {
      var n := |prs| - 1;
      var front, last := prs[..n], prs[n];
      SumPick(m, last);
      assert (m - {last}).Keys == m.Keys - {last};
      assert |m - {last}| == |m| - 1;
      SumAtBelow(m - {last}, front);
      SumAtElsewhere(m, front, last);
    }
  }

  lemma {:induction false} AtLeastOneEach(m: map<nat, nat>)
    ensures (forall pr :: pr in m ==> m[pr] >= 1) ==> |m| <= Sum(m)
    decreases |m|
  {
    if m != map[] {
      var k :| k in m;
      SumPick(m, k);
      assert (m - {k}).Keys == m.Keys - {k};
      AtLeastOneEach(m - {k});
    }
  }

  lemma {:induction false} SumAtElsewhere(m: map<nat, nat>, prs: seq<nat>, pr: nat)
    requires pr !in prs && forall p :: p in prs ==> p in m
    ensures SumAt(m - {pr}, prs) == SumAt(m, prs)
  {
    if prs != [] { SumAtElsewhere(m, prs[..|prs| - 1], pr); }
  }

  // ---------------------------------------------------------------- reviews through search

  /** `_count_reviews_via_search`, given the search result and what reading each pull request gives. */
  method CountReviewsViaSearch(items: seq<Option<nat>>, totalCount: nat, fetch: nat -> Option<seq<string>>, login: string)
    returns (given: nat, partial: bool)
    ensures (given, partial) == SearchReviews(items, totalCount, fetch, login)
  {
    hide SumOr, SomeIncomplete, Numbers;
    var inspected := if |items| > MAX_REVIEWED_PRS_INSPECTED then items[..MAX_REVIEWED_PRS_INSPECTED] else items;
    var total := if totalCount > |inspected| then totalCount else |inspected|;
    var prs := ListedNumbers(inspected);
    var counts, incomplete := FetchReviewCounts(fetch, prs, login);
    assert counts == CountsOf(fetch, login, prs);
    var sum := Total(counts, 1);
    var uninspected := total - |prs|;
    given, partial := sum + uninspected, incomplete || uninspected > 0;
  }

  function CountsOf(fetch: nat -> Option<seq<string>>, login: string, prs: seq<nat>): seq<Option<nat>> {
    seq(|prs|, i requires 0 <= i < |prs| => ReviewCount(fetch, login, prs[i]))
  }

  function Inspected(items: seq<Option<nat>>): seq<Option<nat>> {
    if |items| > MAX_REVIEWED_PRS_INSPECTED then items[..MAX_REVIEWED_PRS_INSPECTED] else items
  }

  function SearchReviews(items: seq<Option<nat>>, totalCount: nat, fetch: nat -> Option<seq<string>>, login: string): (nat, bool) {
    var prs := Numbers(Inspected(items));
    var total := if totalCount > |Inspected(items)| then totalCount else |Inspected(items)|;
    (SumOr(CountsOf(fetch, login, prs), 1) + (total - |prs|),
     SomeIncomplete(fetch, prs) || total > |prs|)
  }

  /** Reading a pull request's reviews gives a true beginning of them, all of them when below the cap. */
  ghost predicate TruePrefixes(fetch: nat -> Option<seq<string>>, reviews: map<nat, seq<string>>) {
    forall pr :: pr in reviews && fetch(pr).Some? ==>
      && fetch(pr).value <= reviews[pr]
      && (|fetch(pr).value| < REVIEW_CAP ==> fetch(pr).value == reviews[pr])
  }

  /** How many reviews the contributor submitted on each pull request they reviewed. */
  function Given(reviews: map<nat, seq<string>>, login: string): map<nat, nat> {
    map pr | pr in reviews && By(login, reviews[pr]) > 0 :: By(login, reviews[pr])
  }

  lemma ReadBelow(fetch: nat -> Option<seq<string>>, reviews: map<nat, seq<string>>, login: string, pr: nat)
    requires TruePrefixes(fetch, reviews) && pr in reviews
    ensures match ReviewCount(fetch, login, pr)
      case None => Incomplete(fetch, pr)
      case Some(n) => n <= By(login, reviews[pr]) && (!Incomplete(fetch, pr) ==> n == By(login, reviews[pr]))
  {
    if fetch(pr).Some? {
      var read := fetch(pr).value;
      ByPrefix(login, reviews[pr], |read|);
      assert reviews[pr][..|read|] == read;
    }
  }

  lemma SomeIncompleteSplit(fetch: nat -> Option<seq<string>>, prs: seq<nat>)
    requires prs != []
    ensures var n := |prs| - 1;
      SomeIncomplete(fetch, prs) <==> SomeIncomplete(fetch, prs[..n]) || Incomplete(fetch, prs[n])
  {
    hide Incomplete;
    var n := |prs| - 1;
    if SomeIncomplete(fetch, prs[..n]) {
      var i :| 0 <= i < n && Incomplete(fetch, prs[..n][i]);
      assert Incomplete(fetch, prs[i]);
    }
    if SomeIncomplete(fetch, prs) {
      var i :| 0 <= i < |prs| && Incomplete(fetch, prs[i]);
      if i < n { assert prs[..n][i] == prs[i]; }
    }
  }

  lemma {:induction false} CountsBelow(fetch: nat -> Option<seq<string>>, reviews: map<nat, seq<string>>, login: string,
                                       given: map<nat, nat>, prs: seq<nat>, default: nat)
    requires TruePrefixes(fetch, reviews)
    requires forall pr :: pr in prs ==> pr in reviews && pr in given && default <= given[pr] == By(login, reviews[pr])
    ensures SumOr(CountsOf(fetch, login, prs), default) <= SumAt(given, prs)
    ensures !SomeIncomplete(fetch, prs) ==> SumOr(CountsOf(fetch, login, prs), default) == SumAt(given, prs)
  {
    hide TruePrefixes, Incomplete, SomeIncomplete, By, ReviewCount;
    if prs != [] {
      var n := |prs| - 1;
      CountsBelow(fetch, reviews, login, given, prs[..n], default);
      assert CountsOf(fetch, login, prs)[..n] == CountsOf(fetch, login, prs[..n]);
      assert prs[n] in prs;
      ReadBelow(fetch, reviews, login, prs[n]);
      SomeIncompleteSplit(fetch, prs);
    }
  }

  /** Every hit is a different pull request with at least one review by the contributor. */
  ghost predicate TrueHits(items: seq<Option<nat>>, totalCount: nat, given: map<nat, nat>) {
    && Distinct(Numbers(Inspected(items)))
    && (forall pr :: pr in Numbers(Inspected(items)) ==> pr in given)
    && |Inspected(items)| <= |given|
    && totalCount <= |given|
  }

  /**
   * The count through search never exceeds the true one. When it is not flagged as partial, it is
   * exact if and only if search listed every pull request the contributor reviewed.
   */
  lemma SearchReviewsAreLowerBound(items: seq<Option<nat>>, totalCount: nat, fetch: nat -> Option<seq<string>>,
                                   login: string, reviews: map<nat, seq<string>>)
    requires TruePrefixes(fetch, reviews) && TrueHits(items, totalCount, Given(reviews, login))
    ensures var (given, partial) := SearchReviews(items, totalCount, fetch, login);
      && given <= Sum(Given(reviews, login))
      && (!partial ==>
          (given == Sum(Given(reviews, login)) <==> |Numbers(Inspected(items))| == |Given(reviews, login)|))
  {
    var prs := Numbers(Inspected(items));
    CountsBelow(fetch, reviews, login, Given(reviews, login), prs, 1);
    SumAtBelow(Given(reviews, login), prs);
  }

  /** The reviews of this pull request could not be read, or reach the cap of two pages. */
  ghost predicate Unsure(fetch: nat -> Option<seq<string>>, pr: nat) {
    fetch(pr).None? || |fetch(pr).value| >= 200
  }

  /**
   * The count is flagged as partial if and only if the reviews of one of the first fifty candidates
   * are not sure, or there are candidates beyond those inspected. Every candidate counts for at
   * least one review, if those that were read show one.
   */
  lemma SearchIsPartialIff(items: seq<Option<nat>>, totalCount: nat, fetch: nat -> Option<seq<string>>, login: string)
    ensures var first := if |items| > 50 then items[..50] else items;
      var total := if totalCount > |first| then totalCount else |first|;
      var (given, partial) := SearchReviews(items, totalCount, fetch, login);
      && (partial <==> (exists pr :: pr in Numbers(first) && Unsure(fetch, pr)) || total > |Numbers(first)|)
      && ((forall pr :: pr in Numbers(first) && fetch(pr).Some? ==> login in fetch(pr).value) ==> given >= total)
  {
    hide SumOr, By, Numbers;
    var first := if |items| > 50 then items[..50] else items;
    var prs := Numbers(first);
    UnsureSome(fetch, prs);
    if forall pr :: pr in prs && fetch(pr).Some? ==> login in fetch(pr).value { CountsForEach(fetch, login, prs); }
  }

  lemma UnsureSome(fetch: nat -> Option<seq<string>>, prs: seq<nat>)
    ensures SomeIncomplete(fetch, prs) <==> exists pr :: pr in prs && Unsure(fetch, pr)
  {
    if pr :| pr in prs && Unsure(fetch, pr) {
      var i :| 0 <= i < |prs| && prs[i] == pr;
      assert Incomplete(fetch, prs[i]);
    }
    if SomeIncomplete(fetch, prs) {
      var i :| 0 <= i < |prs| && Incomplete(fetch, prs[i]);
      assert prs[i] in prs && Unsure(fetch, prs[i]);
    }
  }

  lemma {:induction false} CountsForEach(fetch: nat -> Option<seq<string>>, login: string, prs: seq<nat>)
    requires forall pr :: pr in prs && fetch(pr).Some? ==> login in fetch(pr).value
    ensures SumOr(CountsOf(fetch, login, prs), 1) >= |prs|
  {
    if prs != [] {
      var n := |prs| - 1;
      assert forall pr :: pr in prs[..n] ==> pr in prs;
      CountsForEach(fetch, login, prs[..n]);
      assert CountsOf(fetch, login, prs)[..n] == CountsOf(fetch, login, prs[..n]);
      assert prs[n] in prs;
      if fetch(prs[n]).Some? { ByCounts(login, fetch(prs[n]).value); }
    }
  }

  lemma SumOfTwo(a: nat, b: nat, x: nat, y: nat)
    requires a != b
    ensures Sum(map[a := x, b := y]) == x + y
  {
    SumPick(map[a := x, b := y], a);
    assert map[a := x, b := y] - {a} == map[b := y];
    SumPick(map[b := y], b);
    assert map[b := y] - {b} == map[];
  }

  lemma OneReview(fetch: nat -> Option<seq<string>>, login: string, pr: nat)
    requires fetch(pr) == Some([login])
    ensures By(login, [login]) == 1
    ensures SearchReviews([Some(pr)], 1, fetch, login) == (1, false)
    ensures Numbers(Inspected([Some(pr)])) == [pr]
  {
    var items := [Some(pr)];
    assert [login][..0] == [] && By(login, []) == 0;
    assert items[..0] == [] && Numbers([]) == [] && Numbers(items) == [pr];
    assert CountsOf(fetch, login, [pr]) == [Some(1)] && [Some(1)][..0] == [];
    assert SumOr([], 1) == 0 && SumOr([Some(1)], 1) == 1;
    hide Sum;
  }

  /** An index that lags behind by one review: the count is too small, and not flagged as partial. */
  lemma LaggingIndexUndercounts(login: string)
    returns (items: seq<Option<nat>>, fetch: nat -> Option<seq<string>>, reviews: map<nat, seq<string>>)
    ensures TruePrefixes(fetch, reviews) && TrueHits(items, |items|, Given(reviews, login))
    ensures SearchReviews(items, |items|, fetch, login) == (1, false) && Sum(Given(reviews, login)) == 2
  {
    items, fetch, reviews := [Some(1)], pr => Some([login]), map[1 := [login], 2 := [login]];
    OneReview(fetch, login, 1);
    SumOfTwo(1, 2, 1, 1);
    hide SearchReviews, Numbers, By, Sum;
    assert Given(reviews, login) == map[1 := 1, 2 := 1];
    assert |Given(reviews, login).Keys| == |{1, 2}|;
  }

  // ---------------------------------------------------------------- reviews through listings

  /** `_count_reviews_via_rest`; no listing means that it could not be read. */
  method CountReviewsViaRest(listing: Option<seq<Option<nat>>>, fetch: nat -> Option<seq<string>>, login: string)
    returns (given: nat, partial: bool)
    ensures (given, partial) == RestReviews(listing, fetch, login)
  {
    hide SumOr, SomeIncomplete, Numbers;
    if listing.None? { return 0, false; }
    var items := listing.value;
    var inspected := if |items| > MAX_REVIEWED_PRS_INSPECTED then items[..MAX_REVIEWED_PRS_INSPECTED] else items;
    var prs := ListedNumbers(inspected);
    var counts, incomplete := FetchReviewCounts(fetch, prs, login);
    assert counts == CountsOf(fetch, login, prs);
    given := Total(counts, 0);
    partial := incomplete || |items| >= MAX_REVIEWED_PRS_INSPECTED;
  }

  function RestReviews(listing: Option<seq<Option<nat>>>, fetch: nat -> Option<seq<string>>, login: string): (nat, bool) {
    match listing
    case None => (0, false)
    case Some(items) =>
      var prs := Numbers(Inspected(items));
      (SumOr(CountsOf(fetch, login, prs), 0),
       SomeIncomplete(fetch, prs) || |items| >= MAX_REVIEWED_PRS_INSPECTED)
  }

  /** A count through listings is partial if the reviews of one of the listed are not sure, or the page is full. */
  lemma RestIsPartialIff(listing: Option<seq<Option<nat>>>, fetch: nat -> Option<seq<string>>, login: string)
    ensures var (given, partial) := RestReviews(listing, fetch, login);
      match listing
      case None => given == 0 && !partial
      case Some(items) =>
        var first := if |items| > 50 then items[..50] else items;
        partial <==> (exists pr :: pr in Numbers(first) && Unsure(fetch, pr)) || |items| >= 50
  {
    hide SumOr, By, Numbers;
    if listing.Some? { UnsureSome(fetch, Numbers(Inspected(listing.value))); }
  }

  /** Reviews given on each pull request of the repository. */
  function GivenOnAll(reviews: map<nat, seq<string>>, login: string): map<nat, nat> {
    map pr | pr in reviews :: By(login, reviews[pr])
  }

  /** The listing is a true one: different pull requests of the repository, all of them when below the page size. */
  ghost predicate TrueListing(items: seq<Option<nat>>, reviews: map<nat, seq<string>>) {
    && Distinct(Numbers(items))
    && (forall pr :: pr in Numbers(items) ==> pr in reviews)
    && (|items| < MAX_REVIEWED_PRS_INSPECTED ==> |Numbers(items)| == |reviews|)
  }

  lemma {:induction false} NumbersPrefix(items: seq<Option<nat>>, n: nat)
    requires n <= |items|
    ensures Numbers(items[..n]) <= Numbers(items)
    decreases |items|
  {
    if n < |items| {
      assert items[..|items| - 1][..n] == items[..n];
      NumbersPrefix(items[..|items| - 1], n);
    } else {
      assert items[..n] == items;
    }
  }

  /** The count through listings never exceeds the true one, and equals it when the listing succeeds and it is not partial. */
  lemma RestReviewsAreLowerBound(listing: Option<seq<Option<nat>>>, fetch: nat -> Option<seq<string>>,
                                 login: string, reviews: map<nat, seq<string>>)
    requires TruePrefixes(fetch, reviews) && (listing.Some? ==> TrueListing(listing.value, reviews))
    ensures var (given, partial) := RestReviews(listing, fetch, login);
      && given <= Sum(GivenOnAll(reviews, login))
      && (listing.Some? && !partial ==> given == Sum(GivenOnAll(reviews, login)))
  {
    hide SumOr, SomeIncomplete, CountsOf, Sum, TruePrefixes;
    if listing.Some? {
      var all := GivenOnAll(reviews, login);
      InspectedListed(listing.value, reviews);
      var prs := Numbers(Inspected(listing.value));
      CountsBelow(fetch, reviews, login, all, prs, 0);
      SumAtBelow(all, prs);
      assert all.Keys == reviews.Keys;
      assert |all| == |all.Keys| == |reviews.Keys| == |reviews|;
    }
  }

  lemma InspectedListed(items: seq<Option<nat>>, reviews: map<nat, seq<string>>)
    requires TrueListing(items, reviews)
    ensures var prs := Numbers(Inspected(items));
      && Distinct(prs)
      && (forall pr :: pr in prs ==> pr in reviews)
      && (|items| < MAX_REVIEWED_PRS_INSPECTED ==> |prs| == |reviews|)
  {
    if |items| > MAX_REVIEWED_PRS_INSPECTED { NumbersPrefix(items, MAX_REVIEWED_PRS_INSPECTED); }
    var prs := Numbers(Inspected(items));
    assert prs <= Numbers(items);
    assert forall pr :: pr in prs ==> pr in Numbers(items);
  }

  // ---------------------------------------------------------------- merged pull requests

  /** The merged count through search, corrected for a merge the index may not show yet. */
  function AdjustMerged(found: nat, justMerged: bool, indexed: Option<bool>): nat {
    if !justMerged then found
    else match indexed
         case Some(false) => found + 1
         case Some(true) => found
         case None => if found > 1 then found else 1
  }

  /**
   * Without a merge to look for, or when it is among those found, the count is taken as it is. A
   * merge that is not among them counts one more, and one that cannot be looked up is counted at least.
   */
  lemma AdjustedMerged(found: nat, justMerged: bool, indexed: Option<bool>)
    ensures !justMerged || indexed == Some(true) ==> AdjustMerged(found, justMerged, indexed) == found
    ensures justMerged && indexed == Some(false) ==> AdjustMerged(found, justMerged, indexed) == found + 1
    ensures justMerged && indexed.None? ==>
      var n := AdjustMerged(found, justMerged, indexed); n >= 1 && n >= found && (n == 1 || n == found)
  {
  }

  const SEARCH_PAGE := 100

  /** `_merged_pr_indexed`, from one page of the search for the author's merges since this one. */
  function MergedPrIndexed(number: Option<nat>, dated: bool, answer: Option<seq<Option<nat>>>): Option<bool> {
    if number.None? || !dated || answer.None? then None else Some(number in answer.value)
  }

  /** One page of the hits, all of them when they fit. */
  ghost predicate TruePage(items: seq<Option<nat>>, hits: set<nat>) {
    && Distinct(items)
    && (forall item :: item in items ==> item.Some? && item.value in hits)
    && |items| == if |hits| < SEARCH_PAGE then |hits| else SEARCH_PAGE
  }

  lemma {:induction false} PageHoldsAll(items: seq<Option<nat>>, hits: set<nat>, n: nat)
    requires Distinct(items) && |items| == |hits|
    requires forall item :: item in items ==> item.Some? && item.value in hits
    ensures n in hits ==> Some(n) in items
    decreases |items|
  {
    if items != [] {
      var last := |items| - 1;
      assert items[last] in items;
      var rest := items[..last];
      forall item | item in rest ensures item.Some? && item.value in hits - {items[last].value} {
        assert item in items;
      }
      PageHoldsAll(rest, hits - {items[last].value}, n);
    }
  }

  /**
   * The correction for a merge the index may not show yet. `first` and `second` are what the index
   * shows at the count and at the later check, `hits` those of the second that the check searches
   * for. The corrected count exceeds the truth if and only if the merge was counted already, with
   * all others, and is not on the page read; which cannot be when the hits fit on one page. Then it
   * is exact if only this merge is missing.
   */
  lemma AdjustedMergedIsLowerBound(first: set<nat>, second: set<nat>, merged: set<nat>, hits: set<nat>, pr: nat,
                                   answer: Option<seq<Option<nat>>>)
    requires first <= second <= merged && pr in merged && hits <= second && (pr in second ==> pr in hits)
    requires answer.Some? ==> TruePage(answer.value, hits)
    ensures var adjusted := AdjustMerged(|first|, true, MergedPrIndexed(Some(pr), true, answer));
      && (adjusted <= |merged| <==> !(answer.Some? && Some(pr) !in answer.value && first == merged))
      && (|hits| <= SEARCH_PAGE ==> adjusted <= |merged|)
      && (|hits| <= SEARCH_PAGE && answer.Some? && first == second && merged == first + {pr} ==> adjusted == |merged|)
  {
    Sets.SubsetSmaller(first, merged);
    Sets.SubsetSmaller({pr}, merged);
    if answer.Some? {
      if |hits| <= SEARCH_PAGE { PageHoldsAll(answer.value, hits, pr); }
      if first != merged {
        var other :| other in merged && other !in first;
        Sets.SubsetSmaller(first + {other}, merged);
        assert |first + {other}| == |first| + 1;
      }
      if merged == first + {pr} && pr !in first { assert |merged| == |first| + 1; }
    }
  }

  /** The first `n` numbers. */
  function Below(n: nat): (r: set<nat>)
    ensures |r| == n && forall k: nat :: k in r <==> k < n
  {
    if n == 0 then {} else Below(n - 1) + {n - 1}
  }

  function Listed(n: nat): (items: seq<Option<nat>>)
    ensures |items| == n && forall i :: 0 <= i < n ==> items[i] == Some(i)
  {
    seq(n, i requires 0 <= i < n => Some(i))
  }

  /** More hits than fit on a page can hide the merge, which is then counted twice. */
  lemma LongSearchOvercounts(hits: nat) returns (merged: set<nat>, pr: nat, answer: seq<Option<nat>>)
    requires hits > SEARCH_PAGE
    ensures |merged| == hits && pr in merged && TruePage(answer, merged)
    ensures AdjustMerged(|merged|, true, MergedPrIndexed(Some(pr), true, Some(answer))) == |merged| + 1
  {
    hide Below, Listed;
    merged, pr, answer := Below(hits), hits - 1, Listed(SEARCH_PAGE);
  }

  /** A closed pull request: who opened it, and the day it was merged, if it was. */
  datatype Pull = Pull(author: string, mergedOn: Option<int>)

  function MergedBy(login: string, pulls: seq<Pull>): nat {
    if pulls == [] then 0
    else MergedBy(login, pulls[..|pulls| - 1])
         + if pulls[|pulls| - 1].author == login && pulls[|pulls| - 1].mergedOn.Some? then 1 else 0
  }

  /** It is the number of listed pull requests by the contributor that were merged. */
  lemma {:induction false} MergedByCounts(login: string, pulls: seq<Pull>)
    ensures MergedBy(login, pulls) == |set i | 0 <= i < |pulls| && pulls[i].author == login && pulls[i].mergedOn.Some?|
  {
    var merged := set i | 0 <= i < |pulls| && pulls[i].author == login && pulls[i].mergedOn.Some?;
    if pulls != [] {
      var n := |pulls| - 1;
      var rest := pulls[..n];
      MergedByCounts(login, rest);
      var before := set i | 0 <= i < |rest| && rest[i].author == login && rest[i].mergedOn.Some?;
      if pulls[n].author == login && pulls[n].mergedOn.Some? {
        assert merged == before + {n};
      } else {
        assert merged == before;
      }
    } else {
      assert merged == {};
    }
  }

  /** The merged part of `_collect_stats_via_rest`; no listing means that it could not be read. */
  method MergedViaRest(listing: Option<seq<Pull>>, login: string) returns (merged: nat, first: Option<int>, partial: bool)
    ensures listing.None? ==> merged == 0 && first == None && !partial
    ensures listing.Some? ==>
      && merged == MergedBy(login, listing.value)
      && (partial <==> |listing.value| >= 1000)
      && IsFirst(first, login, listing.value)
  {
    merged, first, partial := 0, None, false;
    if listing.None? { return; }
    var pulls := listing.value;
    partial := |pulls| >= MAX_REST_PRS;
    for i := 0 to |pulls|
      invariant merged == MergedBy(login, pulls[..i])
      invariant IsFirst(first, login, pulls[..i])
    {
      assert pulls[..i + 1][..i] == pulls[..i];
      assert pulls[..i + 1] == pulls[..i] + [pulls[i]];
      if pulls[i].author == login && pulls[i].mergedOn.Some? {
        merged := merged + 1;
        if first.None? || pulls[i].mergedOn.value < first.value { first := pulls[i].mergedOn; }
      }
    }
    assert pulls[..|pulls|] == pulls;
  }

  /** The earliest day on which the contributor's listed pull requests were merged. */
  ghost predicate IsFirst(first: Option<int>, login: string, pulls: seq<Pull>) {
    && (first.Some? ==> Pull(login, first) in pulls)
    && forall p :: p in pulls && p.author == login && p.mergedOn.Some? ==> first.Some? && first.value <= p.mergedOn.value
  }

  /** A true listing is a beginning of all closed pull requests, all of them when it stays below the page cap. */
  lemma {:induction false} RestMergedIsLowerBound(listing: seq<Pull>, all: seq<Pull>, login: string)
    requires listing <= all && (|listing| < MAX_REST_PRS ==> listing == all)
    ensures MergedBy(login, listing) <= MergedBy(login, all)
    ensures |listing| < 1000 ==> MergedBy(login, listing) == MergedBy(login, all)
    decreases |all|
  {
    if listing != all {
      var shorter := all[..|all| - 1];
      assert listing <= shorter;
      MergedByPrefix(listing, shorter, login);
    }
  }

  lemma {:induction false} MergedByPrefix(listing: seq<Pull>, all: seq<Pull>, login: string)
    requires listing <= all
    ensures MergedBy(login, listing) <= MergedBy(login, all)
    decreases |all|
  {
    if listing != all {
      MergedByPrefix(listing, all[..|all| - 1], login);
    }
  }

  // ---------------------------------------------------------------- roles

  datatype Role = Contributor | JuniorCommitter | Committer | Maintainer {
    function Rank(): nat {
      match this case Contributor => 0 case JuniorCommitter => 1 case Committer => 2 case Maintainer => 3
    }
  }

  datatype Requirements = Requirements(merged: nat, reviews: nat, months: nat)
  datatype RoleConfig = RoleConfig(junior: Requirements, committer: Requirements, maintainer: Requirements)
  datatype Stats = Stats(merged: nat, reviews: nat, months: nat) {
    predicate Meets(r: Requirements) { merged >= r.merged && reviews >= r.reviews && months >= r.months }

    predicate Below(other: Stats) { merged <= other.merged && reviews <= other.reviews && months <= other.months }
  }

  /** `_check_eligibility`: the highest role whose requirements are met. */
  function CheckEligibility(stats: Stats, cfg: RoleConfig): Option<Role> {
    if stats.Meets(cfg.maintainer) then Some(Maintainer)
    else if stats.Meets(cfg.committer) then Some(Committer)
    else if stats.Meets(cfg.junior) then Some(JuniorCommitter)
    else None
  }

  /** The stats reach each of these minima. */
  ghost predicate Reaches(stats: Stats, r: Requirements) {
    stats.merged >= r.merged && stats.reviews >= r.reviews && stats.months >= r.months
  }

  /** What the configuration asks for a role; nothing is asked of a contributor. */
  function AskedFor(cfg: RoleConfig, role: Role): Requirements {
    match role
    case Maintainer => cfg.maintainer
    case Committer => cfg.committer
    case JuniorCommitter => cfg.junior
    case Contributor => Requirements(0, 0, 0)
  }

  /** The roles below this one. */
  function RolesBelow(role: Role): set<Role> {
    match role
    case Contributor => {}
    case JuniorCommitter => {Contributor}
    case Committer => {Contributor, JuniorCommitter}
    case Maintainer => {Contributor, JuniorCommitter, Committer}
  }

  /** The contributor reaches this role's minima, and those of no higher role. */
  ghost predicate HighestReached(stats: Stats, cfg: RoleConfig, role: Role) {
    && role != Contributor
    && Reaches(stats, AskedFor(cfg, role))
    && forall higher :: role in RolesBelow(higher) ==> !Reaches(stats, AskedFor(cfg, higher))
  }

  /** The role found is the highest whose own minima are all reached; none is found if those of no role are. */
  lemma EligibilityIsExact(stats: Stats, cfg: RoleConfig)
    ensures match CheckEligibility(stats, cfg)
      case Some(role) => HighestReached(stats, cfg, role)
      case None => forall role :: role != Contributor ==> !Reaches(stats, AskedFor(cfg, role))
  {
  }

  /** A role is announced if and only if it is the highest reached and above the current one. */
  lemma AnnouncedIff(stats: Stats, cfg: RoleConfig, current: Role, role: Role)
    ensures Announced(stats, cfg, current) == Some(role) <==> HighestReached(stats, cfg, role) && current in RolesBelow(role)
  {
    EligibilityIsExact(stats, cfg);
  }

  lemma RanksInOrder(a: Role, b: Role)
    ensures a.Rank() < b.Rank() <==> a in RolesBelow(b)
  {
  }

  function RankOf(role: Option<Role>): nat {
    match role case None => 0 case Some(r) => r.Rank()
  }

  /** The role to announce: one above the role the contributor holds already. */
  function Announced(stats: Stats, cfg: RoleConfig, current: Role): Option<Role> {
    match CheckEligibility(stats, cfg)
    case Some(role) => if role.Rank() <= current.Rank() then None else Some(role)
    case None => None
  }

  /** Whole months since a day; no known day counts as none. */
  function MonthsSince(day: Option<int>, today: int): nat {
    match day
    case None => 0
    case Some(d) => if (today - d) / DAYS_PER_MONTH > 0 then (today - d) / DAYS_PER_MONTH else 0
  }

  /** Whole months of thirty days since the first contribution, none before it or without one. */
  lemma WholeMonths(day: Option<int>, today: int)
    ensures match day
      case None => MonthsSince(day, today) == 0
      case Some(d) =>
        if d <= today then 30 * MonthsSince(day, today) <= today - d < 30 * (MonthsSince(day, today) + 1)
        else MonthsSince(day, today) == 0
  {
  }

  lemma LaterStartFewerMonths(day: Option<int>, first: Option<int>, today: int)
    requires day.Some? ==> first.Some? && first.value <= day.value
    ensures MonthsSince(day, today) <= MonthsSince(first, today)
  {
    if day.Some? { DivideMonotone(today - day.value, today - first.value); }
  }

  lemma DivideMonotone(a: int, b: int)
    requires a <= b
    ensures a / 30 <= b / 30
  {
  }

  /** For arbitrary requirements of the roles, smaller stats never reach a higher role. */
  lemma EligibilityIsMonotone(low: Stats, high: Stats, cfg: RoleConfig, current: Role)
    requires low.Below(high)
    ensures RankOf(CheckEligibility(low, cfg)) <= RankOf(CheckEligibility(high, cfg))
    ensures RankOf(Announced(low, cfg, current)) <= RankOf(Announced(high, cfg, current))
    ensures forall role :: HighestReached(low, cfg, role) ==>
      exists role' :: HighestReached(high, cfg, role') && (role' == role || role in RolesBelow(role'))
  {
    EligibilityIsExact(low, cfg);
    EligibilityIsExact(high, cfg);
    forall role | HighestReached(low, cfg, role)
      ensures exists role' :: HighestReached(high, cfg, role') && (role' == role || role in RolesBelow(role'))
    {
      assert Reaches(high, AskedFor(cfg, role));
      var role' := CheckEligibility(high, cfg).value;
      assert HighestReached(high, cfg, role') && (role' == role || role in RolesBelow(role'));
    }
  }

  /** Stats measured through search never announce a role above the one the true stats reach. */
  lemma SearchNeverOverpromises(items: seq<Option<nat>>, totalCount: nat, fetch: nat -> Option<seq<string>>, login: string,
                                reviews: map<nat, seq<string>>, first: set<nat>, second: set<nat>, merged: set<nat>,
                                hits: set<nat>, pr: nat, answer: Option<seq<Option<nat>>>, shown: Option<int>,
                                earliest: Option<int>, today: int, cfg: RoleConfig, current: Role)
    requires TruePrefixes(fetch, reviews) && TrueHits(items, totalCount, Given(reviews, login))
    requires first <= second <= merged && pr in merged && hits <= second && (pr in second ==> pr in hits)
    requires |hits| <= SEARCH_PAGE && (answer.Some? ==> TruePage(answer.value, hits))
    requires shown.Some? ==> earliest.Some? && earliest.value <= shown.value
    ensures var found := AdjustMerged(|first|, true, MergedPrIndexed(Some(pr), true, answer));
      var measured := Stats(found, SearchReviews(items, totalCount, fetch, login).0, MonthsSince(shown, today));
      var actual := Stats(|merged|, Sum(Given(reviews, login)), MonthsSince(earliest, today));
      RankOf(Announced(measured, cfg, current)) <= RankOf(Announced(actual, cfg, current))
  {
    SearchReviewsAreLowerBound(items, totalCount, fetch, login, reviews);
    AdjustedMergedIsLowerBound(first, second, merged, hits, pr, answer);
    LaterStartFewerMonths(shown, earliest, today);
    hide SearchReviews, AdjustMerged, Sum, MonthsSince;
  }

  /** Nor do stats measured through listings, failed or capped as these may be. */
  lemma RestNeverOverpromises(pulls: Option<seq<Pull>>, all: seq<Pull>, listing: Option<seq<Option<nat>>>,
                              fetch: nat -> Option<seq<string>>, login: string, reviews: map<nat, seq<string>>,
                              shown: Option<int>, earliest: Option<int>, today: int, cfg: RoleConfig, current: Role)
    requires pulls.Some? ==> pulls.value <= all && (|pulls.value| < MAX_REST_PRS ==> pulls.value == all)
    requires TruePrefixes(fetch, reviews) && (listing.Some? ==> TrueListing(listing.value, reviews))
    requires if pulls.Some? then IsFirst(shown, login, pulls.value) else shown == None
    requires IsFirst(earliest, login, all)
    ensures var found := if pulls.Some? then MergedBy(login, pulls.value) else 0;
      var measured := Stats(found, RestReviews(listing, fetch, login).0, MonthsSince(shown, today));
      var actual := Stats(MergedBy(login, all), Sum(GivenOnAll(reviews, login)), MonthsSince(earliest, today));
      RankOf(Announced(measured, cfg, current)) <= RankOf(Announced(actual, cfg, current))
  {
    if pulls.Some? {
      RestMergedIsLowerBound(pulls.value, all, login);
      if shown.Some? { assert Pull(login, shown) in all by { assert Pull(login, shown) in pulls.value; } }
    }
    RestReviewsAreLowerBound(listing, fetch, login, reviews);
    LaterStartFewerMonths(shown, earliest, today);
    hide RestReviews, MergedBy, Sum, MonthsSince;
  }
}
