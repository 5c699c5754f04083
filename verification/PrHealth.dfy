/** The health score of a pull request: effective approvals, the configured weights, and the weighted score. */
module PrHealth {
  import opened OrderedDict
  import Text

  // ---------------------------------------------------------------- approvals

  /** A submitted review; an empty login counts as missing. */
  datatype Review = Review(login: Option<string>, state: string) {
    predicate By(reviewer: string) { login.Some? && Text.Lower(login.value) == reviewer }

    predicate Decides() { state == "APPROVED" || state == "CHANGES_REQUESTED" || state == "DISMISSED" }
  }

  function Reviewers(reviews: seq<Review>): set<string> {
    set review | review in reviews && review.login.Some? :: Text.Lower(review.login.value)
  }

  /** The state of a reviewer's last review that approves, requests changes or was dismissed. */
  function LastDecision(reviews: seq<Review>, reviewer: string): Option<string> {
    if reviews == [] then None
    else
      var last := reviews[|reviews| - 1];
      if last.By(reviewer) && last.Decides() then Some(last.state) else LastDecision(reviews[..|reviews| - 1], reviewer)
  }

  function Approvers(reviews: seq<Review>): set<string> {
    set reviewer | reviewer in Reviewers(reviews) && LastDecision(reviews, reviewer) == Some("APPROVED")
  }

  lemma {:induction false} DecidersReview(reviews: seq<Review>, reviewer: string)
    ensures LastDecision(reviews, reviewer).Some? ==> reviewer in Reviewers(reviews)
  {
    if reviews != [] { DecidersReview(reviews[..|reviews| - 1], reviewer); }
  }

  lemma OneMoreReview(reviews: seq<Review>, review: Review)
    ensures var all := reviews + [review];
      Approvers(all) ==
        if review.login.None? || !review.Decides() then Approvers(reviews)
        else if review.state == "APPROVED" then Approvers(reviews) + {Text.Lower(review.login.value)}
        else Approvers(reviews) - {Text.Lower(review.login.value)}
  {
    var all := reviews + [review];
    assert all[..|reviews|] == reviews;
    forall reviewer ensures reviewer in Approvers(all) <==> LastDecision(all, reviewer) == Some("APPROVED") {
      DecidersReview(all, reviewer);
    }
    forall reviewer ensures reviewer in Approvers(reviews) <==> LastDecision(reviews, reviewer) == Some("APPROVED") {
      DecidersReview(reviews, reviewer);
    }
    assert "CHANGES_REQUESTED"[0] == 'C' && "DISMISSED"[0] == 'D' && "APPROVED"[0] == 'A';
  }

  /** The review is by this reviewer, case aside, and is one of these. */
  ghost predicate Submitted(review: Review, login: string, states: set<string>) {
    review.login.Some? && Text.SameLetters(review.login.value, login) && review.state in states
  }

  const APPROVALS: set<string> := {"APPROVED"}
  const REFUSALS: set<string> := {"CHANGES_REQUESTED", "DISMISSED"}

  /** They approved, and neither requested changes nor were dismissed afterwards. */
  ghost predicate Stands(reviews: seq<Review>, login: string) {
    exists i :: 0 <= i < |reviews| && Submitted(reviews[i], login, APPROVALS)
      && forall j :: i < j < |reviews| ==> !Submitted(reviews[j], login, REFUSALS)
  }

  lemma StandsAfter(reviews: seq<Review>, last: Review, login: string)
    ensures Stands(reviews + [last], login) <==>
      Submitted(last, login, APPROVALS) || (Stands(reviews, login) && !Submitted(last, login, REFUSALS))
  {
    hide Submitted;
    var all, n := reviews + [last], |reviews|;
    if Stands(reviews, login) && !Submitted(last, login, REFUSALS) {
      var i :| 0 <= i < n && Submitted(reviews[i], login, APPROVALS)
        && forall j :: i < j < n ==> !Submitted(reviews[j], login, REFUSALS);
      assert Submitted(all[i], login, APPROVALS);
    }
    if Submitted(last, login, APPROVALS) { assert Submitted(all[n], login, APPROVALS); }
    if Stands(all, login) && !Submitted(last, login, APPROVALS) {
      var i :| 0 <= i < |all| && Submitted(all[i], login, APPROVALS)
        && forall j :: i < j < |all| ==> !Submitted(all[j], login, REFUSALS);
      assert Submitted(reviews[i], login, APPROVALS);
      assert !Submitted(all[n], login, REFUSALS);
      forall j | i < j < n ensures !Submitted(reviews[j], login, REFUSALS) { assert all[j] == reviews[j]; }
    }
  }

  lemma LastDecides(last: Review, login: string)
    ensures Submitted(last, login, APPROVALS) <==> last.By(Text.Lower(login)) && last.Decides() && last.state == "APPROVED"
    ensures Submitted(last, login, REFUSALS) <==> last.By(Text.Lower(login)) && last.Decides() && last.state != "APPROVED"
  {
    if last.login.Some? { Text.FoldsCase(last.login.value, login); }
    assert "CHANGES_REQUESTED"[0] == 'C' && "DISMISSED"[0] == 'D' && "APPROVED"[0] == 'A';
  }

  lemma {:induction false} LastDecisionIff(reviews: seq<Review>, login: string)
    ensures LastDecision(reviews, Text.Lower(login)) == Some("APPROVED") <==> Stands(reviews, login)
  {
    if reviews != [] {
      var n := |reviews| - 1;
      LastDecisionIff(reviews[..n], login);
      LastDecides(reviews[n], login);
      assert reviews == reviews[..n] + [reviews[n]];
      StandsAfter(reviews[..n], reviews[n], login);
      hide Stands, Submitted, Review.By, Review.Decides;
    }
  }

  /** A reviewer counts if and only if their approval stands. */
  lemma ApprovesIff(reviews: seq<Review>, login: string)
    ensures Text.Lower(login) in Approvers(reviews) <==> Stands(reviews, login)
  {
    DecidersReview(reviews, Text.Lower(login));
    LastDecisionIff(reviews, login);
    hide Stands;
  }

  /** Counts the reviewers, by case-folded login, whose last decision is an approval. */
  method CountApprovals(reviews: seq<Review>) returns (approvers: set<string>, count: nat)
    ensures approvers == Approvers(reviews) && count == |Approvers(reviews)|
  {
    approvers := {};
    for i := 0 to |reviews|
      invariant approvers == Approvers(reviews[..i])
    {
      assert reviews[..i + 1] == reviews[..i] + [reviews[i]];
      OneMoreReview(reviews[..i], reviews[i]);
      if reviews[i].login.Some? {
        var reviewer := Text.Lower(reviews[i].login.value);
        if reviews[i].state == "APPROVED" {
          approvers := approvers + {reviewer};
        } else if reviews[i].state == "CHANGES_REQUESTED" || reviews[i].state == "DISMISSED" {
          approvers := approvers - {reviewer};
        }
      }
    }
    assert reviews[..|reviews|] == reviews;
    count := |approvers|;
  }

  // ---------------------------------------------------------------- weights

  datatype Weight = Weight(name: string, value: real)

  const SIGNALS: set<string> :=
    {"has_tests", "has_linked_issue", "has_description", "dco_signed", "review_count", "small_diff"}

  datatype Weights = Weights(items: seq<Weight>) | Negative | NothingPositive

  function Known(weights: seq<Weight>): seq<Weight> {
    if weights == [] then []
    else
      var last := weights[|weights| - 1];
      Known(weights[..|weights| - 1]) + if last.name in SIGNALS then [last] else []
  }

  function Sum(weights: seq<Weight>): real {
    if weights == [] then 0.0 else Sum(weights[..|weights| - 1]) + weights[|weights| - 1].value
  }

  function Scaled(weights: seq<Weight>, total: real): seq<Weight>
    requires total > 0.0
  {
    seq(|weights|, i requires 0 <= i < |weights| => Weight(weights[i].name, weights[i].value / total))
  }

  /** The names are the keys of a dictionary. */
  predicate Keyed(weights: seq<Weight>) {
    forall i, j :: 0 <= i < j < |weights| ==> weights[i].name != weights[j].name
  }

  function Normalised(weights: seq<Weight>): Weights {
    var known := Known(weights);
    if exists w :: w in known && w.value < 0.0 then Negative
    else
      var total := Sum(known);
      if total <= 0.0 then NothingPositive else Weights(Scaled(known, total))
  }

  lemma {:induction false} KnownAre(weights: seq<Weight>)
    ensures forall w :: w in Known(weights) <==> w in weights && w.name in SIGNALS
    ensures Keyed(weights) ==> Keyed(Known(weights))
  {
    if weights != [] {
      var rest, last := weights[..|weights| - 1], weights[|weights| - 1];
      KnownAre(rest);
      assert weights == rest + [last];
      forall w ensures w in Known(weights) <==> w in weights && w.name in SIGNALS {
      }
    }
  }

  lemma {:induction false} SumSigns(weights: seq<Weight>)
    requires forall w :: w in weights ==> w.value >= 0.0
    ensures Sum(weights) >= 0.0
    ensures Sum(weights) > 0.0 <==> exists w :: w in weights && w.value > 0.0
  {
    if weights != [] {
      var rest, last := weights[..|weights| - 1], weights[|weights| - 1];
      SumSigns(rest);
      assert weights == rest + [last];
      if last.value > 0.0 { assert last in weights; }
    }
  }

  lemma {:induction false} ScaledSum(weights: seq<Weight>, total: real)
    requires total > 0.0
    ensures Sum(Scaled(weights, total)) == Sum(weights) / total
  {
    if weights != [] {
      var rest := weights[..|weights| - 1];
      ScaledSum(rest, total);
      assert Scaled(weights, total)[..|rest|] == Scaled(rest, total);
    }
  }

  lemma Whole(total: real)
    requires total > 0.0
    ensures total / total == 1.0
  {
  }

  lemma ScaledItems(weights: seq<Weight>, total: real)
    requires total > 0.0 && forall w :: w in weights ==> w.value >= 0.0
    ensures var items := Scaled(weights, total);
      && |items| == |weights|
      && (forall i :: 0 <= i < |items| ==>
          items[i].name == weights[i].name && items[i].value >= 0.0 && items[i].value == weights[i].value / total)
      && (Keyed(weights) ==> Keyed(items))
  {
    forall i | 0 <= i < |weights| ensures weights[i].value / total >= 0.0 {
      assert weights[i] in weights;
    }
  }

  /** The signals a score is made of. */
  ghost predicate IsSignal(name: string) {
    name == "has_tests" || name == "has_linked_issue" || name == "has_description" || name == "dco_signed"
    || name == "review_count" || name == "small_diff"
  }

  /** Weights are accepted exactly when no known signal's is negative and some known signal's is positive. */
  lemma AcceptedWeights(weights: seq<Weight>)
    ensures var r := Normalised(weights);
      && (r.Negative? <==> exists w :: w in weights && IsSignal(w.name) && w.value < 0.0)
      && (r.Weights? <==> !r.Negative? && exists w :: w in weights && IsSignal(w.name) && w.value > 0.0)
      && (r.Weights? ==> r.items == Scaled(Known(weights), Sum(Known(weights))))
  {
    hide Scaled;
    KnownAre(weights);
    if forall w :: w in Known(weights) ==> w.value >= 0.0 { SumSigns(Known(weights)); }
  }

  /** Accepted weights are for known signals only, in the proportions given, and sum to 1. */
  lemma NormalisedWeights(weights: seq<Weight>)
    requires Normalised(weights).Weights?
    ensures var known, items := Known(weights), Normalised(weights).items;
      && Sum(items) == 1.0
      && |items| == |known| && Sum(known) > 0.0
      && (forall w :: w in known <==> w in weights && IsSignal(w.name))
      && (forall i :: 0 <= i < |items| ==>
          items[i].name == known[i].name && items[i].value >= 0.0 && items[i].value == known[i].value / Sum(known))
      && (Keyed(weights) ==> Keyed(items))
  {
    hide Scaled, Sum, Keyed;
    var known := Known(weights);
    KnownAre(weights);
    assert forall w :: w in known ==> w.value >= 0.0;
    ScaledSum(known, Sum(known));
    Whole(Sum(known));
    ScaledItems(known, Sum(known));
  }

  // ---------------------------------------------------------------- score

  datatype Signals = Signals(flags: map<string, bool>, reviewCount: nat)

  /** How much of a signal's weight counts. */
  function Fullness(signals: Signals, name: string): (r: real)
    ensures 0.0 <= r <= 1.0
  {
    if name == "review_count" then (if signals.reviewCount >= 2 then 1.0 else signals.reviewCount as real / 2.0)
    else if name in signals.flags && signals.flags[name] then 1.0
    else 0.0
  }

  /** What a signal adds to the score. */
  function Part(value: real, fullness: real): real { value * fullness * 100.0 }

  function RawScore(signals: Signals, weights: seq<Weight>): real {
    if weights == [] then 0.0
    else
      var w := weights[|weights| - 1];
      RawScore(signals, weights[..|weights| - 1]) + Part(w.value, Fullness(signals, w.name))
  }

  function Clamped(score: real): real {
    if score < 0.0 then 0.0 else if score > 100.0 then 100.0 else score
  }

  method ComputeScore(signals: Signals, weights: seq<Weight>) returns (score: real)
    ensures score == Clamped(RawScore(signals, weights))
    ensures 0.0 <= score <= 100.0
    ensures score < RawScore(signals, weights) ==> score == 100.0
    ensures score > RawScore(signals, weights) ==> score == 0.0
  {
    score := 0.0;
    for i := 0 to |weights|
      invariant score == RawScore(signals, weights[..i])
    {
      assert weights[..i + 1][..i] == weights[..i];
      var name, value := weights[i].name, weights[i].value;
      if name == "review_count" {
        var share := if signals.reviewCount >= 2 then 1.0 else signals.reviewCount as real / 2.0;
        score := score + Part(value, share);
      } else {
        var share := if name in signals.flags && signals.flags[name] then 1.0 else 0.0;
        score := score + Part(value, share);
      }
    }
    assert weights[..|weights|] == weights;
    score := Clamped(score);
  }

  /** The signal counts in full: two approvals, or what it stands for is so. */
  ghost predicate Full(signals: Signals, name: string) {
    if name == "review_count" then signals.reviewCount >= 2 else name in signals.flags && signals.flags[name]
  }

  /** The signal counts for half: a single approval. */
  ghost predicate Half(signals: Signals, name: string) {
    name == "review_count" && signals.reviewCount == 1
  }

  /** The weights of the signals that count in full, and of those that count for half. */
  ghost function FullWeight(signals: Signals, weights: seq<Weight>): real {
    if weights == [] then 0.0
    else
      var w := weights[|weights| - 1];
      FullWeight(signals, weights[..|weights| - 1]) + if Full(signals, w.name) then w.value else 0.0
  }

  ghost function HalfWeight(signals: Signals, weights: seq<Weight>): real {
    if weights == [] then 0.0
    else
      var w := weights[|weights| - 1];
      HalfWeight(signals, weights[..|weights| - 1]) + if Half(signals, w.name) then w.value else 0.0
  }

  lemma PartIs(signals: Signals, w: Weight)
    ensures Part(w.value, Fullness(signals, w.name)) ==
      100.0 * (if Full(signals, w.name) then w.value else 0.0) + 50.0 * (if Half(signals, w.name) then w.value else 0.0)
  {
  }

  /** Every point of weight gives a hundred points for a full signal, and fifty for a single approval. */
  lemma {:induction false} ScoreIsWeighted(signals: Signals, weights: seq<Weight>)
    ensures RawScore(signals, weights) == 100.0 * FullWeight(signals, weights) + 50.0 * HalfWeight(signals, weights)
  {
    if weights != [] {
      ScoreIsWeighted(signals, weights[..|weights| - 1]);
      PartIs(signals, weights[|weights| - 1]);
      hide Part, Fullness, Full, Half;
    }
  }

  lemma FullIff(signals: Signals, name: string)
    ensures Fullness(signals, name) == 1.0 <==> Full(signals, name)
  {
  }

  ghost predicate NoneNegative(weights: seq<Weight>) {
    forall i :: 0 <= i < |weights| ==> weights[i].value >= 0.0
  }

  /** Every signal that carries weight is full. */
  ghost predicate AllFull(signals: Signals, weights: seq<Weight>) {
    forall i :: 0 <= i < |weights| && weights[i].value > 0.0 ==> Full(signals, weights[i].name)
  }

  lemma Share(value: real, fullness: real)
    requires value >= 0.0 && 0.0 <= fullness <= 1.0
    ensures 0.0 <= Part(value, fullness) <= value * 100.0
    ensures Part(value, fullness) == value * 100.0 <==> value == 0.0 || fullness == 1.0
  {
    if value > 0.0 && fullness < 1.0 { assert value * (1.0 - fullness) > 0.0; }
    assert value * (1.0 - fullness) >= 0.0;
  }

  lemma FullerCountsMore(value: real, less: real, more: real)
    requires value >= 0.0 && less <= more
    ensures Part(value, less) <= Part(value, more)
  {
    assert value * (more - less) >= 0.0;
  }

  lemma {:induction false} ScoreRange(signals: Signals, weights: seq<Weight>)
    requires NoneNegative(weights)
    ensures 0.0 <= RawScore(signals, weights) <= Sum(weights) * 100.0
    ensures RawScore(signals, weights) == Sum(weights) * 100.0 <==> AllFull(signals, weights)
  {
    if weights != [] {
      hide Part, Fullness, Full;
      var rest, last := weights[..|weights| - 1], weights[|weights| - 1];
      ScoreRange(signals, rest);
      Share(last.value, Fullness(signals, last.name));
      FullIff(signals, last.name);
      assert AllFull(signals, weights) <==> AllFull(signals, rest) && (last.value > 0.0 ==> Full(signals, last.name));
    }
  }

  /** One pull request is at least as good as another in every signal. */
  ghost predicate AtLeast(better: Signals, worse: Signals) {
    && better.reviewCount >= worse.reviewCount
    && forall name :: name in worse.flags && worse.flags[name] ==> name in better.flags && better.flags[name]
  }

  lemma {:induction false} ScoreGrows(better: Signals, worse: Signals, weights: seq<Weight>)
    requires AtLeast(better, worse) && NoneNegative(weights)
    ensures RawScore(worse, weights) <= RawScore(better, weights)
  {
    if weights != [] {
      var last := weights[|weights| - 1];
      ScoreGrows(better, worse, weights[..|weights| - 1]);
      FullerCountsMore(last.value, Fullness(worse, last.name), Fullness(better, last.name));
      hide Part;
    }
  }

  /**
   * Under accepted weights the score needs no clamping, never falls when a signal improves, and is
   * 100 exactly when every signal with a positive weight is full.
   */
  lemma HealthScore(weights: seq<Weight>, signals: Signals, better: Signals)
    requires Normalised(weights).Weights? && AtLeast(better, signals)
    ensures var items := Normalised(weights).items;
      && 0.0 <= RawScore(signals, items) <= 100.0
      && Clamped(RawScore(signals, items)) == RawScore(signals, items)
      && Clamped(RawScore(signals, items)) <= Clamped(RawScore(better, items))
      && (Clamped(RawScore(signals, items)) == 100.0 <==> AllFull(signals, items))
  {
    hide Part, Fullness;
    NormalisedWeights(weights);
    var items := Normalised(weights).items;
    ScoreRange(signals, items);
    ScoreRange(better, items);
    ScoreGrows(better, signals, items);
  }
}
