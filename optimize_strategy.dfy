/**
 * `optimize_strategy` and `get_content_recommendations`: the best record by likes + 2 x retweets,
 * the mean likes and mean engagement rate, likes grouped by type and the type with the highest
 * mean. Means are exact reals. Any dict key may be absent: counts then read as 0 and the type as
 * 'unknown'.
 */
module OptimizeStrategy {
  import opened Wrappers
  import opened Records

  function Likes(r: Record): int { r.likes.GetOr(0) }
  function Retweets(r: Record): int { r.retweets.GetOr(0) }
  function Rate(r: Record): real { r.engagementRate.GetOr(0.0) }
  function KindOf(r: Record): string { r.kind.GetOr("unknown") }

  /** The ranking key of the best record: a retweet weighs twice a like. */
  function Score(r: Record): int { Likes(r) + 2 * Retweets(r) }

  /** Python's `max` over keyed values: the index of the first maximal key. */
  function ArgMax(keys: seq<real>): (k: nat)
    requires |keys| > 0
    ensures k < |keys|
    ensures forall j :: 0 <= j < |keys| ==> keys[j] <= keys[k]
    ensures forall j :: 0 <= j < k ==> keys[j] < keys[k]
    decreases |keys|
  {
    if |keys| == 1 then 0
    else
      var n := |keys| - 1;
      var k := ArgMax(keys[..n]);
      if keys[n] > keys[k] then n else k
  }

  function Scores(feedback: seq<Record>): seq<real> {
    seq(|feedback|, i requires 0 <= i < |feedback| => Score(feedback[i]) as real)
  }

  function SumLikes(feedback: seq<Record>): int
    decreases |feedback|
  {
    if feedback == [] then 0 else SumLikes(feedback[..|feedback| - 1]) + Likes(feedback[|feedback| - 1])
  }

  function SumRates(feedback: seq<Record>): real
    decreases |feedback|
  {
    if feedback == [] then 0.0 else SumRates(feedback[..|feedback| - 1]) + Rate(feedback[|feedback| - 1])
  }

  function Sum(s: seq<int>): int
    decreases |s|
  {
    if s == [] then 0 else Sum(s[..|s| - 1]) + s[|s| - 1]
  }

  function Mean(s: seq<int>): real
    requires |s| > 0
  {
    Sum(s) as real / |s| as real
  }

  /** The likes of the records of type `t`, in input order: the bucket `type_performance[t]`. */
  function LikesOfKind(feedback: seq<Record>, t: string): seq<int>
    decreases |feedback|
  {
    if feedback == [] then []
    else
      var n := |feedback| - 1;
      LikesOfKind(feedback[..n], t) + (if KindOf(feedback[n]) == t then [Likes(feedback[n])] else [])
  }

  /** The types in the order they are first seen: the key order of `type_performance`. */
  function KindsInOrder(feedback: seq<Record>): seq<string>
    decreases |feedback|
  {
    if feedback == [] then []
    else
      var n := |feedback| - 1;
      var seen := KindsInOrder(feedback[..n]);
      if KindOf(feedback[n]) in seen then seen else seen + [KindOf(feedback[n])]
  }

  /** `optimize_strategy`, the grouping loop: build the likes-per-type dict; `order` is its key order. */
  method GroupLikes(feedback: seq<Record>) returns (order: seq<string>, buckets: map<string, seq<int>>)
    ensures order == KindsInOrder(feedback)
    ensures buckets.Keys == set t | t in order
    ensures forall t :: t in buckets ==> buckets[t] == LikesOfKind(feedback, t)
  {
    order := [];
    buckets := map[];
    var i := 0;
    while i < |feedback|
      invariant 0 <= i <= |feedback|
      invariant order == KindsInOrder(feedback[..i])
      invariant buckets.Keys == set t | t in order
      invariant forall t :: t in buckets ==> buckets[t] == LikesOfKind(feedback[..i], t)
    {
      assert feedback[..i + 1][..i] == feedback[..i];
      var t := KindOf(feedback[i]);
      KindListedIffOccurs(feedback[..i], t);
      BucketEmptyIffAbsent(feedback[..i], t);
      if t !in buckets {
        order := order + [t];
        buckets := buckets[t := []];
      }
      buckets := buckets[t := buckets[t] + [Likes(feedback[i])]];
      i := i + 1;
    }
    assert feedback[..i] == feedback;
  }

  /** The mean likes of type `t`: `sum(type_performance[t]) / len(type_performance[t])` (0 for a type with no bucket). */
  function KindMean(feedback: seq<Record>, t: string): real {
    var bucket := LikesOfKind(feedback, t);
    if bucket == [] then 0.0 else Mean(bucket)
  }

  /** The mean likes of each type, in key order. */
  function KindMeans(feedback: seq<Record>, order: seq<string>): seq<real> {
    seq(|order|, i requires 0 <= i < |order| => KindMean(feedback, order[i]))
  }

  /** `optimize_strategy`, the `max` over the feedback: the index of the best record — the highest score, the first one among equals. */
  function BestTweetIndex(feedback: seq<Record>): (k: nat)
    requires feedback != []
    ensures k < |feedback|
    ensures forall j :: 0 <= j < |feedback| ==> Score(feedback[j]) <= Score(feedback[k])
    ensures forall j :: 0 <= j < k ==> Score(feedback[j]) < Score(feedback[k])
  {
    var keys := Scores(feedback);
    var k := ArgMax(keys);
    assert forall j :: 0 <= j < |feedback| ==> keys[j] == Score(feedback[j]) as real;
    k
  }

  /** `optimize_strategy`, `avg_likes`: the mean likes. */
  function AvgLikes(feedback: seq<Record>): (avg: real)
    requires feedback != []
    ensures avg * |feedback| as real == SumLikes(feedback) as real
  {
    SumLikes(feedback) as real / |feedback| as real
  }

  /** `optimize_strategy`, `avg_engagement_rate`: the mean engagement rate. */
  function AvgRate(feedback: seq<Record>): (avg: real)
    requires feedback != []
    ensures avg * |feedback| as real == SumRates(feedback)
  {
    SumRates(feedback) / |feedback| as real
  }

  /**
   * `optimize_strategy`, the `max` over the groups: the position of the best type in the key order — no type has a higher mean, and
   * every type first seen before it has a strictly lower one (ties go to the type seen first).
   */
  function BestKindIndex(feedback: seq<Record>): (b: nat)
    requires feedback != []
    ensures b < |KindsInOrder(feedback)|
    ensures forall j :: 0 <= j < |KindsInOrder(feedback)| ==>
      KindMean(feedback, KindsInOrder(feedback)[j]) <= KindMean(feedback, KindsInOrder(feedback)[b])
    ensures forall j :: 0 <= j < b ==>
      KindMean(feedback, KindsInOrder(feedback)[j]) < KindMean(feedback, KindsInOrder(feedback)[b])
  {
    var o := KindsInOrder(feedback);
    NonEmptyHasKinds(feedback);
    var means := KindMeans(feedback, o);
    assert forall j :: 0 <= j < |o| ==> means[j] == KindMean(feedback, o[j]);
    ArgMax(means)
  }

  /** The best type itself. */
  function BestKind(feedback: seq<Record>): string
    requires feedback != []
  {
    KindsInOrder(feedback)[BestKindIndex(feedback)]
  }

  datatype Insights = Insights(
    bestTweet: Record,
    avgLikes: real,
    avgEngagementRate: real,
    bestPerformingType: string,
    totalTweetsAnalyzed: nat)

  /** The hypothesis text: the fixed message, or the three values the formatted advice is built from. */
  datatype Hypothesis = NoData(message: string) | Advice(bestType: string, avgEngagementRate: real, focus: string)

  const NoDataMessage: string := "No data available for optimization"

  /** `get_content_recommendations`: the advice phrase for a type; the best record is not consulted. */
  function Recommendation(bestTweet: Record, bestType: string): (focus: string)
    ensures bestType == "hook" ==> focus == "Strong opening statements with immediate value"
    ensures bestType == "list" ==> focus == "Numbered lists and actionable tips"
    ensures bestType == "question" ==> focus == "Engaging questions that encourage replies"
    ensures bestType == "unknown" ==> focus == "Authentic, conversational content"
    ensures bestType !in {"hook", "list", "question", "unknown"} <==> focus == "Engaging, authentic content"
  {
    if bestType == "hook" then "Strong opening statements with immediate value"
    else if bestType == "list" then "Numbered lists and actionable tips"
    else if bestType == "question" then "Engaging questions that encourage replies"
    else if bestType == "unknown" then "Authentic, conversational content"
    else "Engaging, authentic content"
  }

  /** The optimiser's answer for a list of records. */
  function Optimized(feedback: seq<Record>): (result: (Option<Insights>, Hypothesis))
    ensures result.0.None? <==> feedback == []
    ensures feedback == [] ==> result.1 == NoData(NoDataMessage)
    ensures feedback != [] ==> var insights := result.0.value;
      && insights.totalTweetsAnalyzed == |feedback|
      && insights.bestTweet in feedback
      && (forall i :: 0 <= i < |feedback| ==> Score(feedback[i]) <= Score(insights.bestTweet))
      && insights.bestTweet == feedback[BestTweetIndex(feedback)]
      && insights.avgLikes == AvgLikes(feedback) && insights.avgEngagementRate == AvgRate(feedback)
      && insights.bestPerformingType == BestKind(feedback)
      && Occurs(feedback, insights.bestPerformingType)
      && (forall i :: 0 <= i < |feedback| ==>
            KindMean(feedback, KindOf(feedback[i])) <= KindMean(feedback, insights.bestPerformingType))
      && result.1 == Advice(insights.bestPerformingType, insights.avgEngagementRate,
                            Recommendation(insights.bestTweet, insights.bestPerformingType))
  {
    if feedback == [] then (None, NoData(NoDataMessage))
    else
      BestKindBeatsEveryRecord(feedback);
      var best := feedback[BestTweetIndex(feedback)];
      var bestType := BestKind(feedback);
      (Some(Insights(best, AvgLikes(feedback), AvgRate(feedback), bestType, |feedback|)),
       Advice(bestType, AvgRate(feedback), Recommendation(best, bestType)))
  }

  /** `optimize_strategy`: the optimiser as the source runs it. */
  method Optimize(feedback: seq<Record>) returns (insights: Option<Insights>, hypothesis: Hypothesis)
    ensures (insights, hypothesis) == Optimized(feedback)
    ensures insights.None? <==> feedback == []
    ensures feedback == [] ==> hypothesis == NoData(NoDataMessage)
  {
    if |feedback| == 0 {
      return None, NoData(NoDataMessage);
    }
    var best := feedback[ArgMax(Scores(feedback))];
    var avgLikes := SumLikes(feedback) as real / |feedback| as real;
    var avgRate := SumRates(feedback) / |feedback| as real;
    var order, buckets := GroupLikes(feedback);
    GroupsNonEmpty(feedback);
    var means := seq(|order|, i requires 0 <= i < |order| => Mean(buckets[order[i]]));
    assert means == KindMeans(feedback, order);
    var bestType := order[ArgMax(means)];
    insights := Some(Insights(best, avgLikes, avgRate, bestType, |feedback|));
    hypothesis := Advice(bestType, avgRate, Recommendation(best, bestType));
  }

  // ---------------------------------------------------------------------------------------------
  // Properties of the grouping

  /** Some record has type `t`. */
  predicate Occurs(feedback: seq<Record>, t: string) {
    exists i :: 0 <= i < |feedback| && KindOf(feedback[i]) == t
  }

  /** A type is a key of the dict exactly when some record has it. */
  lemma {:induction false} KindListedIffOccurs(feedback: seq<Record>, t: string)
    ensures t in KindsInOrder(feedback) <==> Occurs(feedback, t)
    decreases |feedback|
  {
    if feedback != [] {
      var n := |feedback| - 1;
      var init := feedback[..n];
      KindListedIffOccurs(init, t);
      if Occurs(feedback, t) {
        var i :| 0 <= i < |feedback| && KindOf(feedback[i]) == t;
        if i < n { assert KindOf(init[i]) == t; }
      }
      if Occurs(init, t) {
        var i :| 0 <= i < |init| && KindOf(init[i]) == t;
        assert KindOf(feedback[i]) == t;
      }
    }
  }

  predicate Distinct(o: seq<string>) {
    forall i, j :: 0 <= i < j < |o| ==> o[i] != o[j]
  }

  /** The key order lists each type once. */
  lemma {:induction false} KindsInOrderDistinct(feedback: seq<Record>)
    ensures Distinct(KindsInOrder(feedback))
    decreases |feedback|
  {
    if feedback != [] {
      var n := |feedback| - 1;
      var seen := KindsInOrder(feedback[..n]);
      KindsInOrderDistinct(feedback[..n]);
      var o := KindsInOrder(feedback);
      if KindOf(feedback[n]) !in seen {
        assert o == seen + [KindOf(feedback[n])];
        forall i, j | 0 <= i < j < |o| ensures o[i] != o[j] {
          assert o[i] == seen[i] && o[i] in seen;
          if j < |seen| { assert o[j] == seen[j]; }
        }
      } else {
        assert o == seen;
      }
    }
  }

  /** A type's bucket is empty exactly when no record has that type. */
  lemma {:induction false} BucketEmptyIffAbsent(feedback: seq<Record>, t: string)
    ensures LikesOfKind(feedback, t) == [] <==> forall i :: 0 <= i < |feedback| ==> KindOf(feedback[i]) != t
    decreases |feedback|
  {
    if feedback != [] {
      var n := |feedback| - 1;
      var init := feedback[..n];
      BucketEmptyIffAbsent(init, t);
      if LikesOfKind(feedback, t) == [] {
        forall i | 0 <= i < |feedback| ensures KindOf(feedback[i]) != t {
          if i < n { assert init[i] == feedback[i]; }
        }
      } else if KindOf(feedback[n]) != t {
        var i :| 0 <= i < |init| && KindOf(init[i]) == t;
        assert feedback[i] == init[i];
      }
    }
  }

  /** Every bucket in the dict is non-empty, so every mean is defined. */
  lemma GroupsNonEmpty(feedback: seq<Record>)
    ensures forall t :: t in KindsInOrder(feedback) ==> |LikesOfKind(feedback, t)| > 0
    ensures feedback != [] ==> |KindsInOrder(feedback)| > 0
  {
    forall t | t in KindsInOrder(feedback) ensures |LikesOfKind(feedback, t)| > 0 {
      KindListedIffOccurs(feedback, t);
      BucketEmptyIffAbsent(feedback, t);
    }
    if feedback != [] {
      KindListedIffOccurs(feedback, KindOf(feedback[0]));
    }
  }

  /** A non-empty input has at least one type. */
  lemma NonEmptyHasKinds(feedback: seq<Record>)
    requires feedback != []
    ensures |KindsInOrder(feedback)| > 0
  {
    KindListedIffOccurs(feedback, KindOf(feedback[0]));
  }

  /** The total size of the buckets of the listed types. */
  function BucketSizes(order: seq<string>, feedback: seq<Record>): nat
    decreases |order|
  {
    if order == [] then 0
    else BucketSizes(order[..|order| - 1], feedback) + |LikesOfKind(feedback, order[|order| - 1])|
  }

  lemma {:induction false} BucketSizesStep(order: seq<string>, feedback: seq<Record>, r: Record)
    requires Distinct(order)
    ensures BucketSizes(order, feedback + [r]) == BucketSizes(order, feedback) + (if KindOf(r) in order then 1 else 0)
    decreases |order|
  {
    assert (feedback + [r])[..|feedback|] == feedback;
    if order != [] {
      BucketSizesStep(order[..|order| - 1], feedback, r);
    }
  }

  /** The grouping partitions the input: every record lands in exactly one bucket, so the sizes add up to n. */
  lemma {:induction false} GroupingPartitions(feedback: seq<Record>)
    ensures BucketSizes(KindsInOrder(feedback), feedback) == |feedback|
    decreases |feedback|
  {
    if feedback != [] {
      var n := |feedback| - 1;
      var init := feedback[..n];
      var r := feedback[n];
      assert feedback == init + [r];
      GroupingPartitions(init);
      KindsInOrderDistinct(init);
      KindListedIffOccurs(init, KindOf(r));
      BucketSizesStep(KindsInOrder(init), init, r);
      if KindOf(r) !in KindsInOrder(init) {
        BucketEmptyIffAbsent(init, KindOf(r));
      }
    }
  }

  // ---------------------------------------------------------------------------------------------
  // Properties of the answer

  lemma {:induction false} SumLikesBounds(feedback: seq<Record>, lo: int, hi: int)
    requires forall i :: 0 <= i < |feedback| ==> lo <= Likes(feedback[i]) <= hi
    ensures lo * |feedback| <= SumLikes(feedback) <= hi * |feedback|
    decreases |feedback|
  {
    if feedback != [] {
      var n := |feedback| - 1;
      assert forall i :: 0 <= i < n ==> feedback[..n][i] == feedback[i];
      SumLikesBounds(feedback[..n], lo, hi);
      assert SumLikes(feedback) == SumLikes(feedback[..n]) + Likes(feedback[n]);
      assert lo * |feedback| == lo * n + lo && hi * |feedback| == hi * n + hi;
    }
  }

  /** The best type occurs in the input and no record's type has a higher mean likes. */
  lemma BestKindBeatsEveryRecord(feedback: seq<Record>)
    requires feedback != []
    ensures Occurs(feedback, BestKind(feedback))
    ensures |LikesOfKind(feedback, BestKind(feedback))| > 0
    ensures forall i :: 0 <= i < |feedback| ==> KindMean(feedback, KindOf(feedback[i])) <= KindMean(feedback, BestKind(feedback))
  {
    var o := KindsInOrder(feedback);
    var b := BestKindIndex(feedback);
    KindListedIffOccurs(feedback, o[b]);
    GroupsNonEmpty(feedback);
    forall i | 0 <= i < |feedback| ensures KindMean(feedback, KindOf(feedback[i])) <= KindMean(feedback, o[b]) {
      KindListedIffOccurs(feedback, KindOf(feedback[i]));
      var j :| 0 <= j < |o| && o[j] == KindOf(feedback[i]);
    }
  }

  /** The mean likes lie between the smallest and the largest like count. */
  lemma AvgLikesWithinRange(feedback: seq<Record>, lo: int, hi: int)
    requires feedback != []
    requires forall i :: 0 <= i < |feedback| ==> lo <= Likes(feedback[i]) <= hi
    ensures lo as real <= AvgLikes(feedback) <= hi as real
  {
    SumLikesBounds(feedback, lo, hi);
    DivisionBounds(SumLikes(feedback) as real, |feedback| as real, lo as real, hi as real);
  }

  lemma DivisionBounds(s: real, n: real, lo: real, hi: real)
    requires n > 0.0 && lo * n <= s <= hi * n
    ensures lo <= s / n <= hi
  {
  }

  /** The phrase depends on the type only, and each known type has its own, distinct from the default. */
  lemma RecommendationByTypeOnly(a: Record, b: Record, t: string)
    ensures Recommendation(a, t) == Recommendation(b, t)
    ensures t !in {"hook", "list", "question", "unknown"} <==> Recommendation(a, t) == "Engaging, authentic content"
  {
  }
}
