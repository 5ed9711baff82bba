/**
 * `calculate_engagement_rate`, `track_metrics` and `track_multiple_tweets`. The platform read is an
 * oracle: each lookup is described by a `Lookup` saying whether a client was obtained and what
 * `get_tweet` returned. Sleeps are counted in seconds; the creation time is an opaque string.
 */
module TrackMetrics {
  import opened Wrappers
  import opened Seqs
  import opened Records

  /** The `public_metrics` mapping; a missing key is `None`. */
  datatype Counters = Counters(
    likeCount: Option<int>,
    retweetCount: Option<int>,
    replyCount: Option<int>,
    quoteCount: Option<int>,
    bookmarkCount: Option<int>,
    impressionCount: Option<int>)

  datatype Lookup =
    | NoClient                                   // get_bearer_client() returned None
    | Raised                                     // get_tweet raised
    | NoData                                     // response.data was empty
    | Found(metrics: Counters, createdAt: string)

  /** likes + retweets + replies + quotes, each missing count read as 0; bookmarks are not counted. */
  function Engagements(m: Counters): int {
    m.likeCount.GetOr(0) + m.retweetCount.GetOr(0) + m.replyCount.GetOr(0) + m.quoteCount.GetOr(0)
  }

  function Impressions(m: Counters): int {
    m.impressionCount.GetOr(0)
  }

  /** `calculate_engagement_rate`: engagements per hundred impressions, 0 when there are no (or a non-positive number of) impressions. */
  function EngagementRate(m: Counters): (rate: real)
    ensures Impressions(m) <= 0 ==> rate == 0.0
    ensures Impressions(m) > 0 ==> rate * Impressions(m) as real == 100.0 * Engagements(m) as real
    ensures Impressions(m) > 0 && Engagements(m) >= 0 ==> rate >= 0.0
  {
    if Impressions(m) > 0 then 100.0 * Engagements(m) as real / Impressions(m) as real else 0.0
  }

  /** The dict `track_metrics` returns on a successful lookup. */
  function MetricsRecord(tweetId: string, m: Counters, createdAt: string): (r: Record)
    ensures r.tweetId == Some(tweetId) && HasNoPostKeys(r)
    ensures r.likes.Some? && r.retweets.Some? && r.replies.Some? && r.quotes.Some? && r.bookmarks.Some? && r.impressions.Some?
    ensures r.likes == Some(m.likeCount.GetOr(0)) && r.retweets == Some(m.retweetCount.GetOr(0))
    ensures r.replies == Some(m.replyCount.GetOr(0)) && r.quotes == Some(m.quoteCount.GetOr(0))
    ensures r.bookmarks == Some(m.bookmarkCount.GetOr(0)) && r.impressions == Some(m.impressionCount.GetOr(0))
    ensures r.createdAt == Some(createdAt) && r.engagementRate == Some(EngagementRate(m))
    ensures m.impressionCount.None? ==> r.impressions == Some(0) && r.engagementRate == Some(0.0)
  {
    EmptyRecord.(
      tweetId := Some(tweetId),
      likes := Some(m.likeCount.GetOr(0)),
      retweets := Some(m.retweetCount.GetOr(0)),
      replies := Some(m.replyCount.GetOr(0)),
      quotes := Some(m.quoteCount.GetOr(0)),
      bookmarks := Some(m.bookmarkCount.GetOr(0)),
      impressions := Some(m.impressionCount.GetOr(0)),
      createdAt := Some(createdAt),
      engagementRate := Some(EngagementRate(m)))
  }

  /** What one lookup contributes: a record, or nothing (`{}` or `None` in the source, both falsy). */
  function Tracked(tweetId: string, lookup: Lookup): Option<Record> {
    match lookup
    case Found(m, createdAt) => Some(MetricsRecord(tweetId, m, createdAt))
    case _ => None
  }

  datatype Tracking = Tracking(metrics: Option<Record>, slept: nat)

  /** `track_metrics`: fetch the counters of one tweet, after waiting `waitMinutes` when positive. */
  method TrackOne(tweetId: string, waitMinutes: int, lookup: Lookup) returns (t: Tracking)
    ensures t.metrics == Tracked(tweetId, lookup)
    ensures t.metrics.Some? <==> lookup.Found?
    ensures t.metrics.Some? ==> t.metrics.value.tweetId == Some(tweetId)
    ensures t.slept == if lookup.NoClient? || waitMinutes <= 0 then 0 else waitMinutes * 60
  {
    if lookup.NoClient? {
      return Tracking(None, 0);
    }
    var slept := 0;
    if waitMinutes > 0 {
      slept := waitMinutes * 60;
    }
    match lookup {
      case Found(m, createdAt) =>
        t := Tracking(Some(MetricsRecord(tweetId, m, createdAt)), slept);
      case Raised =>
        t := Tracking(None, slept);
      case NoData =>
        t := Tracking(None, slept);
    }
  }

  /** The batch output: the records of the successful lookups, in input order. */
  function TrackedAll(ids: seq<string>, lookups: seq<Lookup>): seq<Record>
    requires |ids| == |lookups|
    decreases |ids|
  {
    if ids == [] then []
    else
      var n := |ids| - 1;
      var t := Tracked(ids[n], lookups[n]);
      TrackedAll(ids[..n], lookups[..n]) + (if t.Some? then [t.value] else [])
  }

  /** `track_multiple_tweets`: track each id with no wait, keeping only non-empty results. */
  method TrackMultipleTweets(ids: seq<string>, lookups: seq<Lookup>, waitMinutes: int)
    returns (all: seq<Record>, slept: nat)
    requires |lookups| == |ids|
    ensures all == TrackedAll(ids, lookups)
    ensures slept == 0
  {
    all := [];
    slept := 0;
    var i := 0;
    while i < |ids|
      invariant 0 <= i <= |ids|
      invariant all == TrackedAll(ids[..i], lookups[..i])
      invariant slept == 0
    {
      assert ids[..i + 1][..i] == ids[..i] && lookups[..i + 1][..i] == lookups[..i];
      var t := TrackOne(ids[i], 0, lookups[i]);
      slept := slept + t.slept;
      if t.metrics.Some? {
        all := all + [t.metrics.value];
      }
      i := i + 1;
    }
    assert ids[..i] == ids && lookups[..i] == lookups;
  }

  // ---------------------------------------------------------------------------------------------
  // Properties

  /** The `tweet_id` of each record (every tracked record has one). */
  function TweetIds(records: seq<Record>): seq<string> {
    seq(|records|, i requires 0 <= i < |records| => records[i].tweetId.GetOr(""))
  }

  /**
   * The batch drops and never reorders: its records' ids are a subsequence of the requested ids,
   * and each record carries a tweet id and none of the publisher's keys.
   */
  lemma {:induction false} TrackedAllIsSubsequence(ids: seq<string>, lookups: seq<Lookup>)
    requires |ids| == |lookups|
    ensures |TrackedAll(ids, lookups)| <= |ids|
    ensures IsSubsequence(TweetIds(TrackedAll(ids, lookups)), ids)
    ensures forall k :: 0 <= k < |TrackedAll(ids, lookups)| ==>
      TrackedAll(ids, lookups)[k].tweetId.Some? && HasNoPostKeys(TrackedAll(ids, lookups)[k])
    decreases |ids|
  {
    if ids != [] {
      var n := |ids| - 1;
      var prev := TrackedAll(ids[..n], lookups[..n]);
      TrackedAllIsSubsequence(ids[..n], lookups[..n]);
      var all := TrackedAll(ids, lookups);
      var t := Tracked(ids[n], lookups[n]);
      assert ids == ids[..n] + [ids[n]];
      if t.Some? {
        assert TweetIds(all) == TweetIds(prev) + [ids[n]];
        assert TweetIds(all)[..|TweetIds(all)| - 1] == TweetIds(prev);
      } else {
        assert TweetIds(all) == TweetIds(prev);
        SubsequenceSnoc(TweetIds(prev), ids[..n], ids[n]);
      }
    }
  }

  /** The positions of the successful lookups, in order. */
  function FoundIndices(lookups: seq<Lookup>): seq<nat>
    decreases |lookups|
  {
    if lookups == [] then []
    else
      var n := |lookups| - 1;
      FoundIndices(lookups[..n]) + (if lookups[n].Found? then [n] else [])
  }

  /**
   * The batch keeps exactly the successful lookups, in order: there is one record per successful
   * lookup, and record k is the metrics record of the k-th successful lookup's id.
   */
  lemma TrackedAllSelectsFound(ids: seq<string>, lookups: seq<Lookup>)
    requires |ids| == |lookups|
    ensures var ix := FoundIndices(lookups);
      && |TrackedAll(ids, lookups)| == |ix| <= |ids|
      && (forall k :: 0 <= k < |ix| ==> ix[k] < |lookups| && lookups[ix[k]].Found?)
      && (forall k, l :: 0 <= k < l < |ix| ==> ix[k] < ix[l])
      && (forall i :: 0 <= i < |lookups| && lookups[i].Found? ==> i in ix)
      && (forall k :: 0 <= k < |ix| ==>
            TrackedAll(ids, lookups)[k] == MetricsRecord(ids[ix[k]], lookups[ix[k]].metrics, lookups[ix[k]].createdAt))
  {
    FoundIndicesShape(lookups);
    TrackedAllAtFound(ids, lookups);
  }

  /** Every successful lookup's metrics record is in the batch. */
  lemma FoundIsKept(ids: seq<string>, lookups: seq<Lookup>, i: nat)
    requires |ids| == |lookups| && i < |ids| && lookups[i].Found?
    ensures MetricsRecord(ids[i], lookups[i].metrics, lookups[i].createdAt) in TrackedAll(ids, lookups)
  {
    TrackedAllSelectsFound(ids, lookups);
    var ix := FoundIndices(lookups);
    var k :| 0 <= k < |ix| && ix[k] == i;
    assert TrackedAll(ids, lookups)[k] == MetricsRecord(ids[i], lookups[i].metrics, lookups[i].createdAt);
  }

  /** The successful positions are increasing, each is a successful lookup, and every successful lookup is listed. */
  lemma {:induction false} FoundIndicesShape(lookups: seq<Lookup>)
    ensures var ix := FoundIndices(lookups);
      && |ix| <= |lookups|
      && (forall k :: 0 <= k < |ix| ==> ix[k] < |lookups| && lookups[ix[k]].Found?)
      && (forall k, l :: 0 <= k < l < |ix| ==> ix[k] < ix[l])
      && (forall i :: 0 <= i < |lookups| && lookups[i].Found? ==> i in ix)
    decreases |lookups|
  {
    if lookups != [] {
      var n := |lookups| - 1;
      FoundIndicesShape(lookups[..n]);
      var ix := FoundIndices(lookups);
      var ix0 := FoundIndices(lookups[..n]);
      forall k | 0 <= k < |ix0| ensures ix0[k] < n && lookups[..n][ix0[k]] == lookups[ix0[k]] {
      }
      forall i | 0 <= i < |lookups| && lookups[i].Found? ensures i in ix {
        if i < n { assert lookups[..n][i] == lookups[i]; }
      }
    }
  }

  /** Record k of the batch is the metrics record of the k-th successful position. */
  lemma {:induction false} TrackedAllAtFound(ids: seq<string>, lookups: seq<Lookup>)
    requires |ids| == |lookups|
    ensures var ix := FoundIndices(lookups);
      && |TrackedAll(ids, lookups)| == |ix|
      && forall k :: 0 <= k < |ix| ==>
           && ix[k] < |lookups| && lookups[ix[k]].Found?
           && TrackedAll(ids, lookups)[k] == MetricsRecord(ids[ix[k]], lookups[ix[k]].metrics, lookups[ix[k]].createdAt)
    decreases |ids|
  {
    if ids != [] {
      var n := |ids| - 1;
      TrackedAllAtFound(ids[..n], lookups[..n]);
      FoundIndicesShape(lookups[..n]);
      var ix0 := FoundIndices(lookups[..n]);
      forall k | 0 <= k < |ix0| ensures ids[..n][ix0[k]] == ids[ix0[k]] && lookups[..n][ix0[k]] == lookups[ix0[k]] {
      }
    }
  }

  /** When every lookup succeeds nothing is dropped, and the i-th record is the i-th id's. */
  lemma {:induction false} NoFailureKeepsAlignment(ids: seq<string>, lookups: seq<Lookup>)
    requires |ids| == |lookups|
    requires forall i :: 0 <= i < |lookups| ==> lookups[i].Found?
    ensures |TrackedAll(ids, lookups)| == |ids|
    ensures forall i :: 0 <= i < |ids| ==> TrackedAll(ids, lookups)[i].tweetId == Some(ids[i])
    decreases |ids|
  {
    if ids != [] {
      var n := |ids| - 1;
      NoFailureKeepsAlignment(ids[..n], lookups[..n]);
    }
  }

  /**
   * A metrics record is consistent with itself: its rate is 100 times the sum of its own like,
   * retweet, reply and quote counts over its own impression count, or 0 without impressions.
   */
  lemma RecordRateMatchesCounts(tweetId: string, m: Counters, createdAt: string)
    ensures var r := MetricsRecord(tweetId, m, createdAt);
      var engagements := r.likes.value + r.retweets.value + r.replies.value + r.quotes.value;
      && (r.impressions.value > 0 ==> r.engagementRate.value * r.impressions.value as real == 100.0 * engagements as real)
      && (r.impressions.value <= 0 ==> r.engagementRate.value == 0.0)
  {
  }

  /** Bookmarks do not enter the rate. */
  lemma BookmarksIgnored(m: Counters, bookmarks: Option<int>)
    ensures EngagementRate(m.(bookmarkCount := bookmarks)) == EngagementRate(m)
  {
  }

  /** 10 likes, 5 retweets, 2 replies, 1 quote over 200 impressions is a rate of 9. */
  lemma WorkedExample()
    ensures EngagementRate(Counters(Some(10), Some(5), Some(2), Some(1), None, Some(200))) == 9.0
    ensures EngagementRate(Counters(Some(10), Some(5), Some(2), Some(1), None, Some(0))) == 0.0
  {
  }
}
