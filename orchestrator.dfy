/**
 * `main`: generate, tag, post, wait, track, merge, optimise. The trend source is replaced by the
 * parameters `patterns` and `hashtags`, the generator's result by `drafts` (see
 * `GeneratedDraftsNeverAbort` for the generator actually used), the platform by the publisher's and
 * tracker's oracles, and the wall clock by `timestamp`. Sleeps are counted in seconds. Draft dicts
 * and posted records, which the source mutates in place inside their lists, are array elements.
 */
module Orchestrator {
  import opened Wrappers
  import opened Seqs
  import opened Records
  import opened GenerateTweets
  import opened PostTweet
  import opened TrackMetrics
  import opened OptimizeStrategy

  /** A hashtag is appended only to drafts shorter than this. */
  const HashtagRoom: nat := 250
  const PostDelayMinutes: nat := 30
  const EngagementWaitSeconds: nat := 300

  /** One draft after the hashtag step. */
  function Tagged(d: Draft, tag: string): Draft {
    if |d.text| < HashtagRoom then d.(text := d.text + " " + tag) else d
  }

  function TaggedAll(drafts: seq<Draft>, tag: string): seq<Draft> {
    seq(|drafts|, i requires 0 <= i < |drafts| => Tagged(drafts[i], tag))
  }

  /** `main`, the hashtag loop: append the hashtag, in place, to every draft with room for it. */
  method AppendHashtag(drafts: array<Draft>, tag: string)
    modifies drafts
    ensures drafts[..] == TaggedAll(old(drafts[..]), tag)
  {
    for i := 0 to drafts.Length
      invariant forall k :: 0 <= k < i ==> drafts[k] == Tagged(old(drafts[k]), tag)
      invariant forall k :: i <= k < drafts.Length ==> drafts[k] == old(drafts[k])
    {
      if |drafts[i].text| < HashtagRoom {
        drafts[i] := drafts[i].(text := drafts[i].text + " " + tag);
      }
    }
  }

  /** The posted records after the merge: record i takes metrics record i's keys when there is one. */
  function Merged(posted: seq<Record>, metrics: seq<Record>): seq<Record> {
    seq(|posted|, i requires 0 <= i < |posted| => if i < |metrics| then Update(posted[i], metrics[i]) else posted[i])
  }

  /** `main`, the merge loop: merge the metrics into the posted records, in place, by position. */
  method MergeMetrics(posted: array<Record>, metrics: seq<Record>)
    modifies posted
    ensures posted[..] == Merged(old(posted[..]), metrics)
  {
    for i := 0 to posted.Length
      invariant forall k :: 0 <= k < i ==> posted[k] == Merged(old(posted[..]), metrics)[k]
      invariant forall k :: i <= k < posted.Length ==> posted[k] == old(posted[k])
    {
      if i < |metrics| {
        posted[i] := Update(posted[i], metrics[i]);
      }
    }
  }

  /** `main`, the id list: the ids of the posted records, in posted order. */
  function Ids(posted: seq<Record>): seq<string> {
    seq(|posted|, i requires 0 <= i < |posted| => posted[i].id.GetOr(""))
  }

  /** The list handed to the publisher: the draft dicts themselves. */
  function Items(drafts: seq<Draft>): seq<Item> {
    seq(|drafts|, i requires 0 <= i < |drafts| => DraftItem(Some(drafts[i].kind), drafts[i].text))
  }

  /** `hashtags[0]` raises IndexError (caught by `main`, which then returns None) when there is no hashtag and a draft is short. */
  predicate HashtagRaises(drafts: seq<Draft>, hashtags: seq<string>) {
    hashtags == [] && exists i :: 0 <= i < |drafts| && |drafts[i].text| < HashtagRoom
  }

  function FirstHashtag(hashtags: seq<string>): string {
    if hashtags == [] then "" else hashtags[0]
  }

  /** The result record of one run. */
  datatype RunSummary = RunSummary(
    timestamp: string,
    trendsUsed: seq<string>,
    hashtagsUsed: seq<string>,
    tweetsPosted: seq<Record>,
    insights: Option<Insights>,
    hypothesis: Hypothesis)

  /** The records the publisher returns in a run that reaches it. */
  function PostedInRun(drafts: seq<Draft>, hashtags: seq<string>, postCalls: seq<PostCall>): seq<Record>
    requires |postCalls| == |drafts|
  {
    Published(Items(TaggedAll(drafts, FirstHashtag(hashtags))), postCalls)
  }

  /** Every record has a non-empty id. */
  predicate AllIdentified(records: seq<Record>) {
    forall i :: 0 <= i < |records| ==> records[i].id.Some? && records[i].id.value != ""
  }

  /** The tail of a run once tweets were posted: track their ids, merge by position, optimise. */
  function Analysed(timestamp: string, patterns: seq<string>, hashtags: seq<string>,
                    posted: seq<Record>, lookups: seq<Lookup>): (run: RunSummary)
    requires |lookups| == |posted|
    ensures |run.tweetsPosted| == |posted|
    ensures AllIdentified(posted) ==> AllIdentified(run.tweetsPosted)
  {
    var ids := Ids(posted);
    MergeKeepsIdentity(posted, ids, lookups);
    var merged := Merged(posted, TrackedAll(ids, lookups));
    var (insights, hypothesis) := Optimized(merged);
    RunSummary(timestamp, patterns, hashtags, merged, insights, hypothesis)
  }

  /** The batch returns at most one record per item, each with a non-empty id. */
  lemma PostedShape(items: seq<Item>, postCalls: seq<PostCall>)
    requires |items| == |postCalls|
    ensures |Published(items, postCalls)| <= |items| && AllIdentified(Published(items, postCalls))
  {
    PublishedSelectsPosted(items, postCalls);
    IdsFollowPosted(items, postCalls);
  }

  /** The outcome of one run. The i-th id tracked uses `lookups[i]`. */
  function Cycle(timestamp: string, patterns: seq<string>, hashtags: seq<string>, drafts: seq<Draft>,
                 postCalls: seq<PostCall>, lookups: seq<Lookup>): (run: Option<RunSummary>)
    requires |postCalls| == |drafts| && |lookups| == |drafts|
    ensures run.Some? ==> drafts != [] && !HashtagRaises(drafts, hashtags)
    ensures run.Some? ==> 0 < |run.value.tweetsPosted| <= |drafts|
    ensures run.Some? ==> AllIdentified(run.value.tweetsPosted)
  {
    if drafts == [] || HashtagRaises(drafts, hashtags) then None
    else
      var posted := PostedInRun(drafts, hashtags, postCalls);
      if posted == [] then None
      else
        PostedShape(Items(TaggedAll(drafts, FirstHashtag(hashtags))), postCalls);
        Some(Analysed(timestamp, patterns, hashtags, posted, lookups[..|posted|]))
  }

  /** `main`, the hashtag loop on a copy of the drafts: the hashtag step, returning the tagged drafts. */
  method TagDrafts(drafts: seq<Draft>, tag: string) returns (tagged: seq<Draft>)
    ensures tagged == TaggedAll(drafts, tag)
  {
    var tweets := new Draft[|drafts|](i requires 0 <= i < |drafts| => drafts[i]);
    assert tweets[..] == drafts;
    AppendHashtag(tweets, tag);
    tagged := tweets[..];
  }

  /** `main`, step 4: track the posted ids and merge the metrics into the posted records by position. */
  method TrackAndMerge(posted: seq<Record>, lookups: seq<Lookup>) returns (merged: seq<Record>)
    requires |lookups| == |posted|
    ensures merged == Merged(posted, TrackedAll(Ids(posted), lookups))
  {
    var ids := Ids(posted);
    var metrics, _ := TrackMultipleTweets(ids, lookups, 60);
    var records := new Record[|posted|](i requires 0 <= i < |posted| => posted[i]);
    assert records[..] == posted;
    MergeMetrics(records, metrics);
    merged := records[..];
  }

  /** `main`: one run of the pipeline, with the seconds it spends sleeping. */
  method RunCycle(timestamp: string, patterns: seq<string>, hashtags: seq<string>, drafts: seq<Draft>,
                  postCalls: seq<PostCall>, lookups: seq<Lookup>)
    returns (summary: Option<RunSummary>, slept: nat)
    requires |postCalls| == |drafts| && |lookups| == |drafts|
    ensures summary == Cycle(timestamp, patterns, hashtags, drafts, postCalls, lookups)
    ensures drafts == [] || HashtagRaises(drafts, hashtags) ==> summary.None? && slept == 0
    ensures summary.Some? ==> slept == Delays(postCalls, |drafts|) * (PostDelayMinutes * 60) + EngagementWaitSeconds
  {
    if drafts == [] || HashtagRaises(drafts, hashtags) {
      return None, 0;
    }
    var tagged := TagDrafts(drafts, FirstHashtag(hashtags));
    var items := Items(tagged);
    var posted;
    posted, slept := PostMultipleTweets(items, postCalls, PostDelayMinutes);
    if posted == [] {
      return None, slept;
    }
    slept := slept + EngagementWaitSeconds;
    PublishedSelectsPosted(items, postCalls);
    var merged := TrackAndMerge(posted, lookups[..|posted|]);
    var insights, hypothesis := Optimize(merged);
    summary := Some(RunSummary(timestamp, patterns, hashtags, merged, insights, hypothesis));
  }

  // ---------------------------------------------------------------------------------------------
  // Properties

  /** The generator always yields three drafts, so the "no tweets generated" abort never fires on its output. */
  lemma GeneratedDraftsNeverAbort(reply: Option<string>)
    ensures ParseReply(reply) != []
    ensures |ParseReply(reply)| == 3
  {
    ParseWellFormed(reply);
  }

  /**
   * A run yields nothing exactly when there are no drafts, when `hashtags[0]` is needed and missing,
   * or when nothing was posted; otherwise it holds one record per posted tweet, and the insights
   * count them all.
   */
  lemma CycleAbortRules(timestamp: string, patterns: seq<string>, hashtags: seq<string>, drafts: seq<Draft>,
                        postCalls: seq<PostCall>, lookups: seq<Lookup>)
    requires |postCalls| == |drafts| && |lookups| == |drafts|
    ensures var s := Cycle(timestamp, patterns, hashtags, drafts, postCalls, lookups);
      && (s.None? <==> drafts == [] || HashtagRaises(drafts, hashtags) || PostedInRun(drafts, hashtags, postCalls) == [])
      && (s.Some? ==> |s.value.tweetsPosted| == |PostedInRun(drafts, hashtags, postCalls)| <= |drafts|)
      && (s.Some? ==> s.value.insights.Some? && s.value.insights.value.totalTweetsAnalyzed == |s.value.tweetsPosted|)
  {
    var items := Items(TaggedAll(drafts, FirstHashtag(hashtags)));
    PublishedSelectsPosted(items, postCalls);
  }

  /** The hashtag step keeps the number, order and types of the drafts; a short draft grows by one space and the tag, a long one is untouched. */
  lemma TaggingEffect(drafts: seq<Draft>, tag: string)
    ensures |TaggedAll(drafts, tag)| == |drafts|
    ensures forall i :: 0 <= i < |drafts| ==> TaggedAll(drafts, tag)[i].kind == drafts[i].kind
    ensures forall i :: 0 <= i < |drafts| && |drafts[i].text| < HashtagRoom ==>
      TaggedAll(drafts, tag)[i].text == drafts[i].text + " " + tag &&
      |TaggedAll(drafts, tag)[i].text| == |drafts[i].text| + 1 + |tag|
    ensures forall i :: 0 <= i < |drafts| && |drafts[i].text| >= HashtagRoom ==> TaggedAll(drafts, tag)[i] == drafts[i]
  {
  }

  /** Each posted record has its id, and the id list follows the posted records in order. */
  lemma IdsFollowPosted(items: seq<Item>, postCalls: seq<PostCall>)
    requires |items| == |postCalls|
    ensures var posted := Published(items, postCalls);
      |Ids(posted)| == |posted| && forall i :: 0 <= i < |posted| ==> posted[i].id == Some(Ids(posted)[i]) && Ids(posted)[i] != ""
  {
    PublishedSelectsPosted(items, postCalls);
  }

  /** Merging the same metrics again changes nothing, and merging no metrics leaves the records as they were. */
  lemma MergeLaws(posted: seq<Record>, metrics: seq<Record>)
    ensures Merged(Merged(posted, metrics), metrics) == Merged(posted, metrics)
    ensures Merged(posted, []) == posted
  {
    var once := Merged(posted, metrics);
    forall i | 0 <= i < |posted| && i < |metrics| ensures Merged(once, metrics)[i] == once[i] {
      UpdateLaws(posted[i], metrics[i]);
    }
  }

  /**
   * The merge never touches a record's id, text, type or posting time, since tracked metrics carry
   * none of those keys; a record with a metrics record at its position takes that record's tweet id,
   * counters, creation time and rate, and the others stay as they were.
   */
  lemma MergeKeepsIdentity(posted: seq<Record>, ids: seq<string>, lookups: seq<Lookup>)
    requires |ids| == |lookups|
    ensures var metrics := TrackedAll(ids, lookups);
      var merged := Merged(posted, metrics);
      && |merged| == |posted|
      && (forall i :: 0 <= i < |posted| ==>
            merged[i].id == posted[i].id && merged[i].text == posted[i].text &&
            merged[i].kind == posted[i].kind && merged[i].postedAt == posted[i].postedAt)
      && (forall i :: 0 <= i < |posted| && i < |metrics| ==>
            merged[i].tweetId == metrics[i].tweetId && merged[i].likes == metrics[i].likes &&
            merged[i].retweets == metrics[i].retweets && merged[i].replies == metrics[i].replies &&
            merged[i].quotes == metrics[i].quotes && merged[i].bookmarks == metrics[i].bookmarks &&
            merged[i].impressions == metrics[i].impressions && merged[i].createdAt == metrics[i].createdAt &&
            merged[i].engagementRate == metrics[i].engagementRate)
      && (forall i :: |metrics| <= i < |posted| ==> merged[i] == posted[i])
  {
    TrackedAllIsSubsequence(ids, lookups);
  }

  /** With no failed lookup, every record is merged with the metrics of its own id. */
  lemma AlignedWithoutFailures(items: seq<Item>, postCalls: seq<PostCall>, lookups: seq<Lookup>)
    requires |items| == |postCalls|
    requires |lookups| == |Published(items, postCalls)|
    requires forall i :: 0 <= i < |lookups| ==> lookups[i].Found?
    ensures var posted := Published(items, postCalls);
      var merged := Merged(posted, TrackedAll(Ids(posted), lookups));
      forall i :: 0 <= i < |posted| ==> merged[i].tweetId == posted[i].id
  {
    var posted := Published(items, postCalls);
    IdsFollowPosted(items, postCalls);
    NoFailureKeepsAlignment(Ids(posted), lookups);
  }

  /** Every lookup before position `j` succeeded. */
  predicate FoundBefore(lookups: seq<Lookup>, j: nat) {
    j <= |lookups| && forall i :: 0 <= i < j ==> lookups[i].Found?
  }

  /**
   * The positional merge misaligns after a drop: when the lookups before position `j` succeed, the
   * one at `j` fails and the next succeeds, record `j` keeps its own id but receives the metrics of
   * tweet `j + 1`.
   */
  lemma MisalignedAfterDrop(posted: seq<Record>, lookups: seq<Lookup>, j: nat)
    requires |lookups| == |posted| && j + 1 < |posted|
    requires FoundBefore(lookups, j) && !lookups[j].Found? && lookups[j + 1].Found?
    ensures var ids := Ids(posted);
      var merged := Merged(posted, TrackedAll(ids, lookups));
      merged[j].id == posted[j].id && merged[j].tweetId == Some(ids[j + 1])
  {
    var ids := Ids(posted);
    TrackedAfterDrop(ids, lookups, j);
    TrackedAllIsSubsequence(ids, lookups);
  }

  /** After the first failed lookup at `j`, the tracker's record `j` is the next id's. */
  lemma {:induction false} TrackedAfterDrop(ids: seq<string>, lookups: seq<Lookup>, j: nat)
    requires |ids| == |lookups| && j + 1 < |ids|
    requires FoundBefore(lookups, j) && !lookups[j].Found? && lookups[j + 1].Found?
    ensures |TrackedAll(ids, lookups)| > j && TrackedAll(ids, lookups)[j].tweetId == Some(ids[j + 1])
    decreases |ids|
  {
    var n := |ids| - 1;
    var prev := TrackedAll(ids[..n], lookups[..n]);
    assert TrackedAll(ids, lookups)[..|prev|] == prev;
    if n > j + 1 {
      assert lookups[..n][j] == lookups[j] && lookups[..n][j + 1] == lookups[j + 1] && ids[..n][j + 1] == ids[j + 1];
      assert FoundBefore(lookups[..n], j);
      TrackedAfterDrop(ids[..n], lookups[..n], j);
    } else {
      var ids0, lookups0 := ids[..j], lookups[..j];
      NoFailureKeepsAlignment(ids0, lookups0);
      assert ids[..n][..j] == ids0 && lookups[..n][..j] == lookups0;
      assert Tracked(ids[..n][j], lookups[..n][j]).None?;
      assert |prev| == j;
      assert Tracked(ids[n], lookups[n]).Some?;
    }
  }

  /** Two posts, the first lookup failing: the first record, id "a", is given the metrics of "b". */
  lemma MisalignmentExample(m: Counters)
    ensures var posted := [EmptyRecord.(id := Some("a")), EmptyRecord.(id := Some("b"))];
      var merged := Merged(posted, TrackedAll(Ids(posted), [Lookup.Raised, Found(m, "t")]));
      merged[0].id == Some("a") && merged[0].tweetId == Some("b") && merged[1] == posted[1]
  {
    var posted := [EmptyRecord.(id := Some("a")), EmptyRecord.(id := Some("b"))];
    var lookups := [Lookup.Raised, Found(m, "t")];
    MisalignedAfterDrop(posted, lookups, 0);
    var ids := Ids(posted);
    assert ids == ["a", "b"];
    assert ids[..1] == ["a"] && lookups[..1] == [Lookup.Raised];
    assert TrackedAll(ids[..1], lookups[..1]) == [] by {
      assert ids[..1][..0] == [];
    }
  }

}
