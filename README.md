# TweetGenerator, modelled in Dafny

A model of the decision-making core of TweetGenerator, a Python bot that writes three tweets with a
generative language model, posts them, collects their public metrics and derives a strategy for the
next run. The model covers five pieces:

- the parsing of the language model's reply into three drafts (hook, list, question), with its
  cleaning, truncation and padding steps and its three tiers of canned drafts (`GenerateTweets`,
  with the code-fence step on its own in `CodeFences`);
- the publisher: the 280-character truncation, the simulated `sim_<clock>` id used when the API call
  raises, and the batch poster with its inter-tweet delay rule (`PostTweet`);
- the metrics tracker: the engagement rate, the per-tweet metrics record and the batch tracker
  that drops failed lookups (`TrackMetrics`);
- the strategy optimiser: the best tweet by likes + 2·retweets, the averages, the per-type
  grouping and best type, and the recommendation table (`OptimizeStrategy`);
- the orchestrator `main`: the two abort checks, the in-place hashtag step, posting with a
  30-minute delay, the 300-second wait, the id extraction and the positional merge of metrics into
  the posted records (`Orchestrator`).

Everything outside the program (the language model, the platform API, the clock) is a parameter: a
reply is an `Option<string>` (`None` when the call raised), a post attempt is a `PostCall` (no
client, accepted with an id, or raised, with the two clock readings the code takes: the whole seconds
used for the simulated id and the later `time.time()` stored as `posted_at`), a metrics
lookup is a `Lookup` (no client, raised, no data, or found). Sleeps are returned as a number of
seconds instead of being performed. Dictionaries are the `Record` datatype of `records.dfy`, one
`Option` per key, and `dict.update` is `Records.Update`. The Python string operations the core uses
(`strip` with Python's whitespace set, `split`, `startswith` with a tuple, `in`, slicing, decimal
formatting of an integer) are written out in `strings.dfy`.

Where the source updates lists in place (the hashtag loop, the merge loop) the model uses arrays
and `modifies`; the loops of the generator, publisher, tracker and optimiser are methods with loop
invariants, each proved equal to a specification function, and the properties are proved about
those functions.

Behaviours of the code that the proofs make explicit:

- A reply that begins with a code fence is parsed as empty text: splitting on the fence gives an
  empty first part, which is not code-like, so it is chosen. All three drafts then come from the
  first fallback tier (`GenerateTweets.LeadingFenceUsesFirstTier`).
- Validation is all-or-nothing: one padded draft outside 20..280 characters replaces all three
  with the second tier (`GenerateTweets.ValidationAllOrNothing`).
- The merge in `main` is positional while the tracker drops failed lookups, so after a failed
  lookup a record receives the metrics of a later tweet (`Orchestrator.MisalignedAfterDrop`).

## Model

| member | source | states |
|---|---|---|
| Strings.StripLeft | generate_tweets.py:53 | the result is a suffix of the input; every character removed is Python whitespace and the result does not start with one |
| Strings.StripRight | generate_tweets.py:53 | the result is a prefix of the input; every character removed is Python whitespace and the result does not end with one |
| Strings.Strip | generate_tweets.py:53 | `strip()` never lengthens the text and leaves no whitespace at either end |
| Strings.StripIsTrimmedSlice | generate_tweets.py:53 | `strip()` yields a contiguous slice with only whitespace outside it and no whitespace at either end |
| Strings.StripIdempotent | generate_tweets.py:65 | stripping an already stripped line changes nothing |
| Strings.Split | generate_tweets.py:57-58 | `split` yields at least one part, the first part is a prefix of the text, and no part contains the separator |
| Strings.JoinSplit | generate_tweets.py:57-58 | joining the parts of a split with the separator gives back the original text |
| Strings.SplitAtLeftmost | generate_tweets.py:57-58 | `split` cuts at the leftmost occurrence of the separator: with more than one part, the separator occurs right after the first part and nowhere earlier, and the other parts are the split of the rest, which fixes the split of overlapping backtick runs |
| Strings.SplitWithoutSeparator | generate_tweets.py:65 | a text without the separator splits into itself alone |
| Strings.EmptyStartsWithNone | generate_tweets.py:60 | `startswith` with a tuple of non-empty prefixes never holds for the empty text (the tuple test is one of the prefixes starting the text) |
| Strings.ContainsIffOccurrence | generate_tweets.py:56 | the `in` test holds iff the substring occurs at some position of the text |
| Strings.Take | generate_tweets.py:81 | `s[:n]` has length min(len(s), n) and is a prefix of `s` |
| Strings.Decimal | post_tweet.py:31 | `str(int)` of a natural is a non-empty run of digits without a leading zero |
| Strings.DecimalRoundTrip | post_tweet.py:31 | reading the decimal digits back gives the number |
| Records.Update | main.py:61 | `dict.update`: every key of the incoming dict takes its value there, every other key keeps the old value |
| Records.UpdateLaws | main.py:61 | updating with an empty dict changes nothing, and updating twice with the same dict is updating once |
| Seqs.Filter | generate_tweets.py:68-72 | filtering never lengthens a list |
| Seqs.FilterMembership | generate_tweets.py:68-72 | an element survives a filter iff it was in the list and passes the test |
| Seqs.FilterAll | generate_tweets.py:94-97 | a filter returns the whole list iff every element passes |
| Seqs.SubsequenceSnoc | track_metrics.py:61-64 | appending to the longer list keeps a subsequence a subsequence |
| Seqs.SubsequenceOfInit | track_metrics.py:61-64 | dropping the last element of a subsequence keeps it a subsequence |
| GenerateTweets.TiersWellFormed | generate_tweets.py:85-115 | each canned tier is three drafts typed hook, list, question, each 20..280 characters long |
| CodeFences.StripCodeFences | generate_tweets.py:56-62 | the loop picks the first fence-separated part, stripped, that does not start with json, python, javascript or `{`, and keeps the text when every part does |
| CodeFences.FirstCodeFreeIndex | generate_tweets.py:59-62 | the chosen part is the one at the first index whose stripped part is not code-like, every earlier part is code-like, and the text is kept when none qualifies |
| CodeFences.FenceCharacterisation | generate_tweets.py:56-62 | with a fence in the text, the result is the stripped first non-code part of the split, or the text itself when all parts are code-like |
| GenerateTweets.LinesAreStripped | generate_tweets.py:65 | every line kept is non-empty and already stripped |
| GenerateTweets.CleanLinesOf | generate_tweets.py:68-72 | the loop keeps, in order, exactly the lines passing the structural-prefix, length > 10 and no-fence tests |
| GenerateTweets.CleanLinesMembership | generate_tweets.py:65-72 | a line is cleaned iff it is a stripped non-blank line of the text that passes the three tests |
| GenerateTweets.DraftsOf | generate_tweets.py:75-82 | the first min(3, n) cleaned lines become drafts typed hook, list, question in order, cut to 280 characters |
| GenerateTweets.PadToThree | generate_tweets.py:85-91 | missing slots are filled from the first tier at their own positions |
| GenerateTweets.PaddedShape | generate_tweets.py:75-91 | after padding there are exactly three drafts typed hook, list, question, each at most 280 characters |
| GenerateTweets.KeepInBounds | generate_tweets.py:94-97 | the loop keeps, in order, exactly the drafts of 20..280 characters |
| GenerateTweets.AllKeptWhenNoneDropped | generate_tweets.py:94-105 | if the filter keeps as many drafts as it was given, it kept all of them and each is in bounds |
| GenerateTweets.ValidatedTriple | generate_tweets.py:94-107 | validating a triple returns it unchanged when all three drafts are 20..280 characters long and the whole second tier otherwise |
| GenerateTweets.FilterDropsOne | generate_tweets.py:94-105 | one out-of-bounds draft makes the filter strictly shorter, which triggers the second tier |
| GenerateTweets.ParseReply | generate_tweets.py:53-115 | a failed model call gives the third tier; a reply gives either its padded triple unchanged or the whole second tier, never a mix |
| GenerateTweets.GenerateFromReply | generate_tweets.py:53-115 | the whole parse returns three well-formed drafts, and the third tier when the model call raised |
| GenerateTweets.ParseWellFormed | generate_tweets.py:53-115 | for every reply, including a failed call, the result is three drafts typed hook, list, question of 20..280 characters |
| GenerateTweets.ValidationAllOrNothing | generate_tweets.py:94-107 | the padded drafts are returned unchanged iff every draft taken from the reply has at least 20 characters; otherwise the second tier |
| GenerateTweets.ValidatedPadded | generate_tweets.py:94-105 | validation returns the padded drafts exactly when every line taken from the reply has at least 20 characters, and the second tier otherwise |
| CodeFences.LeadingFenceEmptiesText | generate_tweets.py:56-62 | a text starting with a fence is reduced to the empty string |
| GenerateTweets.EmptyTextPadsFirstTier | generate_tweets.py:65-91 | empty text has no lines and pads to exactly the first tier |
| GenerateTweets.LeadingFenceUsesFirstTier | generate_tweets.py:53-107 | a reply whose stripped text starts with a fence yields exactly the first fallback tier |
| PostTweet.Truncated | post_tweet.py:18-19 | the text sent has at most 280 characters; a text within the limit is sent unchanged; a longer one is its first 277 characters followed by "..." |
| PostTweet.PostedId | post_tweet.py:11-31 | no client gives no id; an accepted call gives the platform's id; a raised call gives `sim_` followed by digits whose value is the clock's whole seconds |
| PostTweet.PostOne | post_tweet.py:9-31 | no client gives no id and sends nothing; otherwise the truncated text is sent; an accepted call returns the platform's id and a raised call a `sim_` id of at least one digit |
| PostTweet.PostAndRecord | post_tweet.py:38-47 | one input yields a record exactly when its post returned a non-empty id, and that record is the input's published record |
| PostTweet.RaisedIsPosted | post_tweet.py:27-41 | a raised call still counts as posted, because its simulated `sim_` id is truthy |
| PostTweet.PostMultipleTweets | post_tweet.py:33-54 | the records returned are the batch's published records, and the seconds slept are the delay times the number of posted tweets that are not last in the input |
| PostTweet.PublishedSelectsPosted | post_tweet.py:37-47 | the records are exactly those of the posted inputs, in input order, each with its own id, original text, type (or "unknown") and the batch's `posted_at` reading |
| PostTweet.DelaysBounded | post_tweet.py:41-52 | there is at most one delay per posted tweet and never one after the last input |
| PostTweet.SleptIsDelaysTimesPause | post_tweet.py:49-52 | the seconds slept by the loop are the number of delays times the pause |
| TrackMetrics.EngagementRate | track_metrics.py:43-55 | 0 without positive impressions; otherwise rate × impressions = 100 × (likes + retweets + replies + quotes), non-negative for non-negative counts |
| TrackMetrics.BookmarksIgnored | track_metrics.py:45-50 | bookmarks do not enter the engagement rate |
| TrackMetrics.WorkedExample | track_metrics.py:43-55 | 18 engagements over 200 impressions rate 9.0; zero impressions rate 0 |
| TrackMetrics.MetricsRecord | track_metrics.py:27-38 | the record carries the tweet id, each of the six counters with 0 for a missing one, the creation time and the engagement rate of the counters, and none of the posting keys |
| TrackMetrics.RecordRateMatchesCounts | track_metrics.py:28-38 | a metrics record's rate is 100 × its own likes + retweets + replies + quotes over its own impressions, or 0 without impressions |
| TrackMetrics.TrackOne | track_metrics.py:8-41 | metrics exist iff the lookup found data, carry the tweet id, and the wait happens only with a client and a positive wait |
| TrackMetrics.TrackMultipleTweets | track_metrics.py:57-66 | the batch keeps the non-empty results in id order and never sleeps |
| TrackMetrics.TrackedAllIsSubsequence | track_metrics.py:57-66 | the batch is no longer than the ids, its tweet ids are a subsequence of the ids, and no record carries a posting key |
| TrackMetrics.TrackedAllSelectsFound | track_metrics.py:57-66 | the batch holds one record per successful lookup, in input order: record k is the metrics record of the k-th successful lookup's id, and every successful lookup is among them |
| TrackMetrics.FoundIsKept | track_metrics.py:61-64 | the metrics record of every successful lookup is in the batch |
| TrackMetrics.NoFailureKeepsAlignment | track_metrics.py:57-66 | with every lookup successful, record i belongs to id i |
| OptimizeStrategy.ArgMax | optimize_strategy.py:13 | Python's `max` with a key: a maximal position, the first among equals |
| OptimizeStrategy.BestTweetIndex | optimize_strategy.py:13 | the best tweet has the highest likes + 2·retweets and no earlier tweet ties it |
| OptimizeStrategy.AvgLikes | optimize_strategy.py:16 | mean likes × count = total likes, a missing count reading 0 |
| OptimizeStrategy.AvgRate | optimize_strategy.py:17 | mean engagement rate × count = total rate, a missing rate reading 0 |
| OptimizeStrategy.AvgLikesWithinRange | optimize_strategy.py:16 | the average lies between the least and the greatest likes |
| OptimizeStrategy.SumLikesBounds | optimize_strategy.py:16 | bounds on each like count bound the total |
| OptimizeStrategy.GroupLikes | optimize_strategy.py:20-25 | the grouping loop keys the dict by exactly the types seen, in first-seen order, each holding the likes of that type's tweets in order |
| OptimizeStrategy.KindListedIffOccurs | optimize_strategy.py:20-25 | a type is a key iff some tweet has it ("unknown" when absent) |
| OptimizeStrategy.KindsInOrderDistinct | optimize_strategy.py:23-24 | no type is listed twice |
| OptimizeStrategy.BucketEmptyIffAbsent | optimize_strategy.py:20-25 | a type's list is empty iff no tweet has that type |
| OptimizeStrategy.GroupsNonEmpty | optimize_strategy.py:27-28 | every group is non-empty, so its mean is defined, and a non-empty feedback has a group |
| OptimizeStrategy.GroupingPartitions | optimize_strategy.py:20-25 | the groups' sizes add up to the number of tweets |
| OptimizeStrategy.BestKindIndex | optimize_strategy.py:27-28 | the best type has the highest mean likes, the first in dict order among equals |
| OptimizeStrategy.BestKindBeatsEveryRecord | optimize_strategy.py:27-28 | the best type is one some tweet has, and no tweet's type has a higher mean |
| OptimizeStrategy.Recommendation | optimize_strategy.py:50-58 | the phrase for each of hook, list, question and unknown, and the default phrase exactly for every other type |
| OptimizeStrategy.RecommendationByTypeOnly | optimize_strategy.py:50-58 | the recommendation depends only on the type, and falls back to "Engaging, authentic content" exactly for types outside hook, list, question, unknown |
| OptimizeStrategy.Optimized | optimize_strategy.py:7-48 | no insights iff no feedback, then the no-data message; otherwise all tweets are counted, the best tweet is the first top-scoring one (`BestTweetIndex`), the means are `AvgLikes` and `AvgRate`, the best type is `BestKind`, which some tweet has and whose mean no tweet's type exceeds, and the advice repeats that type, the mean rate and the type's recommendation |
| OptimizeStrategy.Optimize | optimize_strategy.py:7-48 | empty feedback gives no insights and the no-data message; otherwise insights and advice assembled from the parts above |
| Orchestrator.AppendHashtag | main.py:33-35 | in place, each draft shorter than 250 characters gets a space and the hashtag appended; the others are unchanged |
| Orchestrator.TaggingEffect | main.py:33-35 | the step keeps the number, order and types of the drafts; a short draft grows by exactly 1 + the tag's length, a long one stays |
| Orchestrator.MergeMetrics | main.py:59-61 | in place, record i takes metrics record i's keys when there is one; later records are unchanged |
| Orchestrator.MergeKeepsIdentity | main.py:55-61 | the merge keeps every record's id, text, type and posting time, gives record i metrics record i's tweet id, counters, creation time and rate, and leaves records beyond the metrics unchanged |
| Orchestrator.MergeLaws | main.py:59-61 | merging the same metrics twice is merging once, and merging no metrics changes nothing |
| Orchestrator.IdsFollowPosted | main.py:55 | the id list has one non-empty id per posted record, in posted order |
| Orchestrator.AlignedWithoutFailures | main.py:55-61 | when every lookup succeeds each record is merged with the metrics of its own id |
| Orchestrator.MisalignedAfterDrop | main.py:56-61 | when the lookups before position j succeed, the one at j fails and the next succeeds, record j keeps its own id but receives the metrics of tweet j + 1 |
| Orchestrator.TrackedAfterDrop | track_metrics.py:57-66 | under the same conditions the tracker's record j belongs to id j + 1 |
| Orchestrator.MisalignmentExample | main.py:56-61 | posts "a" and "b", the lookup of "a" raising: record "a" carries tweet id "b" while record "b" stays unmerged |
| Orchestrator.TagDrafts | main.py:33-35 | the hashtag step applied to a copy of the drafts |
| Orchestrator.TrackAndMerge | main.py:55-61 | the posted records merged, by position, with the tracked metrics of their ids |
| Orchestrator.Analysed | main.py:55-65 | the analysed run keeps one record per posted tweet, and records that all had an id still all have one |
| Orchestrator.Cycle | main.py:14-92 | a run that yields a result had drafts and the hashtag it needed, and holds between one and as many records as drafts, each with a non-empty id |
| Orchestrator.RunCycle | main.py:14-92 | one run equals `Cycle`; no drafts or a missing hashtag stops it before posting with no sleep; a completed run sleeps 30 minutes per delay plus 300 seconds |
| Orchestrator.CycleAbortRules | main.py:28-47 | a run yields nothing exactly when there are no drafts, the hashtag is missing while needed, or nothing was posted; otherwise its records are as many as the posted ones, and its insights count them all |
| Orchestrator.GeneratedDraftsNeverAbort | main.py:26-30 | the generator's output always has three drafts, so the no-tweets abort never fires on it |

## Left out

- The language-model call, the prompt built from the trend patterns, and the model configuration: the reply text is a parameter.
- The platform client (`get_bearer_client`, `create_tweet`, `get_tweet`): each call's outcome is a parameter.
- `time.time()` and `datetime.now()`: clock readings are parameters.
- `time.sleep`: the model returns the seconds it would sleep instead.
- Logging: it has no effect on results.
- `trend_discovery`, `scheduler`, `config`, `test_bot` and `utils/twitter_client` are not part of this model. The trends and hashtags reach `main` as parameters, and the cooldown constant only matters through the explicit 30-minute delay `main` passes.
- Orchestrator.RunCycle: takes the generator's drafts as a parameter rather than calling the generator. `GeneratedDraftsNeverAbort` shows the generator's output always has three drafts.
- Orchestrator.RunCycle: the `IndexError` raised by `hashtags[0]` and caught by `main`'s handler is modelled as a check before the loop. It fires when there is no hashtag and some draft is short. The drafts tagged before the error are discarded in the source too.
- Orchestrator.RunCycle: `main`'s generic exception handler is modelled only for that `IndexError`. No other step of the core raises on the inputs modelled.
- OptimizeStrategy.Optimize: `round(…, 2)` on the averages is not modelled. The insights hold the exact means.
- OptimizeStrategy.Optimize: the hypothesis f-string is not rendered. Its parts are returned as a structured value: best type, exact mean rate and recommendation.
- TrackMetrics.EngagementRate: `round(…, 2)` and floating point are not modelled. The rate is the exact rational.
- TrackMetrics.TrackOne: the `{}` returned on failure and the `None` returned when the platform has no data are both "no metrics". The only caller treats both as falsy.
- PostTweet.PostMultipleTweets: non-dict items are modelled as plain text with type "unknown". Dict items without a `text` key are not modelled.
- PostTweet.PostOne: `media_ids` is not modelled. The core always passes none.
- Records: a dict is modelled with one optional field per key the core uses. The `type` key is the field `kind`, and key order is not modelled.
