/**
 * `post_tweet` and `post_multiple_tweets`. The platform client is an oracle: each post attempt is
 * described by a `PostCall` saying whether a client was obtained and what `create_tweet` did,
 * together with the two clock readings the code takes: `int(time.time())` inside `post_tweet`,
 * used for the simulated id, and the later `time.time()` stored as `posted_at`. Sleeps are counted
 * in seconds instead of being performed.
 */
module PostTweet {
  import opened Wrappers
  import opened Strings
  import opened Seqs
  import opened Records

  /** What the platform does with one post attempt. */
  datatype CreateResult =
    | NoClient            // get_bearer_client() returned None
    | Accepted(id: string) // create_tweet returned this id
    | Raised              // create_tweet (or reading its id) raised

  /** One post attempt: its outcome, the whole seconds `int(time.time())` read in `post_tweet`, and the later `time.time()` of the batch. */
  datatype PostCall = PostCall(result: CreateResult, clock: nat, postedAt: real)

  /** One element of the list handed to the batch: a draft dict (with or without a `type` key) or a bare string. */
  datatype Item = DraftItem(kind: Option<string>, text: string) | PlainItem(text: string)

  const MaxLength: nat := 280
  const Ellipsis: string := "..."
  const SimulatedPrefix: string := "sim_"

  /** The text handed to `create_tweet`: cut to 277 characters plus an ellipsis when over 280. */
  function Truncated(text: string): (sent: string)
    ensures |sent| <= MaxLength
    ensures |text| <= MaxLength ==> sent == text
    ensures |text| > MaxLength ==> |sent| == MaxLength && sent[..277] == text[..277] && sent[277..] == Ellipsis
  {
    if |text| > MaxLength then text[..277] + Ellipsis else text
  }

  /** The id `post_tweet` returns for a call. */
  function PostedId(call: PostCall): (id: Option<string>)
    ensures id.None? <==> call.result.NoClient?
    ensures call.result.Accepted? ==> id == Some(call.result.id)
    ensures call.result.Raised? ==> StartsWith(id.value, SimulatedPrefix) && |id.value| > |SimulatedPrefix|
    ensures call.result.Raised? ==> var digits := id.value[|SimulatedPrefix|..];
      (forall i :: 0 <= i < |digits| ==> '0' <= digits[i] <= '9') && DecimalValue(digits) == call.clock
  {
    match call.result
    case NoClient => None
    case Accepted(id) => Some(id)
    case Raised =>
      var digits := Decimal(call.clock);
      DecimalRoundTrip(call.clock);
      assert (SimulatedPrefix + digits)[|SimulatedPrefix|..] == digits;
      Some(SimulatedPrefix + digits)
  }

  /** What a publish attempt hands to the platform and what it returns. */
  datatype Posting = Posting(sent: Option<string>, id: Option<string>)

  /** `post_tweet`: post one text. */
  method PostOne(text: string, call: PostCall) returns (p: Posting)
    ensures call.result.NoClient? <==> p.sent.None?
    ensures call.result.NoClient? <==> p.id.None?
    ensures p.sent.Some? ==> p.sent.value == Truncated(text)
    ensures p.id == PostedId(call)
    ensures call.result.Accepted? ==> p.id == Some(call.result.id)
    ensures call.result.Raised? ==> p.id.Some? && StartsWith(p.id.value, SimulatedPrefix) && |p.id.value| > |SimulatedPrefix|
  {
    if call.result.NoClient? {
      return Posting(None, None);
    }
    var t := text;
    if |t| > MaxLength {
      t := t[..277] + Ellipsis;
    }
    match call.result {
      case Accepted(id) =>
        p := Posting(Some(t), Some(id));
      case Raised =>
        p := Posting(Some(t), Some(SimulatedPrefix + Decimal(call.clock)));
    }
  }

  /** `if tweet_id:` — an id counts as posted when it is present and not the empty string. */
  predicate Posted(call: PostCall) {
    var id := PostedId(call); id.Some? && id.value != ""
  }

  /** The `type` stored for an item: its own, or 'unknown' for a dict without one and for a bare string. */
  function ItemKind(item: Item): string {
    match item
    case DraftItem(Some(k), _) => k
    case DraftItem(None, _) => "unknown"
    case PlainItem(_) => "unknown"
  }

  /** The record appended for a posted item: the original, untruncated text. */
  function PostedRecord(item: Item, call: PostCall): Record
    requires Posted(call)
  {
    EmptyRecord.(id := PostedId(call), text := Some(item.text), kind := Some(ItemKind(item)), postedAt := Some(call.postedAt))
  }

  /** The records the batch returns for these items and calls. */
  function Published(items: seq<Item>, calls: seq<PostCall>): seq<Record>
    requires |items| == |calls|
    decreases |items|
  {
    if items == [] then []
    else
      var n := |items| - 1;
      Published(items[..n], calls[..n]) + (if Posted(calls[n]) then [PostedRecord(items[n], calls[n])] else [])
  }

  /** How many of the first |calls| items of an n-item batch are followed by a delay. */
  function Delays(calls: seq<PostCall>, n: nat): nat
    decreases |calls|
  {
    if calls == [] then 0
    else
      var k := |calls| - 1;
      Delays(calls[..k], n) + (if Posted(calls[k]) && k < n - 1 then 1 else 0)
  }

  /** `post_multiple_tweets`, the loop body: post one item of the batch and build its record when an id came back. */
  method PostAndRecord(item: Item, call: PostCall) returns (record: Option<Record>)
    ensures record.Some? <==> Posted(call)
    ensures record.Some? ==> record.value == PostedRecord(item, call)
  {
    var p := PostOne(item.text, call);
    if p.id.Some? && p.id.value != "" {
      record := Some(EmptyRecord.(id := p.id, text := Some(item.text), kind := Some(ItemKind(item)), postedAt := Some(call.postedAt)));
    } else {
      record := None;
    }
  }

  /**
   * Proof helper for the batch loop: the seconds slept so far, `pause` after each posted item of the
   * first |calls| that is not the last of `n`, summed without a multiplication so that the loop
   * invariant stays linear. `SleptIsDelaysTimesPause` shows it is `Delays` times `pause`.
   */
  function Slept(calls: seq<PostCall>, n: nat, pause: nat): nat
    decreases |calls|
  {
    if calls == [] then 0
    else
      var k := |calls| - 1;
      Slept(calls[..k], n, pause) + (if Posted(calls[k]) && k < n - 1 then pause else 0)
  }

  /** `post_multiple_tweets`: post each item in order, waiting `delayMinutes` after each posted item but the last. */
  method PostMultipleTweets(items: seq<Item>, calls: seq<PostCall>, delayMinutes: nat)
    returns (posted: seq<Record>, slept: nat)
    requires |calls| == |items|
    ensures posted == Published(items, calls)
    ensures slept == Delays(calls, |items|) * (delayMinutes * 60)
  {
    var pause := delayMinutes * 60;
    posted := [];
    slept := 0;
    var i := 0;
    while i < |items|
      invariant 0 <= i <= |items|
      invariant posted == Published(items[..i], calls[..i])
      invariant slept == Slept(calls[..i], |items|, pause)
    {
      PublishedStep(items, calls, i);
      assert calls[..i + 1][..i] == calls[..i];
      var record := PostAndRecord(items[i], calls[i]);
      if record.Some? {
        posted := posted + [record.value];
        if i < |items| - 1 {
          slept := slept + pause;
        }
      }
      i := i + 1;
    }
    assert items[..i] == items && calls[..i] == calls;
    SleptIsDelaysTimesPause(calls, |items|, pause);
  }

  /** Each delay lasts `pause` seconds. */
  lemma {:induction false} SleptIsDelaysTimesPause(calls: seq<PostCall>, n: nat, pause: nat)
    ensures Slept(calls, n, pause) == Delays(calls, n) * pause
    decreases |calls|
  {
    if calls != [] {
      var k := |calls| - 1;
      SleptIsDelaysTimesPause(calls[..k], n, pause);
      var d := Delays(calls[..k], n);
      assert (d + 1) * pause == d * pause + pause;
    }
  }

  /** Taking one more item adds that item's record when it was posted. */
  lemma PublishedStep(items: seq<Item>, calls: seq<PostCall>, i: nat)
    requires |items| == |calls| && i < |items|
    ensures Published(items[..i + 1], calls[..i + 1]) ==
      Published(items[..i], calls[..i]) + (if Posted(calls[i]) then [PostedRecord(items[i], calls[i])] else [])
  {
    assert items[..i + 1][..i] == items[..i] && calls[..i + 1][..i] == calls[..i];
  }

  // ---------------------------------------------------------------------------------------------
  // Properties

  /** A failed create still yields an id, so the item is recorded: failures are never skipped. */
  lemma RaisedIsPosted(call: PostCall)
    requires call.result.Raised?
    ensures Posted(call)
    ensures StartsWith(PostedId(call).value, SimulatedPrefix)
  {
  }

  /** The indices of the posted calls, in increasing order. */
  function PostedIndices(calls: seq<PostCall>): seq<nat>
    decreases |calls|
  {
    if calls == [] then []
    else
      var n := |calls| - 1;
      PostedIndices(calls[..n]) + (if Posted(calls[n]) then [n] else [])
  }

  /**
   * The batch output is exactly one record per posted item, in input order: the k-th record
   * belongs to the k-th posted index, whose item's original text and type it stores.
   */
  lemma PublishedSelectsPosted(items: seq<Item>, calls: seq<PostCall>)
    requires |items| == |calls|
    ensures var ix := PostedIndices(calls);
      && |Published(items, calls)| == |ix| <= |items|
      && (forall k :: 0 <= k < |ix| ==> ix[k] < |calls| && Posted(calls[ix[k]]))
      && (forall k, l :: 0 <= k < l < |ix| ==> ix[k] < ix[l])
      && (forall i :: 0 <= i < |calls| && Posted(calls[i]) ==> i in ix)
      && (forall k :: 0 <= k < |ix| ==> Published(items, calls)[k] == PostedRecord(items[ix[k]], calls[ix[k]]))
  {
    PostedIndicesShape(calls);
    PublishedAtIndices(items, calls);
  }

  /** The posted indices are increasing, each names a posted call, and every posted call is named. */
  lemma {:induction false} PostedIndicesShape(calls: seq<PostCall>)
    ensures var ix := PostedIndices(calls);
      && |ix| <= |calls|
      && (forall k :: 0 <= k < |ix| ==> ix[k] < |calls| && Posted(calls[ix[k]]))
      && (forall k, l :: 0 <= k < l < |ix| ==> ix[k] < ix[l])
      && (forall i :: 0 <= i < |calls| && Posted(calls[i]) ==> i in ix)
    decreases |calls|
  {
    if calls != [] {
      var n := |calls| - 1;
      PostedIndicesShape(calls[..n]);
      var ix := PostedIndices(calls);
      var ix0 := PostedIndices(calls[..n]);
      forall k | 0 <= k < |ix0| ensures ix0[k] < n && calls[..n][ix0[k]] == calls[ix0[k]] {
      }
      forall i | 0 <= i < |calls| && Posted(calls[i]) ensures i in ix {
        if i < n { assert calls[..n][i] == calls[i]; }
      }
    }
  }

  /** Record k of the batch is the record of the k-th posted index. */
  lemma {:induction false} PublishedAtIndices(items: seq<Item>, calls: seq<PostCall>)
    requires |items| == |calls|
    ensures var ix := PostedIndices(calls);
      && |Published(items, calls)| == |ix|
      && forall k :: 0 <= k < |ix| ==> ix[k] < |calls| && Posted(calls[ix[k]]) && Published(items, calls)[k] == PostedRecord(items[ix[k]], calls[ix[k]])
    decreases |items|
  {
    if items != [] {
      var n := |items| - 1;
      PublishedAtIndices(items[..n], calls[..n]);
      PostedIndicesShape(calls[..n]);
      var ix0 := PostedIndices(calls[..n]);
      forall k | 0 <= k < |ix0| ensures items[..n][ix0[k]] == items[ix0[k]] && calls[..n][ix0[k]] == calls[ix0[k]] {
      }
    }
  }

  /** Delays are taken only after posted items that are not last: at most n-1 of them and at most one per record. */
  lemma {:induction false} DelaysBounded(items: seq<Item>, calls: seq<PostCall>)
    requires |items| == |calls|
    ensures Delays(calls, |items|) <= |Published(items, calls)|
    ensures |items| > 0 ==> Delays(calls, |items|) <= |items| - 1
    decreases |items|
  {
    DelaysUpTo(calls, |items|);
    DelaysOnPrefix(items, calls, |items|);
  }

  lemma {:induction false} DelaysUpTo(calls: seq<PostCall>, n: nat)
    ensures Delays(calls, n) <= if |calls| < n then |calls| else if n == 0 then 0 else n - 1
    decreases |calls|
  {
    if calls != [] {
      DelaysUpTo(calls[..|calls| - 1], n);
    }
  }

  lemma {:induction false} DelaysOnPrefix(items: seq<Item>, calls: seq<PostCall>, n: nat)
    requires |items| == |calls|
    ensures Delays(calls, n) <= |Published(items, calls)|
    decreases |items|
  {
    if items != [] {
      DelaysOnPrefix(items[..|items| - 1], calls[..|calls| - 1], n);
    }
  }
}
