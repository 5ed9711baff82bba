/**
 * The dictionaries that travel through the pipeline. The publisher creates
 * `{id, text, type, posted_at}`, the tracker creates `{tweet_id, likes, retweets, replies,
 * quotes, bookmarks, impressions, created_at, engagement_rate}`, the orchestrator merges the
 * second into the first with `dict.update`, and the optimiser reads keys with defaults.
 * One record type covers all of them: every key is an optional field, absent meaning the key
 * is not in the dict. The `type` key is the field `kind` (a keyword in Dafny).
 */
module Records {
  import opened Wrappers

  datatype Record = Record(
    id: Option<string>,
    text: Option<string>,
    kind: Option<string>,
    postedAt: Option<real>,
    tweetId: Option<string>,
    likes: Option<int>,
    retweets: Option<int>,
    replies: Option<int>,
    quotes: Option<int>,
    bookmarks: Option<int>,
    impressions: Option<int>,
    createdAt: Option<string>,
    engagementRate: Option<real>)

  /** `{}` */
  const EmptyRecord := Record(None, None, None, None, None, None, None, None, None, None, None, None, None)

  /** The value a key has after `update`: the incoming one when the incoming dict has the key. */
  function Override<T>(base: Option<T>, incoming: Option<T>): Option<T> {
    if incoming.Some? then incoming else base
  }

  /** After `update`, a key holds the incoming dict's value when that dict has the key, and the base's otherwise. */
  predicate Takes<T(==)>(after: Option<T>, base: Option<T>, incoming: Option<T>) {
    (incoming.Some? ==> after == incoming) && (incoming.None? ==> after == base)
  }

  /** `r.update(m)`: every key of `m` takes `m`'s value, every other key keeps `r`'s. */
  function Update(r: Record, m: Record): (u: Record)
    ensures Takes(u.id, r.id, m.id) && Takes(u.text, r.text, m.text) && Takes(u.kind, r.kind, m.kind)
    ensures Takes(u.postedAt, r.postedAt, m.postedAt) && Takes(u.tweetId, r.tweetId, m.tweetId)
    ensures Takes(u.likes, r.likes, m.likes) && Takes(u.retweets, r.retweets, m.retweets)
    ensures Takes(u.replies, r.replies, m.replies) && Takes(u.quotes, r.quotes, m.quotes)
    ensures Takes(u.bookmarks, r.bookmarks, m.bookmarks) && Takes(u.impressions, r.impressions, m.impressions)
    ensures Takes(u.createdAt, r.createdAt, m.createdAt) && Takes(u.engagementRate, r.engagementRate, m.engagementRate)
  {
    Record(
      Override(r.id, m.id),
      Override(r.text, m.text),
      Override(r.kind, m.kind),
      Override(r.postedAt, m.postedAt),
      Override(r.tweetId, m.tweetId),
      Override(r.likes, m.likes),
      Override(r.retweets, m.retweets),
      Override(r.replies, m.replies),
      Override(r.quotes, m.quotes),
      Override(r.bookmarks, m.bookmarks),
      Override(r.impressions, m.impressions),
      Override(r.createdAt, m.createdAt),
      Override(r.engagementRate, m.engagementRate))
  }

  /** Updating with `{}` changes nothing, and updating twice with the same dict is updating once. */
  lemma UpdateLaws(r: Record, m: Record)
    ensures Update(r, EmptyRecord) == r
    ensures Update(Update(r, m), m) == Update(r, m)
  {
  }

  /** The dict carries none of the publisher's keys `id`, `text`, `type`, `posted_at`. */
  predicate HasNoPostKeys(m: Record) {
    m.id.None? && m.text.None? && m.kind.None? && m.postedAt.None?
  }
}
