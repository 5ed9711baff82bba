/**
 * The reply-parsing half of `generate_tweets`: the generative model's free-text reply is turned
 * into exactly three drafts typed hook, list and question, falling back to canned drafts in three
 * tiers. The model call itself is the parameter `reply`: `None` when the call (or reading its
 * text) raised, `Some(text)` otherwise.
 */
module GenerateTweets {
  import opened Wrappers
  import opened Seqs
  import opened Strings
  import opened CodeFences

  /** A `{"type": ..., "text": ...}` draft. */
  datatype Draft = Draft(kind: string, text: string)

  /** The categories, in the order the first three lines are assigned to them. */
  const Kinds: seq<string> := ["hook", "list", "question"]

  /** A line starting with one of these is taken for formatting and dropped. */
  const StructuralPrefixes: seq<string> := ["{", "}", "\"", "[", "]", "TWEET", "Tweet"]

  const MaxLength: nat := 280
  const MinLength: nat := 20
  /** Lines of at most this many characters are dropped as too short. */
  const ShortLine: nat := 10

  /** Pads the slots the reply did not fill. */
  const FirstTier: seq<Draft> := [
    Draft("hook", "The most underrated skill in 2025? Learning to say no to good opportunities so you can say yes to great ones. #Success"),
    Draft("list", "3 things that changed my mindset:\n1. Progress > Perfection\n2. Consistency > Intensity\n3. Systems > Goals #Growth"),
    Draft("question", "What's one belief you held 5 years ago that you've completely changed your mind about? #PersonalGrowth")
  ]

  /** Replaces the whole triple when a padded draft is out of bounds. */
  const SecondTier: seq<Draft> := [
    Draft("hook", "Everyone talks about work-life balance, but what you really need is work-life harmony. Here's the difference... #WorkLife"),
    Draft("list", "5 micro-habits that compound:\n1. Read 10 pages daily\n2. Walk after meals\n3. Write 3 gratitudes\n4. Drink water first\n5. No phone for 1st hour #Habits"),
    // the source file stores the emoji as the four code points U+00F0 U+0178 U+2018 U+2021
    Draft("question", "If you could master one skill instantly, what would it be and why? Drop your answer below! \U{F0}\U{178}\U{2018}\U{2021} #Skills")
  ]

  /** Returned when the model call fails. */
  const ThirdTier: seq<Draft> := [
    Draft("hook", "The biggest lie we tell ourselves: 'I'll start tomorrow.' Tomorrow never comes. Start today, even if it's imperfect. #Motivation"),
    Draft("list", "4 rules for better decisions:\n1. Sleep on big choices\n2. Ask 'What would I regret not trying?'\n3. Consider the 10-10-10 rule\n4. Trust your gut #DecisionMaking"),
    Draft("question", "What's one small change you made that had a surprisingly big impact on your life? #LifeHacks")
  ]

  /** The length check of the validation step. */
  predicate InBounds(d: Draft) {
    MinLength <= |d.text| <= MaxLength
  }

  /** What the generator promises its caller: three drafts, typed hook, list, question, each of a postable length. */
  predicate WellFormed(tweets: seq<Draft>) {
    |tweets| == 3 && forall i :: 0 <= i < 3 ==> tweets[i].kind == Kinds[i] && InBounds(tweets[i])
  }

  /** Every canned tier is itself a valid answer (the literal lengths are 118/112/102, 121/148/103 and 128/158/92). */
  lemma TiersWellFormed()
    ensures WellFormed(FirstTier) && WellFormed(SecondTier) && WellFormed(ThirdTier)
  {
    FirstTierWellFormed();
    SecondTierWellFormed();
    ThirdTierWellFormed();
  }

  lemma FirstTierWellFormed()
    ensures WellFormed(FirstTier)
  {
  }

  lemma SecondTierWellFormed()
    ensures WellFormed(SecondTier)
  {
  }

  lemma ThirdTierWellFormed()
    ensures WellFormed(ThirdTier)
  {
  }

  // ---------------------------------------------------------------------------------------------
  // Specification of each step

  /** `[line.strip() for line in rows if line.strip()]` */
  function NonBlank(rows: seq<string>): seq<string>
    decreases |rows|
  {
    if rows == [] then []
    else NonBlank(rows[..|rows| - 1]) + (if Strip(rows[|rows| - 1]) != "" then [Strip(rows[|rows| - 1])] else [])
  }

  /** The stripped, non-blank lines of a text. */
  function Lines(text: string): seq<string> {
    NonBlank(Split(text, "\n"))
  }

  /** The filter applied to each line. */
  predicate Keeps(line: string) {
    !StartsWithAny(line, StructuralPrefixes) && |line| > ShortLine && !StartsWith(line, Fence)
  }

  /** The cleaned lines, in their original order. */
  function CleanLines(lines: seq<string>): seq<string> {
    Filter(Keeps, lines)
  }

  function Min(a: nat, b: nat): nat { if a <= b then a else b }

  /** The first three cleaned lines, typed in order and cut to 280 characters. */
  function Drafted(clean: seq<string>): seq<Draft> {
    seq(Min(3, |clean|), i requires 0 <= i < Min(3, |clean|) => Draft(Kinds[i], Take(clean[i], MaxLength)))
  }

  /** The missing slots filled from the first tier. */
  function Padded(tweets: seq<Draft>): seq<Draft>
    requires |tweets| <= 3
  {
    tweets + FirstTier[|tweets|..]
  }

  /** The drafts within bounds, or the second tier when fewer than three are. */
  function Validated(tweets: seq<Draft>): seq<Draft> {
    var valid := Filter(InBounds, tweets);
    if |valid| < 3 then SecondTier else valid
  }

  /** The padded triple a successful reply leads to, before validation. */
  function PaddedFor(reply: string): seq<Draft> {
    Padded(Drafted(CleanLines(Lines(RemoveFences(Strip(reply))))))
  }

  /** The generator's result for a model reply (`None` when the model call raised). */
  function ParseReply(reply: Option<string>): (tweets: seq<Draft>)
    ensures reply.None? ==> tweets == ThirdTier
    ensures reply.Some? ==> tweets == PaddedFor(reply.value) || tweets == SecondTier
  {
    match reply
    case None => ThirdTier
    case Some(r) =>
      var padded := PaddedFor(r);
      PaddedShape(CleanLines(Lines(RemoveFences(Strip(r)))));
      ValidatedTriple(padded);
      Validated(padded)
  }

  // ---------------------------------------------------------------------------------------------
  // The generator as the source runs it

  /** `generate_tweets`, the clean-lines loop: the lines that pass the structural and length filter, in order. */
  method CleanLinesOf(lines: seq<string>) returns (cleanLines: seq<string>)
    ensures cleanLines == CleanLines(lines)
  {
    cleanLines := [];
    var j := 0;
    while j < |lines|
      invariant 0 <= j <= |lines|
      invariant cleanLines == Filter(Keeps, lines[..j])
    {
      assert lines[..j + 1][..j] == lines[..j];
      var line := lines[j];
      if !StartsWithAny(line, StructuralPrefixes) {
        if |line| > ShortLine && !StartsWith(line, Fence) {
          cleanLines := cleanLines + [line];
        }
      }
      j := j + 1;
    }
    assert lines[..j] == lines;
  }

  /** `generate_tweets`, the drafting loop: one draft per cleaned line, at most three. */
  method DraftsOf(cleanLines: seq<string>) returns (tweets: seq<Draft>)
    ensures tweets == Drafted(cleanLines)
  {
    tweets := [];
    var k := 0;
    while k < Min(3, |cleanLines|)
      invariant 0 <= k <= Min(3, |cleanLines|)
      invariant tweets == Drafted(cleanLines)[..k]
    {
      tweets := tweets + [Draft(Kinds[k], Take(cleanLines[k], MaxLength))];
      k := k + 1;
    }
  }

  /** `generate_tweets`, the padding loop: append first-tier drafts until there are three. */
  method PadToThree(drafted: seq<Draft>) returns (tweets: seq<Draft>)
    requires |drafted| <= 3
    ensures tweets == Padded(drafted)
  {
    tweets := drafted;
    while |tweets| < 3
      invariant |drafted| <= |tweets| <= 3
      invariant tweets == Padded(drafted)[..|tweets|]
      decreases 3 - |tweets|
    {
      tweets := tweets + [FirstTier[|tweets|]];
    }
  }

  /** `generate_tweets`, the validation filter: the drafts whose length is within [20, 280], in order. */
  method KeepInBounds(tweets: seq<Draft>) returns (valid: seq<Draft>)
    ensures valid == Filter(InBounds, tweets)
  {
    valid := [];
    var m := 0;
    while m < |tweets|
      invariant 0 <= m <= |tweets|
      invariant valid == Filter(InBounds, tweets[..m])
    {
      assert tweets[..m + 1][..m] == tweets[..m];
      if MinLength <= |tweets[m].text| <= MaxLength {
        valid := valid + [tweets[m]];
      }
      m := m + 1;
    }
    assert tweets[..m] == tweets;
  }

  /** `generate_tweets`: the generator, given the model's reply. */
  method GenerateFromReply(reply: Option<string>) returns (tweets: seq<Draft>)
    ensures tweets == ParseReply(reply)
    ensures WellFormed(tweets)
    ensures reply.None? ==> tweets == ThirdTier
  {
    ParseWellFormed(reply);
    if reply.None? {
      return ThirdTier;
    }
    var text := Strip(reply.value);
    text := StripCodeFences(text);
    var lines := Lines(text);
    var cleanLines := CleanLinesOf(lines);
    var drafted := DraftsOf(cleanLines);
    var padded := PadToThree(drafted);
    var valid := KeepInBounds(padded);
    if |valid| < 3 {
      return SecondTier;
    }
    return valid;
  }

  // ---------------------------------------------------------------------------------------------
  // Properties

  /** On every path the result is three in-bounds drafts typed hook, list, question. */
  lemma ParseWellFormed(reply: Option<string>)
    ensures WellFormed(ParseReply(reply))
  {
    match reply
    case None =>
      TiersWellFormed();
    case Some(r) =>
      var padded := PaddedFor(r);
      PaddedShape(CleanLines(Lines(RemoveFences(Strip(r)))));
      assert ParseReply(reply) == Validated(padded);
      ValidatedWellFormed(padded);
  }

  /** Validating a triple keeps it when all three drafts are in bounds and gives the second tier otherwise. */
  lemma ValidatedTriple(tweets: seq<Draft>)
    requires |tweets| == 3
    ensures Validated(tweets) == if forall i :: 0 <= i < 3 ==> InBounds(tweets[i]) then tweets else SecondTier
  {
    FilterAll(InBounds, tweets);
    if !forall i :: 0 <= i < 3 ==> InBounds(tweets[i]) {
      var i :| 0 <= i < 3 && !InBounds(tweets[i]);
      FilterDropsOne(tweets, i);
    }
  }

  /** Validating three drafts typed hook, list, question gives a well-formed triple, either theirs or the second tier. */
  lemma ValidatedWellFormed(tweets: seq<Draft>)
    requires |tweets| == 3 && forall i :: 0 <= i < 3 ==> tweets[i].kind == Kinds[i]
    ensures WellFormed(Validated(tweets))
  {
    TiersWellFormed();
    if |Filter(InBounds, tweets)| >= 3 {
      AllKeptWhenNoneDropped(tweets);
    }
  }

  /** Slot `i` of the padded triple holds cleaned line `i` cut to 280 characters when there is one, the first tier's draft otherwise. */
  lemma PaddedShape(clean: seq<string>)
    ensures var p := Padded(Drafted(clean));
      && |p| == 3
      && (forall i :: 0 <= i < Min(3, |clean|) ==> p[i] == Draft(Kinds[i], Take(clean[i], MaxLength)))
      && (forall i :: Min(3, |clean|) <= i < 3 ==> p[i] == FirstTier[i])
      && (forall i :: 0 <= i < 3 ==> p[i].kind == Kinds[i])
  {
  }

  /** A filter that keeps as many elements as it was given kept all of them. */
  lemma AllKeptWhenNoneDropped(s: seq<Draft>)
    requires |Filter(InBounds, s)| >= |s|
    ensures Filter(InBounds, s) == s && forall i :: 0 <= i < |s| ==> InBounds(s[i])
  {
    FilterAll(InBounds, s);
    if exists i :: 0 <= i < |s| && !InBounds(s[i]) {
      var i :| 0 <= i < |s| && !InBounds(s[i]);
      FilterMembership(InBounds, s, s[i]);
      FilterDropsOne(s, i);
    }
  }

  lemma {:induction false} FilterDropsOne(s: seq<Draft>, i: nat)
    requires i < |s| && !InBounds(s[i])
    ensures |Filter(InBounds, s)| < |s|
    decreases |s|
  {
    var init := s[..|s| - 1];
    if i < |s| - 1 {
      assert init[i] == s[i];
      FilterDropsOne(init, i);
    }
  }

  /** Every line the split produces is stripped and non-empty. */
  lemma {:induction false} LinesAreStripped(rows: seq<string>, x: string)
    requires x in NonBlank(rows)
    ensures x != "" && Strip(x) == x
    decreases |rows|
  {
    var init := NonBlank(rows[..|rows| - 1]);
    if x in init {
      LinesAreStripped(rows[..|rows| - 1], x);
    } else {
      StripIdempotent(rows[|rows| - 1]);
    }
  }

  /** A cleaned line is exactly a stripped, non-empty line of the text that passes the filter. */
  lemma CleanLinesMembership(text: string, x: string)
    ensures x in CleanLines(Lines(text)) <==>
      (x in Lines(text) && !StartsWithAny(x, StructuralPrefixes) && |x| > ShortLine && !StartsWith(x, Fence))
    ensures x in CleanLines(Lines(text)) ==> x != "" && Strip(x) == x
  {
    FilterMembership(Keeps, Lines(text), x);
    if x in Lines(text) {
      LinesAreStripped(Split(text, "\n"), x);
    }
  }

  /** An empty text has no lines, so padding supplies the whole first tier. */
  lemma EmptyTextPadsFirstTier()
    ensures Lines("") == []
    ensures Padded(Drafted(CleanLines(Lines("")))) == FirstTier
  {
    SplitWithoutSeparator("", "\n");
    assert Strip("") == "";
    assert [""][..0] == [];
    assert NonBlank([""]) == [];
    assert CleanLines([]) == [];
    assert Drafted([]) == [];
    assert FirstTier[0..] == FirstTier;
  }

  /** A reply that opens with a fence leaves nothing to parse, so all three drafts are the first tier's. */
  lemma LeadingFenceUsesFirstTier(reply: string)
    requires StartsWith(Strip(reply), Fence)
    ensures RemoveFences(Strip(reply)) == ""
    ensures ParseReply(Some(reply)) == FirstTier
  {
    LeadingFenceEmptiesText(Strip(reply));
    EmptyTextPadsFirstTier();
    TiersWellFormed();
    FilterAll(InBounds, FirstTier);
  }

  /**
   * Validation never mixes: the result is the padded triple when each of the first three cleaned
   * lines has at least 20 characters, and the whole second tier otherwise.
   */
  lemma ValidationAllOrNothing(reply: string)
    ensures var clean := CleanLines(Lines(RemoveFences(Strip(reply))));
      ParseReply(Some(reply)) ==
        if forall i :: 0 <= i < Min(3, |clean|) ==> |clean[i]| >= MinLength then PaddedFor(reply) else SecondTier
  {
    var clean := CleanLines(Lines(RemoveFences(Strip(reply))));
    assert ParseReply(Some(reply)) == Validated(Padded(Drafted(clean)));
    ValidatedPadded(clean);
  }

  /** The padded drafts of a list of cleaned lines survive validation iff none of the lines used is shorter than 20 characters. */
  lemma ValidatedPadded(clean: seq<string>)
    ensures Validated(Padded(Drafted(clean))) ==
      if forall i :: 0 <= i < Min(3, |clean|) ==> |clean[i]| >= MinLength then Padded(Drafted(clean)) else SecondTier
  {
    if forall i :: 0 <= i < Min(3, |clean|) ==> |clean[i]| >= MinLength {
      LongLinesPassValidation(clean);
    } else {
      var i :| 0 <= i < Min(3, |clean|) && |clean[i]| < MinLength;
      ShortLineFailsValidation(clean, i);
    }
  }

  /** Drafts from lines of at least 20 characters, padded from the first tier, all pass validation. */
  lemma LongLinesPassValidation(clean: seq<string>)
    requires forall i :: 0 <= i < Min(3, |clean|) ==> |clean[i]| >= MinLength
    ensures Validated(Padded(Drafted(clean))) == Padded(Drafted(clean))
  {
    var padded := Padded(Drafted(clean));
    PaddedShape(clean);
    TiersWellFormed();
    assert forall i :: 0 <= i < 3 ==> InBounds(padded[i]);
    FilterAll(InBounds, padded);
  }

  /** One line shorter than 20 characters among the first three sends the whole triple to the second tier. */
  lemma ShortLineFailsValidation(clean: seq<string>, i: nat)
    requires i < Min(3, |clean|) && |clean[i]| < MinLength
    ensures Validated(Padded(Drafted(clean))) == SecondTier
  {
    var padded := Padded(Drafted(clean));
    PaddedShape(clean);
    assert !InBounds(padded[i]);
    FilterDropsOne(padded, i);
  }
}
