/**
 * The misinformation collector: gathers claims rated false or misleading from the
 * Google Fact Check API, the Full Fact RSS feed and a Perplexity search, and
 * files each under a topic by keyword matching.
 *
 * Each source is represented by the reply its request returns; the RSS feed is
 * given as the items `simplexml_load_string` yields, each with its `strtotime`
 * publication time.
 */
module Collector {
  import opened Php
  import opened Service

  /** A collected claim, as handed to the monitor for storage. */
  datatype CollectedClaim = CollectedClaim(
    claimText: string,
    source: string,
    sourceUrl: string,
    category: string,
    rating: string,
    factChecker: string)

  // ---------------------------------------------------------------------------
  // Ratings

  const FalseIndicators: seq<string> := ["false", "fake", "incorrect", "misleading", "pants on fire",
                                         "mostly false", "unsubstantiated", "debunked", "misinformation"]

  /** The rating, lower-cased, contains one of the false indicators among the first `n`. */
  predicate IndicatorAmong(rating: string, n: nat)
    requires n <= |FalseIndicators|
  {
    exists k :: 0 <= k < n && Contains(Lower(rating), FalseIndicators[k])
  }

  /** A rating that marks a claim as false or misleading. */
  predicate RatedFalse(rating: string) {
    IndicatorAmong(rating, |FalseIndicators|)
  }

  /** `is_false_or_misleading`: the search over the indicators, stopping at the first found. */
  method IsFalseOrMisleading(rating: string) returns (b: bool)
    ensures b <==> RatedFalse(rating)
  {
    var lower := Lower(rating);
    var k := 0;
    while k < |FalseIndicators|
      invariant 0 <= k <= |FalseIndicators|
      invariant !IndicatorAmong(rating, k)
    {
      if Contains(lower, FalseIndicators[k]) {
        return true;
      }
      k := k + 1;
    }
    return false;
  }

  // ---------------------------------------------------------------------------
  // Categories

  const Categories: seq<(string, seq<string>)> := [
    ("health", ["health", "nhs", "hospital", "doctor", "medicine", "vaccine", "disease", "cancer", "medical"]),
    ("politics", ["government", "parliament", "minister", "mp", "election", "vote", "party", "labour", "conservative", "tory"]),
    ("economy", ["economy", "tax", "budget", "inflation", "unemployment", "gdp", "finance", "pension", "benefit"]),
    ("immigration", ["immigration", "immigrant", "refugee", "asylum", "border", "migrant"]),
    ("climate", ["climate", "environment", "carbon", "emission", "green", "renewable", "pollution"]),
    ("covid", ["covid", "coronavirus", "pandemic", "lockdown", "mask"]),
    ("crime", ["crime", "police", "prison", "criminal", "murder", "theft", "violence"]),
    ("international", ["ukraine", "russia", "china", "usa", "europe", "war", "nato"])
  ]

  /** Some keyword among the first `n` of the list occurs in `lower`. */
  predicate KeywordAmong(lower: string, keywords: seq<string>, n: nat)
    requires n <= |keywords|
  {
    exists k :: 0 <= k < n && Contains(lower, keywords[k])
  }

  predicate MatchesCategory(lower: string, c: nat)
    requires c < |Categories|
  {
    KeywordAmong(lower, Categories[c].1, |Categories[c].1|)
  }

  /** The first category from index `c` on that has a keyword in `lower`. */
  function FirstCategoryFrom(lower: string, c: nat): string
    requires c <= |Categories|
    decreases |Categories| - c
  {
    if c == |Categories| then "uncategorized"
    else if MatchesCategory(lower, c) then Categories[c].0
    else FirstCategoryFrom(lower, c + 1)
  }

  /** The category `categorize_claim` files a text under. */
  function CategoryOf(text: string): string {
    FirstCategoryFrom(Lower(text), 0)
  }

  /** `categorize_claim`: categories in order, keywords in order, the first hit wins. */
  method Categorize(text: string) returns (category: string)
    ensures category == CategoryOf(text)
  {
    var lower := Lower(text);
    var c := 0;
    while c < |Categories|
      invariant 0 <= c <= |Categories|
      invariant FirstCategoryFrom(lower, c) == CategoryOf(text)
    {
      var keywords := Categories[c].1;
      var k := 0;
      while k < |keywords|
        invariant 0 <= k <= |keywords|
        invariant !KeywordAmong(lower, keywords, k)
      {
        if Contains(lower, keywords[k]) {
          assert MatchesCategory(lower, c);
          return Categories[c].0;
        }
        k := k + 1;
      }
      c := c + 1;
    }
    return "uncategorized";
  }

  const CategoryNames: set<string> := {"health", "politics", "economy", "immigration", "climate",
                                       "covid", "crime", "international", "uncategorized"}

  lemma {:induction false} FirstCategoryFromIsName(lower: string, c: nat)
    requires c <= |Categories|
    ensures FirstCategoryFrom(lower, c) in CategoryNames
    decreases |Categories| - c
  {
    if c < |Categories| && !MatchesCategory(lower, c) {
      FirstCategoryFromIsName(lower, c + 1);
    }
  }

  lemma {:induction false} UncategorizedFrom(lower: string, c: nat)
    requires c <= |Categories|
    ensures FirstCategoryFrom(lower, c) == "uncategorized" <==>
      forall d :: c <= d < |Categories| ==> !MatchesCategory(lower, d)
    decreases |Categories| - c
  {
    if c < |Categories| {
      UncategorizedFrom(lower, c + 1);
    }
  }

  /** Every text gets one of the eight topics or "uncategorized". */
  lemma CategoryIsKnown(text: string)
    ensures CategoryOf(text) in CategoryNames
  {
    FirstCategoryFromIsName(Lower(text), 0);
  }

  /** A text is "uncategorized" exactly when no keyword of any topic occurs in it. */
  lemma UncategorizedIffNoKeyword(text: string)
    ensures CategoryOf(text) == "uncategorized" <==> forall d :: 0 <= d < |Categories| ==> !MatchesCategory(Lower(text), d)
  {
    UncategorizedFrom(Lower(text), 0);
  }

  /** Keywords match anywhere inside words: "story" contains "tory", so it is filed under politics. */
  lemma SubstringMatching()
    ensures CategoryOf("story") == "politics"
  {
    var lower := Lower("story");
    assert lower == "story";
    forall k | 0 <= k < |Categories[0].1|
      ensures !Contains(lower, Categories[0].1[k])
    {
      NoOccurrenceOfFirst(lower, Categories[0].1[k]);
    }
    assert !MatchesCategory(lower, 0);
    assert lower[1..5] == "tory";
    OccursImpliesContains(lower, "tory", 1);
    assert Categories[1].1[9] == "tory";
    assert MatchesCategory(lower, 1);
  }

  /** A needle whose first character does not occur in the text is not found. */
  lemma {:induction false} NoOccurrenceOfFirst(hay: string, needle: string)
    requires |needle| > 0 && forall i :: 0 <= i < |hay| ==> hay[i] != needle[0]
    ensures !Contains(hay, needle)
    decreases |hay|
  {
    if |hay| > 0 {
      if |needle| <= |hay| {
        assert hay[..|needle|][0] != needle[0];
      }
      NoOccurrenceOfFirst(hay[1..], needle);
    }
  }

  // ---------------------------------------------------------------------------
  // Google Fact Check API

  /** A claim of the API's `claims` list; the review keys are those of `claimReview[0]`. */
  datatype GoogleClaim = GoogleClaim(
    text: Field<string>,
    textualRating: Field<string>,
    reviewUrl: Field<string>,
    publisherName: Field<string>)

  /** The decoded body: its `claims`, when set and an array. */
  datatype GoogleBody = GoogleBody(claims: Option<seq<GoogleClaim>>)

  /** `extract_rating`: the first review's textual rating, "Unknown" without one. */
  function RatingOf(g: GoogleClaim): string { g.textualRating.Or("Unknown") }

  function FromGoogle(g: GoogleClaim): CollectedClaim {
    CollectedClaim(g.text.Or("Unknown claim"), "google_factcheck", g.reviewUrl.Or(""),
                   CategoryOf(g.text.Or("")), RatingOf(g), g.publisherName.Or("Unknown"))
  }

  /** The claims the API lists that are rated false or misleading, in order. */
  function GoogleClaims(cs: seq<GoogleClaim>): seq<CollectedClaim>
    decreases |cs|
  {
    if |cs| == 0 then []
    else
      var g := cs[|cs| - 1];
      GoogleClaims(cs[..|cs| - 1]) + (if RatedFalse(RatingOf(g)) then [FromGoogle(g)] else [])
  }

  /** What `collect_from_google` returns for a reply; the status code is not looked at. */
  function GoogleResult(reply: Reply<GoogleBody>): seq<CollectedClaim> {
    match reply
    case TransportError(_) => []
    case Http(_, GoogleBody(None)) => []
    case Http(_, GoogleBody(Some(cs))) => GoogleClaims(cs)
  }

  /** `collect_from_google`. */
  method CollectFromGoogle(reply: Reply<GoogleBody>) returns (claims: seq<CollectedClaim>)
    ensures claims == GoogleResult(reply)
  {
    claims := [];
    if reply.TransportError? || reply.body.claims.None? {
      return;
    }
    var cs := reply.body.claims.value;
    var i := 0;
    while i < |cs|
      invariant 0 <= i <= |cs|
      invariant claims == GoogleClaims(cs[..i])
    {
      assert cs[..i + 1][..i] == cs[..i];
      var rating := RatingOf(cs[i]);
      var rated := IsFalseOrMisleading(rating);
      if rated {
        var category := Categorize(cs[i].text.Or(""));
        claims := claims + [CollectedClaim(cs[i].text.Or("Unknown claim"), "google_factcheck",
                                           cs[i].reviewUrl.Or(""), category, rating,
                                           cs[i].publisherName.Or("Unknown"))];
      }
      i := i + 1;
    }
    assert cs[..|cs|] == cs;
  }

  // ---------------------------------------------------------------------------
  // Full Fact RSS

  /** A feed item; `pubDate` is `strtotime` of its date, `None` when that fails. */
  datatype RssItem = RssItem(title: string, description: string, link: string, pubDate: Option<int>)

  /** `extract_claim_from_full_fact`: the stripped description, or the title when that runs over 300 bytes; at most 250. */
  function ClaimFromFullFact(title: string, description: string, stripTags: string -> string): (r: string)
    ensures |r| <= 250
    ensures |stripTags(description)| > 300 ==> r == Take(title, 250)
    ensures |stripTags(description)| <= 300 ==> r == Take(stripTags(description), 250)
  {
    var text := stripTags(description);
    if |text| > 300 then Take(title, 250) else Take(text, 250)
  }

  /** An item published at or after `weekAgo`; an undated item never is. */
  predicate Recent(item: RssItem, weekAgo: int) {
    item.pubDate.Some? && item.pubDate.value >= weekAgo
  }

  function FromFullFact(item: RssItem, stripTags: string -> string): CollectedClaim {
    var text := ClaimFromFullFact(item.title, item.description, stripTags);
    CollectedClaim(text, "full_fact_rss", item.link, CategoryOf(text), "False", "Full Fact")
  }

  function FullFactClaims(items: seq<RssItem>, weekAgo: int, stripTags: string -> string): seq<CollectedClaim>
    decreases |items|
  {
    if |items| == 0 then []
    else
      var it := items[|items| - 1];
      FullFactClaims(items[..|items| - 1], weekAgo, stripTags) +
        (if Recent(it, weekAgo) then [FromFullFact(it, stripTags)] else [])
  }

  /** What `collect_from_full_fact` returns: nothing when the request fails or the feed does not parse. */
  function FullFactResult(reply: Reply<Option<seq<RssItem>>>, weekAgo: int, stripTags: string -> string): seq<CollectedClaim> {
    match reply
    case TransportError(_) => []
    case Http(_, None) => []
    case Http(_, Some(items)) => FullFactClaims(items, weekAgo, stripTags)
  }

  /** `collect_from_full_fact`. */
  method CollectFromFullFact(reply: Reply<Option<seq<RssItem>>>, weekAgo: int, stripTags: string -> string)
    returns (claims: seq<CollectedClaim>)
    ensures claims == FullFactResult(reply, weekAgo, stripTags)
  {
    claims := [];
    if reply.TransportError? || reply.body.None? {
      return;
    }
    var items := reply.body.value;
    var i := 0;
    while i < |items|
      invariant 0 <= i <= |items|
      invariant claims == FullFactClaims(items[..i], weekAgo, stripTags)
    {
      assert items[..i + 1][..i] == items[..i];
      var it := items[i];
      if Recent(it, weekAgo) {
        var text := ClaimFromFullFact(it.title, it.description, stripTags);
        var category := Categorize(text);
        claims := claims + [CollectedClaim(text, "full_fact_rss", it.link, category, "False", "Full Fact")];
      }
      i := i + 1;
    }
    assert items[..|items|] == items;
  }

  // ---------------------------------------------------------------------------
  // Perplexity search

  /** An element of the JSON list the search returns. */
  datatype SearchItem = SearchItem(claim: Field<string>, category: Field<string>)

  function FromSearch(s: SearchItem): CollectedClaim
    requires s.claim.Val?
  {
    CollectedClaim(s.claim.v, "perplexity_search", "", s.category.Or("uncategorized"), "False", "Perplexity AI")
  }

  function SearchClaims(items: seq<SearchItem>): seq<CollectedClaim>
    decreases |items|
  {
    if |items| == 0 then []
    else
      var s := items[|items| - 1];
      SearchClaims(items[..|items| - 1]) + (if s.claim.Val? then [FromSearch(s)] else [])
  }

  /** What `collect_from_perplexity` returns; the status code is not looked at. */
  function SearchResult(reply: Reply<Completion<seq<SearchItem>>>): seq<CollectedClaim> {
    match reply
    case TransportError(_) => []
    case Http(_, data) =>
      if !data.message.Val? then []
      else match data.message.v.decoded
        case Array(items) => SearchClaims(items)
        case _ => []
  }

  /** `collect_from_perplexity`. */
  method CollectFromPerplexity(reply: Reply<Completion<seq<SearchItem>>>) returns (claims: seq<CollectedClaim>)
    ensures claims == SearchResult(reply)
  {
    claims := [];
    if reply.TransportError? || !reply.body.message.Val? || !reply.body.message.v.decoded.Array? {
      return;
    }
    var items := reply.body.message.v.decoded.fields;
    var i := 0;
    while i < |items|
      invariant 0 <= i <= |items|
      invariant claims == SearchClaims(items[..i])
    {
      assert items[..i + 1][..i] == items[..i];
      if items[i].claim.Val? {
        claims := claims + [FromSearch(items[i])];
      }
      i := i + 1;
    }
    assert items[..|items|] == items;
  }

  // ---------------------------------------------------------------------------
  // All sources

  /** The inputs of one collection run. */
  datatype Inputs = Inputs(
    googleKey: string,
    perplexityKey: string,
    google: Reply<GoogleBody>,
    fullFact: Reply<Option<seq<RssItem>>>,
    search: Reply<Completion<seq<SearchItem>>>,
    weekAgo: int)

  /** `collect_all`: Google (with a key), then Full Fact, then Perplexity (with a key). */
  function CollectAll(inp: Inputs, stripTags: string -> string): (r: seq<CollectedClaim>)
    ensures forall c :: c in FullFactResult(inp.fullFact, inp.weekAgo, stripTags) ==> c in r
    ensures !Empty(inp.googleKey) ==> forall c :: c in GoogleResult(inp.google) ==> c in r
    ensures !Empty(inp.perplexityKey) ==> forall c :: c in SearchResult(inp.search) ==> c in r
    ensures forall c :: c in r ==>
      (!Empty(inp.googleKey) && c in GoogleResult(inp.google)) ||
      c in FullFactResult(inp.fullFact, inp.weekAgo, stripTags) ||
      (!Empty(inp.perplexityKey) && c in SearchResult(inp.search))
  {
    (if !Empty(inp.googleKey) then GoogleResult(inp.google) else []) +
    FullFactResult(inp.fullFact, inp.weekAgo, stripTags) +
    (if !Empty(inp.perplexityKey) then SearchResult(inp.search) else [])
  }

  /** A claim that could have been collected: its source tag and rating fit the source it names. */
  predicate WellSourced(c: CollectedClaim) {
    (c.source == "google_factcheck" && RatedFalse(c.rating)) ||
    (c.source == "full_fact_rss" && c.rating == "False" && c.factChecker == "Full Fact" && |c.claimText| <= 250) ||
    (c.source == "perplexity_search" && c.rating == "False" && c.factChecker == "Perplexity AI" && c.sourceUrl == "")
  }

  lemma {:induction false} GoogleWellSourced(cs: seq<GoogleClaim>)
    ensures forall c :: c in GoogleClaims(cs) ==> WellSourced(c) && c.category in CategoryNames
    decreases |cs|
  {
    if |cs| > 0 {
      GoogleWellSourced(cs[..|cs| - 1]);
      CategoryIsKnown(cs[|cs| - 1].text.Or(""));
    }
  }

  lemma {:induction false} FullFactWellSourced(items: seq<RssItem>, weekAgo: int, stripTags: string -> string)
    ensures forall c :: c in FullFactClaims(items, weekAgo, stripTags) ==> WellSourced(c) && c.category in CategoryNames
    decreases |items|
  {
    if |items| > 0 {
      var it := items[|items| - 1];
      FullFactWellSourced(items[..|items| - 1], weekAgo, stripTags);
      CategoryIsKnown(ClaimFromFullFact(it.title, it.description, stripTags));
    }
  }

  lemma {:induction false} SearchWellSourced(items: seq<SearchItem>)
    ensures forall c :: c in SearchClaims(items) ==> WellSourced(c)
    decreases |items|
  {
    if |items| > 0 {
      SearchWellSourced(items[..|items| - 1]);
    }
  }

  /**
   * Every collected claim carries the tag of its source and a rating that source
   * vouches for: a Google claim is rated false or misleading, the other two "False".
   */
  lemma CollectedAreWellSourced(inp: Inputs, stripTags: string -> string)
    ensures forall c :: c in CollectAll(inp, stripTags) ==> WellSourced(c)
  {
    if inp.google.Http? && inp.google.body.claims.Some? {
      GoogleWellSourced(inp.google.body.claims.value);
    }
    if inp.fullFact.Http? && inp.fullFact.body.Some? {
      FullFactWellSourced(inp.fullFact.body.value, inp.weekAgo, stripTags);
    }
    if inp.search.Http? && inp.search.body.message.Val? && inp.search.body.message.v.decoded.Array? {
      SearchWellSourced(inp.search.body.message.v.decoded.fields);
    }
  }

  /** A Google claim without a textual rating reads as "Unknown", which is never kept. */
  lemma UnratedIsDropped()
    ensures !RatedFalse("Unknown")
  {
    var lower := Lower("Unknown");
    assert lower == "unknown";
    forall k | 0 <= k < |FalseIndicators|
      ensures !Contains(lower, FalseIndicators[k])
    {
      if k == 4 || k == 5 || k == 7 {
        NoOccurrenceOfFirst(lower, FalseIndicators[k]);
      } else if FalseIndicators[k][0] == 'u' {
        NotContainsLonger(lower, FalseIndicators[k]);
      } else {
        NoOccurrenceOfFirst(lower, FalseIndicators[k]);
      }
    }
  }

  /** A needle longer than the text is not found. */
  lemma {:induction false} NotContainsLonger(hay: string, needle: string)
    requires |needle| > |hay|
    ensures !Contains(hay, needle)
    decreases |hay|
  {
    if |hay| > 0 {
      NotContainsLonger(hay[1..], needle);
    }
  }

  /** With no API keys only Full Fact is asked. */
  lemma WithoutKeysOnlyFullFact(inp: Inputs, stripTags: string -> string)
    requires Empty(inp.googleKey) && Empty(inp.perplexityKey)
    ensures CollectAll(inp, stripTags) == FullFactResult(inp.fullFact, inp.weekAgo, stripTags)
  {
  }
}
