/**
 * The misinformation dashboard's row rendering: HTML escaping and truncation of
 * the claim text, the rating class, the status and category names, the source
 * label and the actions each status offers.
 *
 * Claims arrive as the JSON rows of the queue table; a missing or null field is
 * `None`. Case mapping is ASCII only. The DOM, AJAX calls, dates and the filter
 * state are not modelled.
 */
module Dashboard {
  import opened Php
  import Collector
  import Monitor

  // ------------------------------------------------------------------ escaping

  /** The characters `escapeHtml` replaces. */
  predicate Special(c: char) {
    c == '&' || c == '<' || c == '>' || c == '"' || c == '\''
  }

  /** The entity each special character becomes; any other character stays. */
  function EscapeChar(c: char): (e: string)
    ensures Special(c) ==> |e| >= 4 && e[0] == '&'
    ensures !Special(c) ==> e == [c]
  {
    if c == '&' then "&amp;"
    else if c == '<' then "&lt;"
    else if c == '>' then "&gt;"
    else if c == '"' then "&quot;"
    else if c == '\'' then "&#039;"
    else [c]
  }

  /** `escapeHtml`: every character replaced by its `EscapeChar`, left to right. */
  function EscapeHtml(s: string): (r: string)
    ensures |r| >= |s|
    ensures forall i :: 0 <= i < |r| ==> r[i] != '<' && r[i] != '>' && r[i] != '"' && r[i] != '\''
    decreases |s|
  {
    if |s| == 0 then ""
    else
      var rest := EscapeHtml(s[1..]);
      var e := EscapeChar(s[0]);
      assert forall i :: 0 <= i < |e| ==> e[i] != '<' && e[i] != '>' && e[i] != '"' && e[i] != '\'';
      e + rest
  }

  /** The character an entity at the front of `s` stands for, and the entity's length. */
  function EntityAt(s: string): (e: Option<(char, nat)>)
    ensures e.Some? ==> 4 <= e.value.1 <= |s|
  {
    if IsPrefix("&amp;", s) then Some(('&', 5))
    else if IsPrefix("&lt;", s) then Some(('<', 4))
    else if IsPrefix("&gt;", s) then Some(('>', 4))
    else if IsPrefix("&quot;", s) then Some(('"', 6))
    else if IsPrefix("&#039;", s) then Some(('\'', 6))
    else None
  }

  /** The inverse: the five entities back to their characters, anything else kept. */
  function UnescapeHtml(s: string): (r: string)
    decreases |s|
  {
    if |s| == 0 then ""
    else match EntityAt(s)
      case Some((c, n)) => [c] + UnescapeHtml(s[n..])
      case None => [s[0]] + UnescapeHtml(s[1..])
  }

  /** An escaped character, followed by anything, is read back as an entity exactly when it was special. */
  lemma EntityOfEscape(c: char, rest: string)
    ensures EntityAt(EscapeChar(c) + rest) == if Special(c) then Some((c, |EscapeChar(c)|)) else None
  {
    var s := EscapeChar(c) + rest;
    if c == '&' {
      assert s[..5] == "&amp;";
    } else if c == '<' {
      assert s[1] == 'l';
      assert s[..4] == "&lt;";
    } else if c == '>' {
      assert s[1] == 'g';
      assert s[..4] == "&gt;";
    } else if c == '"' {
      assert s[1] == 'q';
      assert s[..6] == "&quot;";
    } else if c == '\'' {
      assert s[1] == '#';
      assert s[..6] == "&#039;";
    } else {
      assert s[0] == c;
    }
  }

  /** One escaped character, followed by anything, unescapes to that character first. */
  lemma UnescapeChar(c: char, rest: string)
    ensures UnescapeHtml(EscapeChar(c) + rest) == [c] + UnescapeHtml(rest)
  {
    var s := EscapeChar(c) + rest;
    EntityOfEscape(c, rest);
    assert s[|EscapeChar(c)|..] == rest;
    if !Special(c) {
      assert s[0] == c && s[1..] == rest;
    }
  }

  /** Unescaping the escaped text gives the text back. */
  lemma {:induction false} EscapeRoundTrip(s: string)
    ensures UnescapeHtml(EscapeHtml(s)) == s
    decreases |s|
  {
    if |s| > 0 {
      UnescapeChar(s[0], EscapeHtml(s[1..]));
      EscapeRoundTrip(s[1..]);
      assert [s[0]] + s[1..] == s;
    }
  }

  /** Escaping leaves a text unchanged exactly when it has no special character. */
  lemma {:induction false} EscapeFixedIff(s: string)
    ensures EscapeHtml(s) == s <==> forall i :: 0 <= i < |s| ==> !Special(s[i])
    decreases |s|
  {
    if |s| > 0 {
      EscapeFixedIff(s[1..]);
      if Special(s[0]) {
        assert |EscapeHtml(s)| == |EscapeChar(s[0])| + |EscapeHtml(s[1..])| > |s|;
      } else {
        assert EscapeHtml(s) == [s[0]] + EscapeHtml(s[1..]);
        if EscapeHtml(s) == s {
          assert EscapeHtml(s[1..]) == s[1..];
        }
        assert (forall i :: 0 <= i < |s| ==> !Special(s[i])) <==>
               (forall i :: 0 <= i < |s[1..]| ==> !Special(s[1..][i]));
      }
    }
  }

  // ---------------------------------------------------------------- truncation

  const ClaimLimit := 200

  /** The claim cell: the escaped text cut to 200 characters and "..." when it is longer. */
  function Truncate(t: string): (r: string)
    ensures |r| <= ClaimLimit + 3
    ensures |t| <= ClaimLimit ==> r == t
    ensures |t| > ClaimLimit ==> |r| == ClaimLimit + 3 && r[..ClaimLimit] == t[..ClaimLimit] && r[ClaimLimit..] == "..."
  {
    if |t| > ClaimLimit then t[..ClaimLimit] + "..." else t
  }

  /** The claim text as the row shows it. */
  function ClaimCell(text: string): string {
    Truncate(EscapeHtml(text))
  }

  /** The cut counts escaped characters, so it can fall inside an entity: 199 letters and an ampersand show as "&...". */
  lemma TruncateCutsEntity()
    ensures var text := seq(199, i => 'a') + "&";
      ClaimCell(text) == seq(199, i => 'a') + "&..."
  {
    var a := seq(199, i => 'a');
    var text := a + "&";
    EscapeFixedIff(a);
    EscapeAppend(a, "&");
    assert EscapeHtml("&") == "&amp;";
    assert EscapeHtml(text) == a + "&amp;";
    assert (a + "&amp;")[..ClaimLimit] == a + "&";
  }

  lemma {:induction false} EscapeAppend(a: string, b: string)
    ensures EscapeHtml(a + b) == EscapeHtml(a) + EscapeHtml(b)
    decreases |a|
  {
    if |a| > 0 {
      assert (a + b)[1..] == a[1..] + b;
      EscapeAppend(a[1..], b);
    } else {
      assert a + b == b;
    }
  }

  // -------------------------------------------------------------------- rating

  /** `getRatingClass`: "false" or "fake" anywhere, any case, then "misleading", else "unverified". */
  function RatingClass(rating: string): (c: string)
    ensures c in {"false", "misleading", "unverified"}
    ensures c == "false" <==> ContainsIgnoreCase(rating, "false") || ContainsIgnoreCase(rating, "fake")
    ensures c == "misleading" <==>
      !ContainsIgnoreCase(rating, "false") && !ContainsIgnoreCase(rating, "fake") && ContainsIgnoreCase(rating, "misleading")
  {
    assert Lower("false") == "false";
    assert Lower("fake") == "fake";
    assert Lower("misleading") == "misleading";
    var lower := Lower(rating);
    if Contains(lower, "false") || Contains(lower, "fake") then "false"
    else if Contains(lower, "misleading") then "misleading"
    else "unverified"
  }

  /** Ratings that differ only in letter case get the same class. */
  lemma RatingClassIgnoresCase(a: string, b: string)
    requires |a| == |b| && forall i :: 0 <= i < |a| ==> LowerChar(a[i]) == LowerChar(b[i])
    ensures RatingClass(a) == RatingClass(b)
  {
    assert Lower(a) == Lower(b);
  }

  /** The rating every RSS and search claim carries shows as false. */
  lemma CollectedFalseShowsFalse(c: Collector.CollectedClaim)
    requires Collector.WellSourced(c) && c.source != "google_factcheck"
    ensures RatingClass(c.rating) == "false"
  {
    assert Lower("False") == "false";
    assert IsPrefix("false", Lower(c.rating));
  }

  /** A fact-check rated "Incorrect" is collected as false... */
  lemma IncorrectCollected()
    ensures Collector.RatedFalse("Incorrect")
  {
    var lower := Lower("Incorrect");
    assert lower == "incorrect";
    assert OccursAt(lower, Collector.FalseIndicators[2], 0);
    OccursImpliesContains(lower, Collector.FalseIndicators[2], 0);
  }

  /** ...yet the dashboard shows it unverified. */
  lemma IncorrectShowsUnverified()
    ensures RatingClass("Incorrect") == "unverified"
  {
    var lower := Lower("Incorrect");
    assert lower == "incorrect";
    assert forall i :: 0 <= i < |lower| ==> lower[i] != 'f' && lower[i] != 'm';
    LacksFirstLetter(lower, "false");
    LacksFirstLetter(lower, "fake");
    LacksFirstLetter(lower, "misleading");
  }

  /** A needle does not occur in a text that lacks its first letter. */
  lemma LacksFirstLetter(hay: string, needle: string)
    requires |needle| > 0
    requires forall i :: 0 <= i < |hay| ==> hay[i] != needle[0]
    ensures !Contains(hay, needle)
  {
    forall k | 0 <= k && k + |needle| <= |hay|
      ensures !OccursAt(hay, needle, k)
    {
      assert hay[k..k + |needle|][0] == hay[k];
    }
    if Contains(hay, needle) {
      ContainsHasOccurrence(hay, needle);
    }
  }

  // -------------------------------------------------------------------- lookups

  const StatusLabels: map<string, string> := map[
    "pending" := "Pending",
    "article_generated" := "Draft Created",
    "published" := "Published",
    "ignored" := "Dismissed"]

  const CategoryLabels: map<string, string> := map[
    "health" := "Health",
    "politics" := "Politics",
    "economy" := "Economy",
    "immigration" := "Immigration",
    "climate" := "Climate",
    "covid" := "COVID-19",
    "crime" := "Crime",
    "international" := "International",
    "uncategorized" := "Other"]

  /** `names[key] || key`: the label of a known key (every label is non-empty), otherwise the key itself. */
  function LabelOr(names: map<string, string>, key: string): (r: string)
    ensures key in names && names[key] != "" ==> r == names[key]
    ensures key !in names ==> r == key
  {
    if key in names && names[key] != "" then names[key] else key
  }

  function StatusName(status: string): string {
    LabelOr(StatusLabels, status)
  }

  function CategoryName(category: string): string {
    LabelOr(CategoryLabels, category)
  }

  /** A status keeps its own text exactly when it is not one of the four known ones. */
  lemma StatusNameFallbackIff(status: string)
    ensures StatusName(status) == status <==> status !in StatusLabels
  {
    if status in StatusLabels {
      assert status == "pending" || status == "article_generated" || status == "published" || status == "ignored";
    }
  }

  /** A category keeps its own text exactly when it is not one of the nine known ones. */
  lemma CategoryNameFallbackIff(category: string)
    ensures CategoryName(category) == category <==> category !in CategoryLabels
  {
    if category in CategoryLabels {
      assert category in {"health", "politics", "economy", "immigration", "climate",
                          "covid", "crime", "international", "uncategorized"};
    }
  }

  /** Every category the collector files a claim under has a label. */
  lemma CollectorCategoriesLabelled()
    ensures Collector.CategoryNames == CategoryLabels.Keys
  {
  }

  // ------------------------------------------------------------------- sources

  /** `\w` in a regular expression: ASCII letters, digits and the underscore. */
  predicate WordChar(c: char) {
    'a' <= c <= 'z' || 'A' <= c <= 'Z' || '0' <= c <= '9' || c == '_'
  }

  /** `replace("_", " ")` with a string pattern: only the first underscore. */
  function ReplaceFirstUnderscore(s: string): (r: string)
    ensures |r| == |s|
    decreases |s|
  {
    if |s| == 0 then s
    else if s[0] == '_' then " " + s[1..]
    else [s[0]] + ReplaceFirstUnderscore(s[1..])
  }

  /** The first underscore, at `i`, becomes a space and nothing else changes. */
  lemma {:induction false} ReplaceAtFirstUnderscore(s: string, i: int)
    requires 0 <= i < |s| && s[i] == '_'
    requires forall j :: 0 <= j < i ==> s[j] != '_'
    ensures ReplaceFirstUnderscore(s) == s[..i] + " " + s[i + 1..]
    decreases i
  {
    if i > 0 {
      var t := s[1..];
      assert t[i - 1] == '_';
      forall j | 0 <= j < i - 1 ensures t[j] != '_' {
        assert t[j] == s[j + 1];
      }
      ReplaceAtFirstUnderscore(t, i - 1);
      assert [s[0]] + (t[..i - 1] + " " + t[i..]) == s[..i] + " " + s[i + 1..];
    }
  }

  /** A text without an underscore is left as it is. */
  lemma {:induction false} ReplaceWithoutUnderscore(s: string)
    requires forall i :: 0 <= i < |s| ==> s[i] != '_'
    ensures ReplaceFirstUnderscore(s) == s
    decreases |s|
  {
    if |s| > 0 {
      var t := s[1..];
      forall j | 0 <= j < |t| ensures t[j] != '_' {
        assert t[j] == s[j + 1];
      }
      ReplaceWithoutUnderscore(t);
      assert s == [s[0]] + t;
    }
  }

  /** `replace(/\b\w/g, l => l.toUpperCase())`: a word character right after a non-word character, or first, is upper-cased. */
  function CapitalizeWords(s: string): (r: string)
    ensures |r| == |s|
    ensures forall i :: 0 <= i < |s| ==>
      r[i] == if WordChar(s[i]) && (i == 0 || !WordChar(s[i - 1])) then UpperChar(s[i]) else s[i]
  {
    seq(|s|, i requires 0 <= i < |s| =>
      if WordChar(s[i]) && (i == 0 || !WordChar(s[i - 1])) then UpperChar(s[i]) else s[i])
  }

  /** Capitalising twice is capitalising once. */
  lemma CapitalizeIdempotent(s: string)
    ensures CapitalizeWords(CapitalizeWords(s)) == CapitalizeWords(s)
  {
    var once := CapitalizeWords(s);
    forall i | 0 <= i < |s|
      ensures WordChar(once[i]) == WordChar(s[i])
    {
    }
  }

  /** The source cell. */
  function SourceDisplay(source: string): string {
    CapitalizeWords(ReplaceFirstUnderscore(source))
  }

  /** A word with its first letter upper-cased. */
  function Capitalized(w: string): string
    requires |w| > 0
  {
    [UpperChar(w[0])] + w[1..]
  }

  /** Two runs of word characters joined by a space are each capitalised at their start only. */
  lemma CapitalizeTwoWords(a: string, b: string)
    requires |a| > 0 && |b| > 0
    requires forall i :: 0 <= i < |a| ==> WordChar(a[i])
    requires forall i :: 0 <= i < |b| ==> WordChar(b[i])
    ensures CapitalizeWords(a + " " + b) == Capitalized(a) + " " + Capitalized(b)
  {
    var s := a + " " + b;
    var ca, cb := Capitalized(a), Capitalized(b);
    var t := ca + " " + cb;
    var c := CapitalizeWords(s);
    assert |c| == |t|;
    forall i | 0 <= i < |s|
      ensures c[i] == t[i]
    {
      if i == 0 {
        assert s[0] == a[0] && t[0] == ca[0] == UpperChar(a[0]);
      } else if i < |a| {
        assert s[i] == a[i] && s[i - 1] == a[i - 1];
        assert t[i] == ca[i] == a[i];
      } else if i == |a| {
        assert s[i] == ' ' && t[i] == ' ';
      } else if i == |a| + 1 {
        assert s[i] == b[0] && s[i - 1] == ' ';
        assert t[i] == cb[0] == UpperChar(b[0]);
      } else {
        var j := i - |a| - 1;
        assert s[i] == b[j] && s[i - 1] == b[j - 1];
        assert t[i] == cb[j] == b[j];
      }
    }
  }

  /** A tag of two words joined by its first underscore shows as the two words capitalised, with a space. */
  lemma TwoPartLabel(a: string, b: string)
    requires |a| > 0 && |b| > 0
    requires forall i :: 0 <= i < |a| ==> WordChar(a[i]) && a[i] != '_'
    requires forall i :: 0 <= i < |b| ==> WordChar(b[i])
    ensures SourceDisplay(a + "_" + b) == Capitalized(a) + " " + Capitalized(b)
  {
    var s := a + "_" + b;
    assert s[|a|] == '_';
    assert forall j :: 0 <= j < |a| ==> s[j] == a[j];
    assert s[..|a|] == a && s[|a| + 1..] == b;
    ReplaceAtFirstUnderscore(s, |a|);
    CapitalizeTwoWords(a, b);
  }

  /** The search tag shows as two capitalised words. */
  lemma SearchSourceLabel()
    ensures SourceDisplay("perplexity_search") == "Perplexity Search"
  {
    SearchWords();
    TwoPartLabel("perplexity", "search");
  }

  lemma SearchWords()
    ensures forall i :: 0 <= i < 10 ==> WordChar("perplexity"[i]) && "perplexity"[i] != '_'
    ensures forall i :: 0 <= i < 6 ==> WordChar("search"[i])
    ensures "perplexity" + "_" + "search" == "perplexity_search"
    ensures Capitalized("perplexity") == "Perplexity" && Capitalized("search") == "Search"
    ensures "Perplexity" + " " + "Search" == "Perplexity Search"
  {
    assert "perplexity"[1..] == "erplexity" && "search"[1..] == "earch";
  }

  /** The Google tag shows as two capitalised words. */
  lemma GoogleSourceLabel()
    ensures SourceDisplay("google_factcheck") == "Google Factcheck"
  {
    GoogleWords();
    GoogleJoined();
    TwoPartLabel("google", "factcheck");
  }

  lemma GoogleWords()
    ensures forall i :: 0 <= i < 6 ==> WordChar("google"[i]) && "google"[i] != '_'
    ensures forall i :: 0 <= i < 9 ==> WordChar("factcheck"[i])
  {
  }

  lemma GoogleJoined()
    ensures "google" + "_" + "factcheck" == "google_factcheck"
    ensures Capitalized("google") == "Google" && Capitalized("factcheck") == "Factcheck"
    ensures "Google" + " " + "Factcheck" == "Google Factcheck"
  {
    assert "google"[1..] == "oogle" && "factcheck"[1..] == "actcheck";
  }

  /** The RSS tag has a second underscore, which stays, and the letter after it stays lower-case. */
  lemma RssSourceLabel()
    ensures SourceDisplay("full_fact_rss") == "Full Fact_rss"
  {
    RssWords();
    TwoPartLabel("full", "fact_rss");
  }

  lemma RssWords()
    ensures forall i :: 0 <= i < 4 ==> WordChar("full"[i]) && "full"[i] != '_'
    ensures forall i :: 0 <= i < 8 ==> WordChar("fact_rss"[i])
    ensures "full" + "_" + "fact_rss" == "full_fact_rss"
    ensures Capitalized("full") == "Full" && Capitalized("fact_rss") == "Fact_rss"
    ensures "Full" + " " + "Fact_rss" == "Full Fact_rss"
  {
    assert "full"[1..] == "ull" && "fact_rss"[1..] == "act_rss";
  }

  // ------------------------------------------------------------------- actions

  /** What the actions cell holds. */
  datatype Action = Generate(claimId: string) | Dismiss(claimId: string) | ViewDraft(url: string) | ViewPost(url: string) | DismissedLabel

  function EditUrl(postId: string): string {
    "/wp-admin/post.php?post=" + postId + "&action=edit"
  }

  /** A field used as a JavaScript condition: set and not the empty string. */
  predicate Present(v: Option<string>) {
    v.Some? && v.value != ""
  }

  /** `v || fallback`. */
  function OrElse(v: Option<string>, fallback: string): (r: string)
    ensures Present(v) ==> r == v.value
    ensures !Present(v) ==> r == fallback
  {
    if Present(v) then v.value else fallback
  }

  /** The actions for a status: generate and dismiss when pending, the draft or the post once there is a post, a label once dismissed. */
  function Actions(status: string, claimId: string, postId: Option<string>): (a: seq<Action>)
    ensures |a| <= 2
    ensures (Generate(claimId) in a) <==> status == "pending"
    ensures (Dismiss(claimId) in a) <==> status == "pending" || (status == "article_generated" && Present(postId))
    ensures (exists u :: ViewDraft(u) in a) <==> status == "article_generated" && Present(postId)
    ensures (exists u :: ViewPost(u) in a) <==> status == "published" && Present(postId)
    ensures (DismissedLabel in a) <==> status == "ignored"
    ensures Present(postId) ==> forall x :: x in a && (x.ViewDraft? || x.ViewPost?) ==> x.url == EditUrl(postId.value)
  {
    if status == "pending" then [Generate(claimId), Dismiss(claimId)]
    else if status == "article_generated" && Present(postId) then [ViewDraft(EditUrl(postId.value)), Dismiss(claimId)]
    else if status == "published" && Present(postId) then [ViewPost(EditUrl(postId.value))]
    else if status == "ignored" then [DismissedLabel]
    else []
  }

  // ---------------------------------------------------------------------- rows

  /** A claim as the claims request returns it. */
  datatype Claim = Claim(id: string, claimText: string, category: Option<string>, source: Option<string>,
                         rating: Option<string>, status: Option<string>, postId: Option<string>,
                         sourceUrl: Option<string>)

  datatype Row = Row(claim: string, viewSource: Option<string>, categoryClass: string, categoryName: string,
                     source: string, rating: string, ratingClass: string, statusClass: string,
                     statusName: string, actions: seq<Action>)

  /**
   * `renderClaimRow`, with the defaults "uncategorized", "unknown", "Unknown" and
   * "pending". The category, source and rating are inserted as they come.
   */
  function RenderRow(c: Claim): (r: Row)
    ensures r.claim == ClaimCell(c.claimText)
    ensures r.statusClass == OrElse(c.status, "pending") && r.categoryClass == OrElse(c.category, "uncategorized")
    ensures r.rating == OrElse(c.rating, "Unknown") && r.source == SourceDisplay(OrElse(c.source, "unknown"))
    ensures r.viewSource.Some? <==> Present(c.sourceUrl)
    ensures r.statusName == StatusName(r.statusClass) && r.categoryName == CategoryName(r.categoryClass)
    ensures r.ratingClass == RatingClass(r.rating)
    ensures r.actions == Actions(r.statusClass, c.id, c.postId)
  {
    var category := OrElse(c.category, "uncategorized");
    var source := OrElse(c.source, "unknown");
    var rating := OrElse(c.rating, "Unknown");
    var status := OrElse(c.status, "pending");
    Row(ClaimCell(c.claimText),
        if Present(c.sourceUrl) then Some(EscapeHtml(c.sourceUrl.value)) else None,
        category, CategoryName(category), SourceDisplay(source), rating, RatingClass(rating),
        status, StatusName(status), Actions(status, c.id, c.postId))
  }

  /** A queue row as JSON: numbers as strings, a missing post id as null. */
  function ClaimOf(r: Monitor.Row): Claim {
    Claim(NatToString(r.id), r.claimText, Some(r.category), Some(r.source), Some(r.rating), Some(r.status),
          if r.postId.Some? then Some(NatToString(r.postId.value)) else None, Some(r.sourceUrl))
  }

  /** A claim with no status shows as pending and can be generated or dismissed. */
  lemma MissingStatusIsPending(c: Claim)
    requires !Present(c.status)
    ensures var r := RenderRow(c);
      r.statusName == "Pending" && r.actions == [Generate(c.id), Dismiss(c.id)]
  {
  }

  /** After an article is generated for a claim, its row links to the draft's edit screen and can still be dismissed. */
  lemma GeneratedOffersDraft(rows: seq<Monitor.Row>, id: nat, post: nat, i: int)
    requires 0 <= i < |rows| && rows[i].id == id
    ensures var r := RenderRow(ClaimOf(Monitor.SetGenerated(rows, id, post)[i]));
      r.statusName == "Draft Created" &&
      r.actions == [ViewDraft(EditUrl(NatToString(post))), Dismiss(NatToString(id))]
  {
    var row := Monitor.SetGenerated(rows, id, post)[i];
    assert row == rows[i].(status := "article_generated", postId := Some(post));
    assert StatusName("article_generated") == "Draft Created";
  }

  /** After a claim is dismissed, its row shows only the dismissed label. */
  lemma DismissedShowsLabel(rows: seq<Monitor.Row>, id: nat, i: int)
    requires 0 <= i < |rows| && rows[i].id == id
    ensures var r := RenderRow(ClaimOf(Monitor.SetStatus(rows, id, "ignored")[i]));
      r.statusName == "Dismissed" && r.actions == [DismissedLabel]
  {
    var row := Monitor.SetStatus(rows, id, "ignored")[i];
    assert row == rows[i].(status := "ignored");
  }
}
