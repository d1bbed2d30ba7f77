/**
 * The article generator: turns a stored false claim into a draft post.  Two
 * Perplexity calls (research, then the article itself) are replies given as
 * inputs; the model covers how a reply becomes article text (trimming and the
 * appended numbered "## Sources" list), how the headline is found in that text,
 * the fallback headline, and the draft post record that is created.
 */
module Article {
  import opened Php
  import opened Service
  import Collector

  /** The columns of a queue row the generator reads. */
  datatype Claim = Claim(
    id: nat,
    claimText: string,
    source: string,
    sourceUrl: string,
    category: string,
    rating: string)

  // ---------------------------------------------------------------------------
  // The reply of `call_perplexity`, with its Sources tail

  const SourcesHeading := "## Sources"
  const SourcesHeader := "\n\n## Sources\n\n"

  /** The title printed for a citation: its own title, else the URL's host (`null` prints as ""). */
  function CitationTitle(c: Citation, host: string -> Option<string>): string
    requires c.url.Val?
  {
    if c.title.Val? then c.title.v
    else match host(c.url.v) case Some(h) => h case None => ""
  }

  /** One entry of the appended list: `"<n>. <title> - <url>\n"`. */
  function SourceLine(n: nat, c: Citation, host: string -> Option<string>): string
    requires c.url.Val?
  {
    NatToString(n) + ". " + CitationTitle(c, host) + " - " + c.url.v + "\n"
  }

  /** The lines the loop appends: a citation with a URL is numbered one past those before it. */
  function SourceLines(cs: seq<Citation>, host: string -> Option<string>): string
    decreases |cs|
  {
    if |cs| == 0 then ""
    else
      var init := cs[..|cs| - 1];
      var c := cs[|cs| - 1];
      if c.url.Val? then SourceLines(init, host) + SourceLine(1 + |WithUrl(init)|, c, host)
      else SourceLines(init, host)
  }

  /** Reference numbering: the entries `us` numbered consecutively from `n`. */
  function Numbered(us: seq<Citation>, n: nat, host: string -> Option<string>): string
    requires forall c :: c in us ==> c.url.Val?
    decreases |us|
  {
    if |us| == 0 then "" else SourceLine(n, us[0], host) + Numbered(us[1..], n + 1, host)
  }

  lemma {:induction false} NumberedSnoc(us: seq<Citation>, x: Citation, n: nat, host: string -> Option<string>)
    requires forall c :: c in us ==> c.url.Val?
    requires x.url.Val?
    ensures Numbered(us + [x], n, host) == Numbered(us, n, host) + SourceLine(n + |us|, x, host)
    decreases |us|
  {
    if |us| == 0 {
      assert us + [x] == [x];
      assert [x][1..] == [];
    } else {
      assert (us + [x])[1..] == us[1..] + [x];
      NumberedSnoc(us[1..], x, n + 1, host);
    }
  }

  /** The appended entries are exactly the citations with a URL, numbered 1, 2, 3, ... */
  lemma {:induction false} SourceLinesNumbered(cs: seq<Citation>, host: string -> Option<string>)
    ensures SourceLines(cs, host) == Numbered(WithUrl(cs), 1, host)
    decreases |cs|
  {
    if |cs| > 0 {
      var init := cs[..|cs| - 1];
      SourceLinesNumbered(init, host);
      if cs[|cs| - 1].url.Val? {
        NumberedSnoc(WithUrl(init), cs[|cs| - 1], 1, host);
      }
    }
  }

  /** Whether the Sources tail is appended: native citations exist and the text has no Sources heading. */
  predicate AppendsSources(content: string, cs: seq<Citation>) {
    |cs| > 0 && !ContainsIgnoreCase(content, SourcesHeading)
  }

  /** What `call_perplexity` returns for a reply: an exception message, or the article text. */
  function ArticleText(reply: Reply<Completion<()>>, host: string -> Option<string>): Result<string, string> {
    match reply
    case TransportError(m) => Err("Perplexity API error: " + m)
    case Http(code, data) =>
      if code != 200 then Err("Perplexity API returned error: " + IntToString(code))
      else if !data.message.Val? then Err("Invalid Perplexity API response")
      else
        var content := Trim(data.message.v.text);
        var cs := match data.citations case Some(cs) => cs case None => [];
        if AppendsSources(content, cs) then Ok(content + SourcesHeader + SourceLines(cs, host))
        else Ok(content)
  }

  /** What one citation adds to the list under number `n`: its line if it has a URL, else nothing. */
  function Entry(n: nat, c: Citation, host: string -> Option<string>): string {
    if c.url.Val? then SourceLine(n, c, host) else ""
  }

  /** One turn of the loop: the next citation adds its entry. */
  lemma SourceLinesStep(cs: seq<Citation>, k: int, host: string -> Option<string>)
    requires 0 <= k < |cs|
    ensures SourceLines(cs[..k + 1], host) == SourceLines(cs[..k], host) + Entry(1 + |WithUrl(cs[..k])|, cs[k], host)
  {
    var p := cs[..k + 1];
    assert p[..|p| - 1] == cs[..k];
    assert p[|p| - 1] == cs[k];
    if !cs[k].url.Val? {
      assert SourceLines(cs[..k], host) + "" == SourceLines(cs[..k], host);
    }
  }

  lemma WithUrlStep(cs: seq<Citation>, k: int)
    requires 0 <= k < |cs|
    ensures |WithUrl(cs[..k + 1])| == |WithUrl(cs[..k])| + (if cs[k].url.Val? then 1 else 0)
  {
    assert cs[..k + 1][..k] == cs[..k];
  }

  /** The loop of `call_perplexity` that appends the numbered list. */
  method AppendSources(content: string, cs: seq<Citation>, host: string -> Option<string>) returns (out: string)
    ensures out == content + SourcesHeader + SourceLines(cs, host)
  {
    var head := content + SourcesHeader;
    out := head;
    var i: nat := 1;
    var k := 0;
    while k < |cs|
      invariant 0 <= k <= |cs|
      invariant out == head + SourceLines(cs[..k], host)
      invariant i == 1 + |WithUrl(cs[..k])|
    {
      out, i := AppendEntry(head, out, i, cs, k, host);
      k := k + 1;
    }
    assert cs[..|cs|] == cs;
  }

  /** One turn of that loop: a citation with a URL is appended under the next number; one without is skipped. */
  method AppendEntry(head: string, out: string, i: nat, cs: seq<Citation>, k: int, host: string -> Option<string>)
    returns (out': string, i': nat)
    requires 0 <= k < |cs|
    requires out == head + SourceLines(cs[..k], host)
    requires i == 1 + |WithUrl(cs[..k])|
    ensures out' == head + SourceLines(cs[..k + 1], host)
    ensures i' == 1 + |WithUrl(cs[..k + 1])|
  {
    SourceLinesStep(cs, k, host);
    WithUrlStep(cs, k);
    if cs[k].url.Val? {
      out' := out + SourceLine(i, cs[k], host);
      i' := i + 1;
    } else {
      out', i' := out, i;
    }
    assert out' == out + Entry(i, cs[k], host);
    AppendAssoc(head, SourceLines(cs[..k], host), Entry(i, cs[k], host));
  }

  /** `call_perplexity`, from the reply on. */
  method CallPerplexity(reply: Reply<Completion<()>>, host: string -> Option<string>) returns (r: Result<string, string>)
    ensures r == ArticleText(reply, host)
  {
    match reply {
      case TransportError(m) =>
        return Err("Perplexity API error: " + m);
      case Http(code, data) =>
        if code != 200 {
          return Err("Perplexity API returned error: " + IntToString(code));
        }
        if !data.message.Val? {
          return Err("Invalid Perplexity API response");
        }
        var content := Trim(data.message.v.text);
        var cs := [];
        if data.citations.Some? {
          cs := data.citations.value;
        }
        if |cs| > 0 && !ContainsIgnoreCase(content, SourcesHeading) {
          content := AppendSources(content, cs, host);
        }
        return Ok(content);
    }
  }

  /** Failures of the call are exceptions, never article text. */
  lemma ReplyFailures(reply: Reply<Completion<()>>, host: string -> Option<string>)
    ensures ArticleText(reply, host).Ok? <==> reply.Http? && reply.code == 200 && reply.body.message.Val?
    ensures reply.TransportError? ==> ArticleText(reply, host) == Err("Perplexity API error: " + reply.message)
    ensures reply.Http? && reply.code != 200 ==>
      ArticleText(reply, host) == Err("Perplexity API returned error: " + IntToString(reply.code))
  {
  }

  lemma LowerHeading()
    ensures Lower(SourcesHeading) == "## sources"
  {
  }

  /** The heading occurs (case-insensitively) in `content + SourcesHeader + tail`, two characters past `content`. */
  lemma HeaderContainsHeading(content: string, tail: string)
    ensures ContainsIgnoreCase(content + SourcesHeader + tail, SourcesHeading)
  {
    var t := content + SourcesHeader + tail;
    var k := |content| + 2;
    LowerHeading();
    assert forall j :: 0 <= j < 10 ==> t[k + j] == SourcesHeading[j];
    assert Lower(t)[k..k + 10] == Lower(SourcesHeading);
    assert OccursAt(Lower(t), Lower(SourcesHeading), k);
    OccursImpliesContains(Lower(t), Lower(SourcesHeading), k);
  }

  /**
   * With native citations the article always carries a Sources heading, so the
   * tail is never appended twice; the model's own text is kept as a prefix.
   */
  lemma SourcesSectionOnce(reply: Reply<Completion<()>>, host: string -> Option<string>)
    requires ArticleText(reply, host).Ok?
    ensures IsPrefix(Trim(reply.body.message.v.text), ArticleText(reply, host).value)
    ensures reply.body.citations.Some? && |reply.body.citations.value| > 0 ==>
      ContainsIgnoreCase(ArticleText(reply, host).value, SourcesHeading)
  {
    var content := Trim(reply.body.message.v.text);
    var cs := match reply.body.citations case Some(cs) => cs case None => [];
    if AppendsSources(content, cs) {
      HeaderContainsHeading(content, SourceLines(cs, host));
      assert (content + SourcesHeader + SourceLines(cs, host))[..|content|] == content;
    }
  }

  // ---------------------------------------------------------------------------
  // Lines and the headline

  /** `explode("\n", $s)`. */
  function Lines(s: string): (r: seq<string>)
    ensures |r| >= 1
    ensures forall l :: l in r ==> '\n' !in l
    decreases |s|
  {
    if |s| == 0 then [""]
    else
      var rest := Lines(s[1..]);
      if s[0] == '\n' then [""] + rest else [[s[0]] + rest[0]] + rest[1..]
  }

  /** `implode($sep, $parts)`. */
  function Join(parts: seq<string>, sep: string): string
    decreases |parts|
  {
    if |parts| == 0 then "" else if |parts| == 1 then parts[0] else parts[0] + sep + Join(parts[1..], sep)
  }

  /** Joining the lines with newlines gives the text back. */
  lemma {:induction false} JoinLines(s: string)
    ensures Join(Lines(s), "\n") == s
    decreases |s|
  {
    if |s| > 0 {
      var rest := Lines(s[1..]);
      JoinLines(s[1..]);
      if s[0] == '\n' {
        assert ([""] + rest)[1..] == rest;
        assert s == "\n" + s[1..];
      } else if |rest| == 1 {
        assert s == [s[0]] + s[1..];
      } else {
        var l := [[s[0]] + rest[0]] + rest[1..];
        assert l[1..] == rest[1..];
        assert Join(rest, "\n") == rest[0] + "\n" + Join(rest[1..], "\n");
        assert s == [s[0]] + s[1..];
      }
    }
  }

  /** A first line without a newline is split off as it is. */
  lemma {:induction false} LinesFirst(a: string, b: string)
    requires '\n' !in a
    ensures Lines(a + "\n" + b) == [a] + Lines(b)
    decreases |a|
  {
    if |a| == 0 {
      assert a + "\n" + b == "\n" + b;
      assert ("\n" + b)[1..] == b;
    } else {
      assert (a + "\n" + b)[1..] == a[1..] + "\n" + b;
      LinesFirst(a[1..], b);
      assert [a[0]] + a[1..] == a;
    }
  }

  /**
   * `preg_match('/^#\s+(.+)$/', $line, $m)`: the capture, if the line matches.
   * `\s+` is greedy, so the capture is what follows the whitespace run; a line
   * that is only `#` and whitespace matches when the run can give one character
   * back to `(.+)`.
   */
  function Heading(line: string): (r: Option<string>)
    ensures r.Some? ==> |r.value| > 0 && |line| >= 2 && line[0] == '#' && IsSpace(line[1])
  {
    if |line| >= 2 && line[0] == '#' && IsSpace(line[1]) then
      var w := SpaceRun(line[1..]);
      if 1 + w < |line| then Some(line[1 + w..])
      else if w >= 2 then Some([line[|line| - 1]])
      else None
    else None
  }

  /** The trimmed capture of the first line that matches, or "" when none does. */
  function FirstHeading(lines: seq<string>): string
    decreases |lines|
  {
    if |lines| == 0 then ""
    else match Heading(lines[0])
      case Some(c) => Trim(c)
      case None => FirstHeading(lines[1..])
  }

  /** The loop of `create_wordpress_post` that stops at the first heading line. */
  method FindHeadline(lines: seq<string>) returns (headline: string)
    ensures headline == FirstHeading(lines)
  {
    headline := "";
    var i := 0;
    while i < |lines|
      invariant 0 <= i <= |lines|
      invariant FirstHeading(lines) == FirstHeading(lines[i..])
    {
      assert lines[i..][1..] == lines[i + 1..];
      var m := Heading(lines[i]);
      if m.Some? {
        headline := Trim(m.value);
        break;
      }
      i := i + 1;
    }
  }

  /** A rendered `# title` line is found again: its capture is the title. */
  lemma HeadingOfRendered(t: string)
    requires |t| > 0 && !IsSpace(t[0])
    ensures Heading("# " + t) == Some(t)
  {
    var line := "# " + t;
    assert line[1..] == " " + t;
    assert SpaceRun(line[1..]) == 1 by {
      assert (" " + t)[1..] == t;
    }
    assert line[2..] == t;
  }

  /** An article whose first line is `# title` takes that title (trimmed) as headline. */
  lemma HeadlineOfArticle(t: string, rest: string)
    requires |t| > 0 && !IsSpace(t[0]) && '\n' !in t
    ensures FirstHeading(Lines("# " + t + "\n" + rest)) == Trim(t)
  {
    assert '\n' !in "# " + t;
    LinesFirst("# " + t, rest);
    HeadingOfRendered(t);
  }

  /** Lines before the first heading are skipped, whatever they hold. */
  lemma {:induction false} HeadingsSkipped(before: seq<string>, after: seq<string>)
    requires forall l :: l in before ==> Heading(l).None?
    ensures FirstHeading(before + after) == FirstHeading(after)
    decreases |before|
  {
    if |before| > 0 {
      assert before[0] in before;
      assert (before + after)[0] == before[0];
      assert (before + after)[1..] == before[1..] + after;
      assert forall l :: l in before[1..] ==> l in before;
      HeadingsSkipped(before[1..], after);
    } else {
      assert before + after == after;
    }
  }

  // ---------------------------------------------------------------------------
  // `wp_trim_words` in its word-based mode

  predicate IsWordBreak(c: char) { c == ' ' || c == '\t' || c == '\n' || c == '\r' }

  predicate IsWord(w: string) {
    |w| > 0 && forall i :: 0 <= i < |w| ==> !IsWordBreak(w[i])
  }

  function WordLen(s: string): (n: nat)
    ensures n <= |s|
    ensures forall i :: 0 <= i < n ==> !IsWordBreak(s[i])
    ensures n == |s| || IsWordBreak(s[n])
    decreases |s|
  {
    if |s| > 0 && !IsWordBreak(s[0]) then 1 + WordLen(s[1..]) else 0
  }

  /** `preg_split("/[\n\r\t ]+/", $text, -1, PREG_SPLIT_NO_EMPTY)`. */
  function Words(s: string): (r: seq<string>)
    ensures forall w :: w in r ==> IsWord(w)
    decreases |s|
  {
    if |s| == 0 then []
    else if IsWordBreak(s[0]) then Words(s[1..])
    else
      var n := WordLen(s);
      [s[..n]] + Words(s[n..])
  }

  /** The first `n` words joined by single spaces, with `more` appended when words were dropped. */
  function TrimWords(text: string, n: nat, more: string): (r: string)
    ensures |Words(text)| <= n ==> Words(r) == Words(text)
    ensures |Words(text)| > n ==>
      |more| <= |r| && r[|r| - |more|..] == more && Words(r[..|r| - |more|]) == Words(text)[..n]
  {
    var ws := Words(text);
    if |ws| > n then
      var r := Join(ws[..n], " ") + more;
      assert forall w :: w in ws[..n] ==> w in ws;
      WordsOfJoin(ws[..n]);
      assert r[..|r| - |more|] == Join(ws[..n], " ");
      r
    else
      WordsOfJoin(ws);
      Join(ws, " ")
  }

  lemma WordLenOfWord(w: string, rest: string)
    requires IsWord(w)
    requires rest == [] || IsWordBreak(rest[0])
    ensures WordLen(w + rest) == |w|
    decreases |w|
  {
    if |w| > 1 {
      assert (w + rest)[1..] == w[1..] + rest;
      WordLenOfWord(w[1..], rest);
    } else {
      assert (w + rest)[1..] == rest;
    }
  }

  /** Splitting words joined by spaces gives the words back. */
  lemma {:induction false} WordsOfJoin(ws: seq<string>)
    requires forall w :: w in ws ==> IsWord(w)
    ensures Words(Join(ws, " ")) == ws
    decreases |ws|
  {
    if |ws| == 1 {
      WordLenOfWord(ws[0], "");
      assert ws[0][..|ws[0]|] == ws[0];
      assert ws[0][|ws[0]|..] == [];
    } else if |ws| > 1 {
      var w := ws[0];
      var rest := " " + Join(ws[1..], " ");
      var s := w + rest;
      assert Join(ws, " ") == s;
      WordLenOfWord(w, rest);
      assert s[..|w|] == w;
      assert s[|w|..] == rest;
      assert rest[1..] == Join(ws[1..], " ");
      WordsOfJoin(ws[1..]);
      assert ws == [w] + ws[1..];
    }
  }

  /** Text that already is at most `n` words separated by single spaces is left as it is. */
  lemma TrimWordsKeepsShort(ws: seq<string>, n: nat, more: string)
    requires forall w :: w in ws ==> IsWord(w)
    requires |ws| <= n
    ensures TrimWords(Join(ws, " "), n, more) == Join(ws, " ")
  {
    WordsOfJoin(ws);
  }

  /** Longer text keeps exactly its first `n` words, then `more`. */
  lemma TrimWordsCutsLong(ws: seq<string>, n: nat, more: string)
    requires forall w :: w in ws ==> IsWord(w)
    requires |ws| > n
    ensures TrimWords(Join(ws, " "), n, more) == Join(ws[..n], " ") + more
  {
    WordsOfJoin(ws);
  }

  // ---------------------------------------------------------------------------
  // Headline, category and the draft post

  /** The post title: the first heading, else "Fact Check: " and the claim's first ten words. */
  function Headline(article: string, claimText: string, stripTags: string -> string): (h: string)
    ensures !Empty(FirstHeading(Lines(article))) ==> h == FirstHeading(Lines(article))
    ensures Empty(FirstHeading(Lines(article))) ==> h == "Fact Check: " + TrimWords(stripTags(claimText), 10, "...")
  {
    var found := FirstHeading(Lines(article));
    if Empty(found) then
      "Fact Check: " + TrimWords(stripTags(claimText), 10, "...")
    else found
  }

  /** `get_category_name`. */
  function CategoryName(slug: string): string {
    match slug
    case "health" => "Health & Medicine"
    case "politics" => "Politics & Government"
    case "economy" => "Economy & Finance"
    case "immigration" => "Immigration"
    case "climate" => "Climate & Environment"
    case "covid" => "COVID-19"
    case "crime" => "Crime & Justice"
    case "international" => "International Affairs"
    case _ => "Fact Check"
  }

  /** A category the collector assigns is named after its topic unless it is "uncategorized". */
  lemma CollectedCategoryNames(text: string)
    ensures CategoryName(Collector.CategoryOf(text)) == "Fact Check" <==>
      Collector.CategoryOf(text) == "uncategorized"
  {
    Collector.CategoryIsKnown(text);
  }

  /** The draft created by `create_wordpress_post`. */
  datatype Post = Post(
    id: nat,
    title: string,
    markdown: string,            // rendered to HTML by markdown_to_html, which is not modelled
    status: string,
    postType: string,
    category: Option<string>,
    tags: seq<string>,
    meta: map<string, string>)

  /** The post metas written for the claim; the source URL only when it is not empty. */
  function ClaimMeta(claim: Claim): (m: map<string, string>)
    ensures "_facty_pro_source_url" in m <==> !Empty(claim.sourceUrl)
    ensures "_facty_pro_original_claim" in m && m["_facty_pro_original_claim"] == claim.claimText
  {
    var base := map["_facty_pro_claim_id" := NatToString(claim.id),
                    "_facty_pro_original_claim" := claim.claimText,
                    "_facty_pro_claim_source" := claim.source,
                    "_facty_pro_claim_rating" := claim.rating];
    if Empty(claim.sourceUrl) then base else base["_facty_pro_source_url" := claim.sourceUrl]
  }

  /**
   * The WordPress side of post creation, as inputs: `wp_insert_post` gives a post id
   * or an error message; the category term is found or created, or its creation fails.
   * The generator calls `wp_insert_post` without asking for a `WP_Error`, so WordPress
   * reports a failed insert as post id 0 and the error case of `insert` is never taken
   * there (includes/class-facty-pro-article-generator.php:271-275); it is kept for the
   * `is_wp_error` branch the code guards with.
   */
  datatype Site = Site(insert: Result<nat, string>, termAvailable: bool)

  function CreatePost(claim: Claim, article: string, site: Site, stripTags: string -> string): (r: Result<Post, string>)
    ensures site.insert.Err? ==> r == Err("Failed to create post: " + site.insert.error)
    ensures site.insert.Ok? ==>
      r.Ok? && r.value.id == site.insert.value && r.value.markdown == article &&
      r.value.title == Headline(article, claim.claimText, stripTags) && r.value.status == "draft"
  {
    match site.insert
    case Err(m) => Err("Failed to create post: " + m)
    case Ok(id) =>
      Ok(Post(id, Headline(article, claim.claimText, stripTags), article, "draft", "post",
              if site.termAvailable then Some(CategoryName(claim.category)) else None,
              ["fact-check", "misinformation", claim.category], ClaimMeta(claim)))
  }

  /** `generate_article`: key check, research call, article call, post creation; the first failure is the result. */
  function Generated(apiKey: string, claim: Claim, research: Reply<Completion<()>>, article: Reply<Completion<()>>,
                     site: Site, host: string -> Option<string>, stripTags: string -> string): (r: Result<Post, string>)
    ensures Empty(apiKey) ==> r == Err("Perplexity API key not configured")
    ensures r.Ok? ==> ArticleText(article, host).Ok? && r == CreatePost(claim, ArticleText(article, host).value, site, stripTags)
  {
    if Empty(apiKey) then Err("Perplexity API key not configured")
    else match ArticleText(research, host)
      case Err(m) => Err(m)
      case Ok(_) =>
        match ArticleText(article, host)
        case Err(m) => Err(m)
        case Ok(text) => CreatePost(claim, text, site, stripTags)
  }

  method GenerateArticle(apiKey: string, claim: Claim, research: Reply<Completion<()>>, article: Reply<Completion<()>>,
                         site: Site, host: string -> Option<string>, stripTags: string -> string)
    returns (r: Result<Post, string>)
    ensures r == Generated(apiKey, claim, research, article, site, host, stripTags)
  {
    if Empty(apiKey) {
      return Err("Perplexity API key not configured");
    }
    var found := CallPerplexity(research, host);
    if found.Err? {
      return Err(found.error);
    }
    var text := CallPerplexity(article, host);
    if text.Err? {
      return Err(text.error);
    }
    var lines := Lines(text.value);
    var headline := FindHeadline(lines);
    if Empty(headline) {
      headline := "Fact Check: " + TrimWords(stripTags(claim.claimText), 10, "...");
    }
    match site.insert {
      case Err(m) =>
        r := Err("Failed to create post: " + m);
      case Ok(id) =>
        var category := if site.termAvailable then Some(CategoryName(claim.category)) else None;
        r := Ok(Post(id, headline, text.value, "draft", "post", category,
                     ["fact-check", "misinformation", claim.category], ClaimMeta(claim)));
    }
  }

  /** What a generated post always is: a draft of type post, tagged, with the claim recorded. */
  lemma GeneratedIsDraft(apiKey: string, claim: Claim, research: Reply<Completion<()>>, article: Reply<Completion<()>>,
                         site: Site, host: string -> Option<string>, stripTags: string -> string)
    ensures Empty(apiKey) ==> (Generated(apiKey, claim, research, article, site, host, stripTags) ==
      Err("Perplexity API key not configured"))
    ensures Generated(apiKey, claim, research, article, site, host, stripTags).Ok? <==>
      !Empty(apiKey) && ArticleText(research, host).Ok? && ArticleText(article, host).Ok? && site.insert.Ok?
    ensures var g := Generated(apiKey, claim, research, article, site, host, stripTags);
      g.Ok? ==> (g.value.status == "draft" && g.value.postType == "post" && g.value.id == site.insert.value
        && g.value.tags == ["fact-check", "misinformation", claim.category]
        && "_facty_pro_original_claim" in g.value.meta
        && g.value.meta["_facty_pro_original_claim"] == claim.claimText
        && g.value.markdown == ArticleText(article, host).value)
  {
  }
}
