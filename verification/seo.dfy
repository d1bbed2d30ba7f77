/**
 * The SEO analyzer: six sections (title, content, meta description, headings,
 * images, links), each giving issues, a penalty and recommendations, and a
 * score that starts at 100 and loses every section's penalty.
 *
 * The regex and word counting the analyzer leans on (`wp_strip_all_tags`,
 * `str_word_count`, the `<h1>`/`<h2>`/`<img>`/`<a href>` matches and the alt
 * test of each image) are not modelled: a post comes with their results.
 */
module Seo {
  import opened Php

  /**
   * What an issue reports; `MessageText` gives the `message` string. The two
   * counting messages carry their count.
   */
  datatype Finding =
    | TitleTooShort
    | TitleTooLong
    | ContentThin
    | ContentShort
    | NoMetaDescription
    | MetaTooShort
    | MetaTooLong
    | NoH2
    | MultipleH1
    | NoImages
    | NoLinks
    | LongParagraphsFound(paragraphs: nat)
    | MissingAltText(images: nat)

  /** The `message` text of each finding. */
  function MessageText(f: Finding): string {
    match f
    case TitleTooShort => "Title is too short (< 30 characters)"
    case TitleTooLong => "Title is too long (> 70 characters), may be truncated in search results"
    case ContentThin => "Content is too thin (< 300 words)"
    case ContentShort => "Content is relatively short (< 600 words)"
    case NoMetaDescription => "No meta description set"
    case MetaTooShort => "Meta description is too short (< 120 characters)"
    case MetaTooLong => "Meta description is too long (> 170 characters)"
    case NoH2 => "No H2 headings found"
    case MultipleH1 => "Multiple H1 headings found (should only use one)"
    case NoImages => "No images found in content"
    case NoLinks => "No links found in content"
    case LongParagraphsFound(n) => "Found " + NatToString(n) + " paragraph(s) with > 150 words"
    case MissingAltText(n) => NatToString(n) + " image(s) missing alt text"
  }

  /** A recommendation; `AdviceText` gives its string. */
  datatype Advice =
    | ExpandTitle
    | ShortenTitle
    | AddPowerWords
    | ExpandThinContent
    | ExpandShortContent
    | BreakParagraphs
    | AddMetaDescription
    | ExpandMetaDescription
    | ShortenMetaDescription
    | AddH2
    | SingleH1
    | AddImages
    | AddAltText
    | AddLinks

  /** The text of each recommendation. */
  function AdviceText(a: Advice): string {
    match a
    case ExpandTitle => "Expand your title to 50-60 characters for better SEO. Include your main keyword and make it compelling."
    case ShortenTitle => "Shorten your title to 50-60 characters to avoid truncation in search results."
    case AddPowerWords => "Consider adding power words like \"Ultimate\", \"Complete\", \"Essential\" to make your title more compelling."
    case ExpandThinContent => "Expand your content to at least 300 words. Aim for 1000-2000 words for comprehensive coverage and better SEO."
    case ExpandShortContent => "Consider expanding your content. Articles with 1000-2000 words tend to perform better in search results."
    case BreakParagraphs => "Break up long paragraphs into smaller chunks (50-100 words) for better readability."
    case AddMetaDescription => "Add a compelling meta description (150-160 characters) that summarizes your content and encourages clicks."
    case ExpandMetaDescription => "Expand your meta description to 150-160 characters for optimal display in search results."
    case ShortenMetaDescription => "Shorten your meta description to 150-160 characters to avoid truncation."
    case AddH2 => "Add H2 headings to structure your content. Use them to break up sections and include relevant keywords."
    case SingleH1 => "Use only one H1 heading per page (typically your title). Change additional H1s to H2 or H3."
    case AddImages => "Add relevant images to your content. Visual content improves engagement and helps with SEO."
    case AddAltText => "Add descriptive alt text to all images for accessibility and SEO. Include relevant keywords naturally."
    case AddLinks => "Add both internal links (to related content) and external links (to authoritative sources) to improve SEO and user experience."
  }

  /** An entry of `issues`: its `type`, its `message` (as a finding) and `severity`. */
  datatype Issue = Issue(kind: string, message: Finding, severity: string)

  /** What one `analyze_*` helper returns. */
  datatype Section = Section(issues: seq<Issue>, penalty: nat, recommendations: seq<Advice>)

  /** What `analyze` returns, without the `analyzed_at` clock reading. */
  datatype Report = Report(score: int, issues: seq<Issue>, recommendations: seq<Advice>)

  /**
   * A post as the analyzer sees it: the title and meta description as strings,
   * and the counts the regexes give over the content.
   */
  datatype Post = Post(
    title: string,
    wordCount: nat,                 // str_word_count of the tag-stripped content
    paragraphWords: seq<nat>,       // str_word_count of each "\n\n"-separated piece
    metaDescription: string,
    h2Count: nat,
    h1Count: nat,
    imagesWithAlt: seq<bool>,       // per <img> tag: does it carry a quoted alt attribute
    linkCount: nat)

  /** The meta description: Yoast's, else All in One SEO's, else "" (PHP `?:`). */
  function MetaDescription(yoast: string, aioseop: string): (d: string)
    ensures !Empty(yoast) ==> d == yoast
    ensures Empty(yoast) && !Empty(aioseop) ==> d == aioseop
    ensures Empty(d) <==> Empty(yoast) && Empty(aioseop)
  {
    if !Empty(yoast) then yoast else if !Empty(aioseop) then aioseop else ""
  }

  // ---------------------------------------------------------------- title

  const PowerWords: seq<string> := ["best", "guide", "ultimate", "complete", "essential", "proven",
    "powerful", "effective", "how to", "tips", "strategies"]

  /** Some power word occurs in the title, ignoring ASCII case (`stripos`). */
  predicate HasPowerWord(title: string) {
    exists w :: w in PowerWords && ContainsIgnoreCase(title, w)
  }

  /** `analyze_title`: a length ladder (< 30 costs 10, > 70 costs 5) and a power-word hint. */
  function TitleSection(title: string): (s: Section)
    ensures s.penalty == (if |title| < 30 then 10 else if |title| > 70 then 5 else 0)
    ensures s.penalty == 0 <==> s.issues == []
    ensures |s.issues| <= 1
    ensures |s.recommendations| == |s.issues| + (if HasPowerWord(title) then 0 else 1)
  {
    var length :=
      if |title| < 30 then
        Section([Issue("warning", TitleTooShort, "medium")], 10,
                [ExpandTitle])
      else if |title| > 70 then
        Section([Issue("warning", TitleTooLong, "medium")], 5,
                [ShortenTitle])
      else Section([], 0, []);
    if HasPowerWord(title) then length
    else length.(recommendations := length.recommendations +
      [AddPowerWords])
  }

  // ---------------------------------------------------------------- content

  /** How many paragraphs have more than 150 words. */
  function LongParagraphs(ps: seq<nat>): (n: nat)
    ensures n <= |ps|
    decreases |ps|
  {
    if |ps| == 0 then 0
    else LongParagraphs(ps[..|ps| - 1]) + (if ps[|ps| - 1] > 150 then 1 else 0)
  }

  /** The count is positive exactly when some paragraph is long. */
  lemma {:induction false} LongParagraphsPositive(ps: seq<nat>)
    ensures LongParagraphs(ps) > 0 <==> exists i :: 0 <= i < |ps| && ps[i] > 150
    decreases |ps|
  {
    if |ps| > 0 {
      var init := ps[..|ps| - 1];
      LongParagraphsPositive(init);
      if exists i :: 0 <= i < |init| && init[i] > 150 {
        var i :| 0 <= i < |init| && init[i] > 150;
        assert ps[i] == init[i];
      }
      if exists i :: 0 <= i < |ps| && ps[i] > 150 {
        var i :| 0 <= i < |ps| && ps[i] > 150;
        if i < |ps| - 1 {
          assert init[i] == ps[i];
        }
      }
    }
  }

  /** The paragraph loop of `analyze_content`. */
  method CountLongParagraphs(ps: seq<nat>) returns (n: nat)
    ensures n == LongParagraphs(ps)
  {
    n := 0;
    var i := 0;
    while i < |ps|
      invariant 0 <= i <= |ps|
      invariant n == LongParagraphs(ps[..i])
    {
      assert ps[..i + 1][..i] == ps[..i];
      if ps[i] > 150 {
        n := n + 1;
      }
      i := i + 1;
    }
    assert ps[..|ps|] == ps;
  }

  /**
   * `analyze_content` given the word count and the number of long paragraphs:
   * < 300 words costs 20, < 600 costs 10, and any long paragraph 3 more.
   */
  function ContentSection(wordCount: nat, longParagraphs: nat): (s: Section)
    ensures s.penalty == (if wordCount < 300 then 20 else if wordCount < 600 then 10 else 0)
                         + (if longParagraphs > 0 then 3 else 0)
    ensures s.penalty == 0 <==> s.issues == []
    ensures |s.recommendations| == |s.issues| <= 2
  {
    var words :=
      if wordCount < 300 then
        Section([Issue("error", ContentThin, "high")], 20,
                [ExpandThinContent])
      else if wordCount < 600 then
        Section([Issue("warning", ContentShort, "medium")], 10,
                [ExpandShortContent])
      else Section([], 0, []);
    if longParagraphs > 0 then
      Section(words.issues + [Issue("info", LongParagraphsFound(longParagraphs), "low")],
              words.penalty + 3,
              words.recommendations + [BreakParagraphs])
    else words
  }

  /** More words never cost more. */
  lemma ContentPenaltyAntitone(w1: nat, w2: nat, long: nat)
    requires w1 <= w2
    ensures ContentSection(w2, long).penalty <= ContentSection(w1, long).penalty
  {
  }

  // ---------------------------------------------------------------- meta description

  /** `analyze_meta_description`: empty costs 15, under 120 characters 8, over 170 characters 5. */
  function MetaSection(meta: string): (s: Section)
    ensures s.penalty == (if Empty(meta) then 15 else if |meta| < 120 then 8 else if |meta| > 170 then 5 else 0)
    ensures s.penalty == 0 <==> s.issues == []
    ensures |s.recommendations| == |s.issues| <= 1
  {
    if Empty(meta) then
      Section([Issue("error", NoMetaDescription, "high")], 15,
              [AddMetaDescription])
    else if |meta| < 120 then
      Section([Issue("warning", MetaTooShort, "medium")], 8,
              [ExpandMetaDescription])
    else if |meta| > 170 then
      Section([Issue("warning", MetaTooLong, "medium")], 5,
              [ShortenMetaDescription])
    else Section([], 0, [])
  }

  // ---------------------------------------------------------------- headings

  /** `analyze_headings`: no H2 costs 15 and more than one H1 costs 8. */
  function HeadingsSection(h2Count: nat, h1Count: nat): (s: Section)
    ensures s.penalty == (if h2Count == 0 then 15 else 0) + (if h1Count > 1 then 8 else 0)
    ensures s.penalty == 0 <==> s.issues == []
    ensures |s.recommendations| == |s.issues| <= 2
  {
    var h2 :=
      if h2Count == 0 then
        Section([Issue("error", NoH2, "high")], 15,
                [AddH2])
      else Section([], 0, []);
    if h1Count > 1 then
      Section(h2.issues + [Issue("warning", MultipleH1, "medium")],
              h2.penalty + 8,
              h2.recommendations + [SingleH1])
    else h2
  }

  // ---------------------------------------------------------------- images

  /** How many images lack alt text. */
  function MissingAlt(images: seq<bool>): (n: nat)
    ensures n <= |images|
    decreases |images|
  {
    if |images| == 0 then 0
    else MissingAlt(images[..|images| - 1]) + (if images[|images| - 1] then 0 else 1)
  }

  /** The count is positive exactly when some image lacks alt text. */
  lemma {:induction false} MissingAltPositive(images: seq<bool>)
    ensures MissingAlt(images) > 0 <==> exists i :: 0 <= i < |images| && !images[i]
    decreases |images|
  {
    if |images| > 0 {
      var init := images[..|images| - 1];
      MissingAltPositive(init);
      if exists i :: 0 <= i < |init| && !init[i] {
        var i :| 0 <= i < |init| && !init[i];
        assert images[i] == init[i];
      }
      if exists i :: 0 <= i < |images| && !images[i] {
        var i :| 0 <= i < |images| && !images[i];
        if i < |images| - 1 {
          assert init[i] == images[i];
        }
      }
    }
  }

  /** The alt-text loop of `analyze_images`. */
  method CountMissingAlt(images: seq<bool>) returns (n: nat)
    ensures n == MissingAlt(images)
  {
    n := 0;
    var i := 0;
    while i < |images|
      invariant 0 <= i <= |images|
      invariant n == MissingAlt(images[..i])
    {
      assert images[..i + 1][..i] == images[..i];
      if !images[i] {
        n := n + 1;
      }
      i := i + 1;
    }
    assert images[..|images|] == images;
  }

  /**
   * `analyze_images` given the number of images and how many lack alt text:
   * no image costs 10, and otherwise any missing alt costs 10.
   */
  function ImagesSection(imageCount: nat, missingAlt: nat): (s: Section)
    ensures s.penalty == (if imageCount == 0 || missingAlt > 0 then 10 else 0)
    ensures s.penalty == 0 <==> s.issues == []
    ensures |s.recommendations| == |s.issues| <= 1
  {
    if imageCount == 0 then
      Section([Issue("warning", NoImages, "medium")], 10,
              [AddImages])
    else if missingAlt > 0 then
      Section([Issue("warning", MissingAltText(missingAlt), "medium")], 10,
              [AddAltText])
    else Section([], 0, [])
  }

  // ---------------------------------------------------------------- links

  /** `analyze_links`: no link costs 8. */
  function LinksSection(linkCount: nat): (s: Section)
    ensures s.penalty == (if linkCount == 0 then 8 else 0)
    ensures s.penalty == 0 <==> s.issues == []
    ensures |s.recommendations| == |s.issues| <= 1
  {
    if linkCount == 0 then
      Section([Issue("warning", NoLinks, "medium")], 8,
              [AddLinks])
    else Section([], 0, [])
  }

  // ---------------------------------------------------------------- analyze

  /** The total penalty of six sections. */
  function Penalty(t: Section, c: Section, m: Section, h: Section, i: Section, l: Section): nat {
    t.penalty + c.penalty + m.penalty + h.penalty + i.penalty + l.penalty
  }

  /** The report of six sections: 100 less every penalty, at least 0, and the sections' lists in order. */
  function Combine(t: Section, c: Section, m: Section, h: Section, i: Section, l: Section): Report {
    var score := 100 - Penalty(t, c, m, h, i, l);
    Report(if score < 0 then 0 else score,
           t.issues + c.issues + m.issues + h.issues + i.issues + l.issues,
           t.recommendations + c.recommendations + m.recommendations +
           h.recommendations + i.recommendations + l.recommendations)
  }

  /** The report `analyze` gives for a post. */
  function SeoReport(post: Post): Report {
    Combine(TitleSection(post.title),
            ContentSection(post.wordCount, LongParagraphs(post.paragraphWords)),
            MetaSection(post.metaDescription),
            HeadingsSection(post.h2Count, post.h1Count),
            ImagesSection(|post.imagesWithAlt|, MissingAlt(post.imagesWithAlt)),
            LinksSection(post.linkCount))
  }

  /** `analyze`: the score loses each section's penalty in turn, and the lists grow section by section. */
  method Analyze(post: Post) returns (r: Report)
    ensures r == SeoReport(post)
    ensures 11 <= r.score <= 100
  {
    var issues: seq<Issue> := [];
    var score := 100;
    var recommendations: seq<Advice> := [];

    var title := TitleSection(post.title);
    issues := issues + title.issues;
    score := score - title.penalty;
    recommendations := recommendations + title.recommendations;

    var long := CountLongParagraphs(post.paragraphWords);
    var content := ContentSection(post.wordCount, long);
    issues := issues + content.issues;
    score := score - content.penalty;
    recommendations := recommendations + content.recommendations;

    var meta := MetaSection(post.metaDescription);
    issues := issues + meta.issues;
    score := score - meta.penalty;
    recommendations := recommendations + meta.recommendations;

    var headings := HeadingsSection(post.h2Count, post.h1Count);
    issues := issues + headings.issues;
    score := score - headings.penalty;
    recommendations := recommendations + headings.recommendations;

    var missing := CountMissingAlt(post.imagesWithAlt);
    var images := ImagesSection(|post.imagesWithAlt|, missing);
    issues := issues + images.issues;
    score := score - images.penalty;
    recommendations := recommendations + images.recommendations;

    var links := LinksSection(post.linkCount);
    issues := issues + links.issues;
    score := score - links.penalty;
    recommendations := recommendations + links.recommendations;

    score := if score < 0 then 0 else score;
    r := Report(score, issues, recommendations);
    assert [] + title.issues == title.issues && [] + title.recommendations == title.recommendations;
    assert r == Combine(title, content, meta, headings, images, links);
    ScoreBounds(post);
  }

  /** The penalties add up to at most 10 + 23 + 15 + 23 + 10 + 8 = 89, so the score is between 11 and 100. */
  lemma ScoreBounds(post: Post)
    ensures 11 <= SeoReport(post).score <= 100
  {
  }

  /** A post scores 100 exactly when no section reports an issue. */
  lemma PerfectIffNoIssues(post: Post)
    ensures SeoReport(post).score == 100 <==> SeoReport(post).issues == []
  {
    CombinePerfect(TitleSection(post.title),
                   ContentSection(post.wordCount, LongParagraphs(post.paragraphWords)),
                   MetaSection(post.metaDescription),
                   HeadingsSection(post.h2Count, post.h1Count),
                   ImagesSection(|post.imagesWithAlt|, MissingAlt(post.imagesWithAlt)),
                   LinksSection(post.linkCount));
  }

  /** Sections that report an issue exactly when they cost something combine the same way. */
  lemma CombinePerfect(t: Section, c: Section, m: Section, h: Section, i: Section, l: Section)
    requires t.penalty == 0 <==> t.issues == []
    requires c.penalty == 0 <==> c.issues == []
    requires m.penalty == 0 <==> m.issues == []
    requires h.penalty == 0 <==> h.issues == []
    requires i.penalty == 0 <==> i.issues == []
    requires l.penalty == 0 <==> l.issues == []
    ensures Combine(t, c, m, h, i, l).score == 100 <==> Combine(t, c, m, h, i, l).issues == []
  {
    var all := t.issues + c.issues + m.issues + h.issues + i.issues + l.issues;
    assert |all| == |t.issues| + |c.issues| + |m.issues| + |h.issues| + |i.issues| + |l.issues|;
  }

  /** The bound 11 is reached: a post that fails every check. */
  lemma WorstScore()
    ensures SeoReport(Post("", 151, [151], "", 0, 2, [], 0)).score == 11
  {
    assert LongParagraphs([151]) == 1 by {
      assert [151][..0] == [];
    }
  }
}
