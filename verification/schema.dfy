/**
 * The ClaimReview structured data (schema.org `ClaimReview` with a `Rating`)
 * printed in the head of a verified article: a 1-5 rating value and a truth
 * rating named after the fact-check score.
 *
 * The JSON encoding and the `<script type="application/ld+json">` wrapper are
 * not modelled; the page facts WordPress supplies are a parameter.
 */
module Schema {
  import opened Php
  import Core

  /** What WordPress says about the page being rendered. */
  datatype Page = Page(
    isSingle: bool,
    postId: nat,
    permalink: string,
    title: string,
    authorName: string,
    published: string,          // get_the_date('c')
    modified: string,           // get_the_modified_date('c')
    blogName: string,
    homeUrl: string)

  datatype Rating = Rating(ratingValue: int, bestRating: int, worstRating: int, alternateName: string)

  datatype CreativeWork = CreativeWork(authorName: string, datePublished: string, name: string)

  datatype Organization = Organization(name: string, url: string)

  datatype ClaimReview = ClaimReview(
    url: string,
    claimReviewed: string,
    itemReviewed: CreativeWork,
    author: Organization,
    reviewRating: Rating,
    datePublished: string)

  /** `max(1, min(5, round($score / 20)))`. */
  function RatingValue(score: int): (v: int)
    ensures 1 <= v <= 5
    ensures 0 <= score ==> v == (if score < 30 then 1 else if score >= 90 then 5 else (score + 10) / 20)
  {
    var r := Round(score as real / 20.0);
    if r > 5 then 5 else if r < 1 then 1 else r
  }

  /** A higher score never gives a lower rating value. */
  lemma RatingValueMonotone(a: int, b: int)
    requires a <= b
    ensures RatingValue(a) <= RatingValue(b)
  {
    assert a as real / 20.0 <= b as real / 20.0;
    RoundMonotone(a as real / 20.0, b as real / 20.0);
  }

  lemma RoundMonotone(x: real, y: real)
    requires x <= y
    ensures Round(x) <= Round(y)
  {
  }

  /** The truth rating: 95, 85, 70 and 50 are the boundaries. */
  function TruthRating(score: int): (t: string)
    ensures t in {"True", "Mostly True", "Mixture", "Mostly False", "False"}
    ensures t == "True" <==> score >= 95
    ensures t == "False" <==> score < 50
  {
    if score >= 95 then "True"
    else if score >= 85 then "Mostly True"
    else if score >= 70 then "Mixture"
    else if score >= 50 then "Mostly False"
    else "False"
  }

  /** The truth ratings from worst to best. */
  function TruthRank(t: string): nat {
    if t == "True" then 4
    else if t == "Mostly True" then 3
    else if t == "Mixture" then 2
    else if t == "Mostly False" then 1
    else 0
  }

  /** A higher score never gives a lower truth band. */
  lemma TruthRatingMonotone(a: int, b: int)
    requires a <= b
    ensures TruthRank(TruthRating(a)) <= TruthRank(TruthRating(b))
  {
  }

  /** The two scales agree at their ends: "True" is rated 5 and "False" at most 2. */
  lemma RatingsAgree(score: int)
    ensures TruthRating(score) == "True" ==> RatingValue(score) == 5
    ensures TruthRating(score) == "False" ==> RatingValue(score) <= 2
  {
    if score >= 95 {
      assert score as real / 20.0 >= 4.75;
    } else if score < 50 {
      assert score as real / 20.0 < 2.5;
    }
  }

  /** The review of a verified report. */
  function Review(page: Page, score: int): (c: ClaimReview)
    ensures c.reviewRating == Rating(RatingValue(score), 5, 1, TruthRating(score))
    ensures c.url == page.permalink && c.claimReviewed == page.title
  {
    ClaimReview(page.permalink, page.title,
                CreativeWork(page.authorName, page.published, page.title),
                Organization(page.blogName, page.homeUrl),
                Rating(RatingValue(score), 5, 1, TruthRating(score)),
                page.modified)
  }

  /**
   * `add_claimreview_schema`: nothing unless the page is a single view, the post's
   * verified meta is truthy, and the post has a verified report; then the review
   * of the latest verified report.
   */
  function ClaimReviewFor(page: Page, meta: map<Core.MetaKey, string>, reports: seq<Core.ReportRow>): (c: Option<ClaimReview>)
    ensures c.Some? <==>
      page.isSingle && !Empty(Core.MetaValue(meta, page.postId, Core.VerifiedKey)) &&
      Core.Latest(reports, page.postId, true).Some?
    ensures c.Some? ==> c.value == Review(page, Core.Latest(reports, page.postId, true).value.factCheckScore)
  {
    if !page.isSingle then None
    else if Empty(Core.MetaValue(meta, page.postId, Core.VerifiedKey)) then None
    else match Core.Latest(reports, page.postId, true)
      case None => None
      case Some(r) => Some(Review(page, r.factCheckScore))
  }

  /** After the verify action on one of its reports, a post's single view carries the review of that report or a later verified one. */
  lemma VerifyShowsReview(page: Page, meta: map<Core.MetaKey, string>, reports: seq<Core.ReportRow>,
                          i: int, user: nat, stamp: string)
    requires page.isSingle && 0 <= i < |reports| && reports[i].postId == page.postId
    ensures var rows := Core.MarkVerified(reports, reports[i].id, user, stamp);
      ClaimReviewFor(page, Core.VerifiedMeta(meta, page.postId, user, stamp), rows).Some?
  {
    var rows := Core.MarkVerified(reports, reports[i].id, user, stamp);
    assert Core.Selected(rows[i], page.postId, true);
    assert rows[i] in rows;
    assert Core.MetaValue(Core.VerifiedMeta(meta, page.postId, user, stamp), page.postId, Core.VerifiedKey) == "1";
  }

  /** After the unverify action on a post, its pages carry no review, whatever the reports say. */
  lemma UnverifyHidesReview(page: Page, meta: map<Core.MetaKey, string>, reports: seq<Core.ReportRow>)
    ensures ClaimReviewFor(page, Core.UnverifiedMeta(meta, page.postId), reports).None?
  {
  }
}
