/**
 * The plugin's main class: its options (saved values over defaults), which
 * components and hooks it sets up, the front-end verification badge, and the
 * reports table with the verify / unverify actions that an editor takes on a
 * report and on the post's meta.
 *
 * The database and post meta are modelled in memory: the reports table as a
 * sequence of rows and post meta as a map from (post, key) to the stored
 * string. AJAX nonce and capability checks are not modelled.
 */
module Core {
  import opened Php
  import Perplexity
  import Seo
  import Style

  // ---------------------------------------------------------------- options

  /** The options map `get_option('facty_pro_options')` holds, keyed by option name. */
  type Options = map<string, Scalar>

  const Defaults: Options := map[
    "perplexity_api_key" := SStr(""),
    "perplexity_model" := SStr("sonar-pro"),
    "enable_seo_analysis" := SBool(true),
    "enable_style_analysis" := SBool(true),
    "enable_readability_analysis" := SBool(true),
    "show_frontend_badge" := SBool(true),
    "require_verification" := SBool(true),
    "add_schema_markup" := SBool(true),
    "recency_filter" := SStr("week")]

  /** `load_options`: `array_merge($default_options, $saved_options)` on string keys. */
  function LoadOptions(saved: Options): (o: Options)
    ensures o.Keys == Defaults.Keys + saved.Keys
    ensures forall k :: k in saved ==> o[k] == saved[k]
    ensures forall k :: k in Defaults && k !in saved ==> o[k] == Defaults[k]
  {
    Defaults + saved
  }

  /** Saving the loaded options and loading them again changes nothing. */
  lemma LoadOptionsStable(saved: Options)
    ensures LoadOptions(LoadOptions(saved)) == LoadOptions(saved)
  {
    var o := LoadOptions(saved);
    var o2 := LoadOptions(o);
    assert o2.Keys == o.Keys;
    forall k | k in o2
      ensures o2[k] == o[k]
    {
    }
  }

  /** `$options[k]` used as a condition: a missing key reads as null, which is false. */
  predicate OptionOn(o: Options, k: string) {
    k in o && Truthy(o[k])
  }

  /** `$options[k]` as a string; a missing or non-string value is taken as "". */
  function OptionString(o: Options, k: string): string {
    if k in o && o[k].SStr? then o[k].s else ""
  }

  /** What `init_components` and `init_hooks` set up. */
  datatype Components = Components(admin: bool, metaBox: bool, gutenberg: bool, schema: bool, badgeFilter: bool)

  /** The components and the optional `the_content` filter, for the loaded options. */
  function ComponentsFor(o: Options, isAdmin: bool): (c: Components)
    ensures c.admin == isAdmin && c.metaBox == isAdmin && c.gutenberg == isAdmin
    ensures c.schema <==> OptionOn(o, "add_schema_markup")
    ensures c.badgeFilter <==> OptionOn(o, "show_frontend_badge")
  {
    Components(isAdmin, isAdmin, isAdmin, OptionOn(o, "add_schema_markup"), OptionOn(o, "show_frontend_badge"))
  }

  /** With nothing saved, the schema component and the badge filter are both on; saving a false value turns one off. */
  lemma DefaultComponents(saved: Options, isAdmin: bool)
    ensures saved == map[] ==> ComponentsFor(LoadOptions(saved), isAdmin).schema && ComponentsFor(LoadOptions(saved), isAdmin).badgeFilter
    ensures "add_schema_markup" in saved && !Truthy(saved["add_schema_markup"]) ==> !ComponentsFor(LoadOptions(saved), isAdmin).schema
    ensures "show_frontend_badge" in saved && !Truthy(saved["show_frontend_badge"]) ==> !ComponentsFor(LoadOptions(saved), isAdmin).badgeFilter
  {
    if saved == map[] {
      assert LoadOptions(saved)["add_schema_markup"] == SBool(true);
      assert LoadOptions(saved)["show_frontend_badge"] == SBool(true);
    }
  }

  // ---------------------------------------------------------------- badge

  /** `get_badge_class`: 90, 75 and 60 are the band boundaries. */
  function BadgeClass(score: int): (c: string)
    ensures c in {"facty-pro-badge-excellent", "facty-pro-badge-good", "facty-pro-badge-fair", "facty-pro-badge-poor"}
    ensures c == "facty-pro-badge-excellent" <==> score >= 90
    ensures c == "facty-pro-badge-poor" <==> score < 60
  {
    if score >= 90 then "facty-pro-badge-excellent"
    else if score >= 75 then "facty-pro-badge-good"
    else if score >= 60 then "facty-pro-badge-fair"
    else "facty-pro-badge-poor"
  }

  /** `get_status_text`, over the same boundaries. */
  function StatusText(score: int): (t: string)
    ensures t in {"Verified & Accurate", "Mostly Accurate", "Needs Review", "Multiple Issues"}
    ensures t == "Verified & Accurate" <==> score >= 90
    ensures t == "Multiple Issues" <==> score < 60
  {
    if score >= 90 then "Verified & Accurate"
    else if score >= 75 then "Mostly Accurate"
    else if score >= 60 then "Needs Review"
    else "Multiple Issues"
  }

  /** Class and text name the same band: two scores share a class exactly when they share a text. */
  lemma BadgeAndTextAgree(a: int, b: int)
    ensures BadgeClass(a) == BadgeClass(b) <==> StatusText(a) == StatusText(b)
    ensures BadgeClass(a) == "facty-pro-badge-excellent" <==> StatusText(a) == "Verified & Accurate"
    ensures BadgeClass(a) == "facty-pro-badge-poor" <==> StatusText(a) == "Multiple Issues"
  {
  }

  /** The badge `add_verification_badge` puts in front of the content. */
  datatype Badge = Badge(cssClass: string, statusText: string, score: int)

  /** The filtered content: the badge (when there is one) followed by the content. */
  datatype Badged = Badged(badge: Option<Badge>, content: string)

  // ---------------------------------------------------------------- reports

  /** The clock readings a request takes: a Unix timestamp and `current_time('mysql')`. */
  datatype Clock = Clock(unix: int, mysql: string)

  /** The JSON document kept in a report row's `report` column. */
  datatype FullReport = FullReport(
    factCheck: Perplexity.Report,
    seo: Option<Seo.Report>,           // `array()` when SEO analysis is off
    style: Option<Style.Report>,       // `array()` when style analysis is off
    analyzedAt: string,
    analyzedBy: nat)

  /** A row of the reports table. */
  datatype ReportRow = ReportRow(
    id: nat,
    postId: nat,
    contentHash: string,
    report: FullReport,
    factCheckScore: int,
    seoScore: int,
    readabilityScore: int,
    status: string,
    createdAt: int,
    verifiedBy: Option<nat>,
    verifiedAt: Option<string>)

  /** The rows a query selects: those of the post, and, for the schema, only verified ones. */
  predicate Selected(r: ReportRow, postId: nat, verifiedOnly: bool) {
    r.postId == postId && (verifiedOnly ==> r.status == "verified")
  }

  /**
   * `... WHERE post_id = %d [AND status = 'verified'] ORDER BY created_at DESC LIMIT 1`:
   * the selected row created last; among rows created at the same time, the first in table order.
   */
  function Latest(rows: seq<ReportRow>, postId: nat, verifiedOnly: bool): (r: Option<ReportRow>)
    ensures r.Some? ==> r.value in rows && Selected(r.value, postId, verifiedOnly)
    ensures r.None? ==> forall x :: x in rows ==> !Selected(x, postId, verifiedOnly)
    ensures r.Some? ==> forall x :: x in rows && Selected(x, postId, verifiedOnly) ==> x.createdAt <= r.value.createdAt
    decreases |rows|
  {
    if |rows| == 0 then None
    else
      var rest := Latest(rows[1..], postId, verifiedOnly);
      assert forall x :: x in rows ==> x == rows[0] || x in rows[1..];
      if Selected(rows[0], postId, verifiedOnly) && (rest.None? || rows[0].createdAt >= rest.value.createdAt)
      then Some(rows[0]) else rest
  }

  /** `add_verification_badge`: only a single view whose latest report is verified gets the badge. */
  function AddVerificationBadge(content: string, isSingle: bool, rows: seq<ReportRow>, postId: nat): (b: Badged)
    ensures b.content == content
    ensures b.badge.Some? <==> isSingle && Latest(rows, postId, false).Some? && Latest(rows, postId, false).value.status == "verified"
    ensures b.badge.Some? ==>
      var s := Latest(rows, postId, false).value.factCheckScore;
      b.badge.value == Badge(BadgeClass(s), StatusText(s), s)
  {
    if !isSingle then Badged(None, content)
    else match Latest(rows, postId, false)
      case None => Badged(None, content)
      case Some(r) =>
        if r.status != "verified" then Badged(None, content)
        else
          var score := r.factCheckScore;
          Badged(Some(Badge(BadgeClass(score), StatusText(score), score)), content)
  }

  /** A newer unverified report hides the badge even when an older report of the post is verified. */
  lemma NewerReportHidesBadge(content: string, rows: seq<ReportRow>, postId: nat, r: ReportRow)
    requires r.postId == postId && r.status != "verified"
    requires forall x :: x in rows ==> x.createdAt < r.createdAt
    ensures AddVerificationBadge(content, true, [r] + rows, postId).badge.None?
  {
    assert ([r] + rows)[1..] == rows;
  }

  /** A key of post meta. */
  datatype MetaKey = MetaKey(postId: nat, key: string)

  /** The rows after the verify action on report `id`: only rows with that id change. */
  function MarkVerified(rows: seq<ReportRow>, id: nat, user: nat, stamp: string): (r: seq<ReportRow>)
    ensures |r| == |rows|
    ensures forall i :: 0 <= i < |rows| ==>
      r[i] == if rows[i].id == id then rows[i].(status := "verified", verifiedBy := Some(user), verifiedAt := Some(stamp)) else rows[i]
  {
    seq(|rows|, i requires 0 <= i < |rows| =>
      if rows[i].id == id then rows[i].(status := "verified", verifiedBy := Some(user), verifiedAt := Some(stamp)) else rows[i])
  }

  /** The rows after the unverify action on report `id`. */
  function MarkUnverified(rows: seq<ReportRow>, id: nat): (r: seq<ReportRow>)
    ensures |r| == |rows|
    ensures forall i :: 0 <= i < |rows| ==>
      r[i] == if rows[i].id == id then rows[i].(status := "completed", verifiedBy := None, verifiedAt := None) else rows[i]
  {
    seq(|rows|, i requires 0 <= i < |rows| =>
      if rows[i].id == id then rows[i].(status := "completed", verifiedBy := None, verifiedAt := None) else rows[i])
  }

  /** Unverifying undoes any earlier verify of the same report. */
  lemma UnverifyUndoesVerify(rows: seq<ReportRow>, id: nat, user: nat, stamp: string)
    ensures MarkUnverified(MarkVerified(rows, id, user, stamp), id) == MarkUnverified(rows, id)
  {
    var a := MarkUnverified(MarkVerified(rows, id, user, stamp), id);
    var b := MarkUnverified(rows, id);
    assert forall i :: 0 <= i < |rows| ==> a[i] == b[i];
  }

  const VerifiedKey := "_facty_pro_verified"
  const VerifiedAtKey := "_facty_pro_verified_at"
  const VerifiedByKey := "_facty_pro_verified_by"

  /** The three post-meta keys of post `postId` that record a verification. */
  function VerificationKeys(postId: nat): set<MetaKey> {
    {MetaKey(postId, VerifiedKey), MetaKey(postId, VerifiedAtKey), MetaKey(postId, VerifiedByKey)}
  }

  /**
   * Post meta after the verify action: the three verification keys of the post are
   * written (flag "1", the time, the user id) and every other key is kept as it was.
   */
  function VerifiedMeta(meta: map<MetaKey, string>, postId: nat, user: nat, stamp: string): (m: map<MetaKey, string>)
    ensures m.Keys == meta.Keys + VerificationKeys(postId)
    ensures m[MetaKey(postId, VerifiedKey)] == "1" && m[MetaKey(postId, VerifiedAtKey)] == stamp &&
            m[MetaKey(postId, VerifiedByKey)] == NatToString(user)
    ensures forall k :: k in meta && k !in VerificationKeys(postId) ==> m[k] == meta[k]
  {
    meta[MetaKey(postId, VerifiedKey) := "1"]
        [MetaKey(postId, VerifiedAtKey) := stamp]
        [MetaKey(postId, VerifiedByKey) := NatToString(user)]
  }

  /**
   * Post meta after the unverify action: the three verification keys of the post are
   * deleted and every other key is kept as it was.
   */
  function UnverifiedMeta(meta: map<MetaKey, string>, postId: nat): (m: map<MetaKey, string>)
    ensures m.Keys == meta.Keys - VerificationKeys(postId)
    ensures forall k :: k in m ==> m[k] == meta[k]
  {
    meta - VerificationKeys(postId)
  }

  /** Unverifying a post undoes any earlier verify of it. */
  lemma UnverifyUndoesVerifyMeta(meta: map<MetaKey, string>, postId: nat, user: nat, stamp: string)
    ensures UnverifiedMeta(VerifiedMeta(meta, postId, user, stamp), postId) == UnverifiedMeta(meta, postId)
  {
    var a := UnverifiedMeta(VerifiedMeta(meta, postId, user, stamp), postId);
    var b := UnverifiedMeta(meta, postId);
    assert a.Keys == b.Keys;
  }

  /** `get_post_meta($post_id, $key, true)`: the stored string, or "" when there is none. */
  function MetaValue(meta: map<MetaKey, string>, postId: nat, key: string): string {
    if MetaKey(postId, key) in meta then meta[MetaKey(postId, key)] else ""
  }

  /**
   * Report ids are distinct and below the next auto-increment value, and no two
   * rows share a post and a content hash (the table's `post_content` UNIQUE key).
   */
  ghost predicate ValidReports(rows: seq<ReportRow>, nextId: nat) {
    nextId >= 1 &&
    (forall i :: 0 <= i < |rows| ==> 1 <= rows[i].id < nextId) &&
    (forall i, j :: 0 <= i < j < |rows| ==> rows[i].id != rows[j].id) &&
    (forall i, j :: 0 <= i < j < |rows| ==> rows[i].postId != rows[j].postId || rows[i].contentHash != rows[j].contentHash)
  }

  /** A row of the post with this content hash is already stored, so the UNIQUE key refuses another. */
  predicate HasReport(rows: seq<ReportRow>, postId: nat, hash: string) {
    exists i :: 0 <= i < |rows| && rows[i].postId == postId && rows[i].contentHash == hash
  }

  /**
   * `$wpdb->insert_id` after inserting `row`: the next id, or 0 when the UNIQUE key
   * refuses the row (wpdb clears `insert_id` before it runs the query).
   */
  function InsertId(rows: seq<ReportRow>, nextId: nat, row: ReportRow): nat {
    if HasReport(rows, row.postId, row.contentHash) then 0 else nextId
  }

  /** The table after inserting `row`: one more row with the next id, or the same rows when the insert is refused. */
  function AfterInsert(rows: seq<ReportRow>, nextId: nat, row: ReportRow): seq<ReportRow> {
    if HasReport(rows, row.postId, row.contentHash) then rows else rows + [row.(id := nextId)]
  }

  /**
   * An insert keeps the table valid. The auto-increment value is spent even when the
   * insert is refused (InnoDB allocates it before the duplicate check).
   */
  lemma InsertValid(rows: seq<ReportRow>, nextId: nat, row: ReportRow)
    requires ValidReports(rows, nextId)
    ensures ValidReports(AfterInsert(rows, nextId, row), nextId + 1)
  {
  }

  /** A refused insert stores nothing and yields id 0; an accepted one stores the row under a fresh, non-zero id. */
  lemma InsertOutcome(rows: seq<ReportRow>, nextId: nat, row: ReportRow)
    requires ValidReports(rows, nextId)
    ensures HasReport(rows, row.postId, row.contentHash) ==>
      InsertId(rows, nextId, row) == 0 && AfterInsert(rows, nextId, row) == rows
    ensures !HasReport(rows, row.postId, row.contentHash) ==>
      InsertId(rows, nextId, row) >= 1 &&
      (forall x :: x in rows ==> x.id != InsertId(rows, nextId, row)) &&
      AfterInsert(rows, nextId, row) == rows + [row.(id := InsertId(rows, nextId, row))]
  {
  }

  /** Inserting the same post and content twice stores one row: the second insert is refused with id 0. */
  lemma RepeatInsertRefused(rows: seq<ReportRow>, nextId: nat, row: ReportRow, again: ReportRow)
    requires again.postId == row.postId && again.contentHash == row.contentHash
    ensures var after := AfterInsert(rows, nextId, row);
      InsertId(after, nextId + 1, again) == 0 && AfterInsert(after, nextId + 1, again) == after
  {
    var after := AfterInsert(rows, nextId, row);
    if !HasReport(rows, row.postId, row.contentHash) {
      assert after[|rows|].postId == row.postId && after[|rows|].contentHash == row.contentHash;
    }
  }

  /** The site's reports table and post meta. */
  class Site {
    var reports: seq<ReportRow>
    var meta: map<MetaKey, string>
    var nextReportId: nat

    ghost predicate Valid()
      reads this
    {
      ValidReports(reports, nextReportId)
    }

    constructor ()
      ensures Valid() && reports == [] && meta == map[] && nextReportId == 1
    {
      reports := [];
      meta := map[];
      nextReportId := 1;
    }

    /** `get_latest_report`. */
    function LatestReport(postId: nat): (r: Option<ReportRow>)
      reads this
      ensures r == Latest(reports, postId, false)
    {
      Latest(reports, postId, false)
    }

    /**
     * `$wpdb->insert` into the reports table and the `insert_id` read after it: the
     * row gets the next id, unless a row of the same post and content hash is
     * already stored, when the insert is refused and the id read is 0.
     */
    method InsertReport(row: ReportRow) returns (id: nat)
      requires Valid()
      modifies this
      ensures Valid()
      ensures id == InsertId(old(reports), old(nextReportId), row) && nextReportId == old(nextReportId) + 1
      ensures reports == AfterInsert(old(reports), old(nextReportId), row)
      ensures meta == old(meta)
    {
      InsertValid(reports, nextReportId, row);
      if HasReport(reports, row.postId, row.contentHash) {
        id := 0;
      } else {
        id := nextReportId;
        reports := reports + [row.(id := id)];
      }
      nextReportId := nextReportId + 1;
    }

    /** `update_post_meta`. */
    method UpdateMeta(postId: nat, key: string, value: string)
      modifies this
      ensures meta == old(meta)[MetaKey(postId, key) := value]
      ensures reports == old(reports) && nextReportId == old(nextReportId)
    {
      meta := meta[MetaKey(postId, key) := value];
    }

    /** `ajax_verify_post`: the report row becomes verified by the user, and the post's verification meta is set. */
    method VerifyPost(postId: nat, reportId: nat, user: nat, clock: Clock)
      requires Valid()
      modifies this
      ensures Valid()
      ensures reports == MarkVerified(old(reports), reportId, user, clock.mysql)
      ensures meta == VerifiedMeta(old(meta), postId, user, clock.mysql)
      ensures nextReportId == old(nextReportId)
    {
      reports := MarkVerified(reports, reportId, user, clock.mysql);
      meta := VerifiedMeta(meta, postId, user, clock.mysql);
    }

    /** `ajax_unverify_post`: the report row goes back to completed, and the post's verification meta is deleted. */
    method UnverifyPost(postId: nat, reportId: nat)
      requires Valid()
      modifies this
      ensures Valid()
      ensures reports == MarkUnverified(old(reports), reportId)
      ensures meta == UnverifiedMeta(old(meta), postId)
      ensures nextReportId == old(nextReportId)
    {
      reports := MarkUnverified(reports, reportId);
      meta := UnverifiedMeta(meta, postId);
    }
  }
}
