/**
 * The editor's meta box: with no API key only the configuration notice; otherwise
 * the start / recheck button and, when the post has a report, a summary of the
 * latest one (age, score classes, status, the verify or unverify action) and the
 * sources listed under each issue of the stored report.
 *
 * The markup, `human_time_diff` (a parameter) and the rest of the detailed report
 * are not modelled. The stored report is decoded JSON, modelled as `Json`.
 */
module MetaBox {
  import opened Php
  import Core

  // ----------------------------------------------------------- score classes

  /** `get_score_class`: 85, 70 and 50 are the boundaries. */
  function ScoreClass(score: int): (c: string)
    ensures c in {"excellent", "good", "fair", "poor"}
    ensures c == "excellent" <==> score >= 85
    ensures c == "poor" <==> score < 50
  {
    if score >= 85 then "excellent"
    else if score >= 70 then "good"
    else if score >= 50 then "fair"
    else "poor"
  }

  /** The score classes from worst to best. */
  function ClassRank(c: string): nat {
    if c == "excellent" then 3 else if c == "good" then 2 else if c == "fair" then 1 else 0
  }

  /** A higher score never gets a worse class. */
  lemma ScoreClassMonotone(a: int, b: int)
    requires a <= b
    ensures ClassRank(ScoreClass(a)) <= ClassRank(ScoreClass(b))
  {
  }

  /** The meta box is more lenient than the front-end badge: its class never ranks below the badge's. */
  lemma ScoreClassAtLeastBadge(score: int)
    ensures ClassRank(ScoreClass(score)) >= BadgeRank(Core.BadgeClass(score))
  {
  }

  /** The front-end badge classes from worst to best. */
  function BadgeRank(c: string): nat {
    if c == "facty-pro-badge-excellent" then 3 else if c == "facty-pro-badge-good" then 2
    else if c == "facty-pro-badge-fair" then 1 else 0
  }

  // ------------------------------------------------------------- decoded JSON

  /** A value `json_decode($report, true)` produces; an array keeps its keys in order. */
  datatype Json = JNull | JBool(b: bool) | JInt(i: int) | JStr(s: string) | JArray(entries: seq<(string, Json)>)

  /** PHP's `empty()` on a decoded value. */
  predicate IsEmpty(j: Json) {
    match j
    case JNull => true
    case JBool(b) => !b
    case JInt(i) => i == 0
    case JStr(s) => Empty(s)
    case JArray(es) => |es| == 0
  }

  /** The value stored under key `k`, or null when there is none. */
  function Lookup(es: seq<(string, Json)>, k: string): (v: Json)
    ensures v != JNull ==> exists i :: 0 <= i < |es| && es[i] == (k, v)
    ensures (forall i :: 0 <= i < |es| ==> es[i].0 != k) ==> v == JNull
  {
    if |es| == 0 then JNull
    else if es[0].0 == k then es[0].1
    else
      var v := Lookup(es[1..], k);
      assert v != JNull ==> es[1..][IndexOf(es[1..], k, v)] == (k, v);
      v
  }

  /** An index where `(k, v)` sits, for a non-null lookup. */
  function IndexOf(es: seq<(string, Json)>, k: string, v: Json): (i: nat)
    requires v != JNull && exists i :: 0 <= i < |es| && es[i] == (k, v)
    ensures i < |es| && es[i] == (k, v)
  {
    if es[0] == (k, v) then 0
    else
      assert exists i :: 0 <= i < |es[1..]| && es[1..][i] == (k, v) by {
        var j :| 0 <= j < |es| && es[j] == (k, v);
        assert es[1..][j - 1] == es[j];
      }
      1 + IndexOf(es[1..], k, v)
  }

  /** `$j[$k]`: null unless `j` is an array holding `k`. */
  function At(j: Json, k: string): Json {
    if j.JArray? then Lookup(j.entries, k) else JNull
  }

  /** `isset($j[$k])`. */
  predicate IsSet(j: Json, k: string) {
    At(j, k) != JNull
  }

  /** What `foreach` visits: an array's values in order; nothing for any other value. */
  function Values(j: Json): (vs: seq<Json>)
    ensures j.JArray? ==> |vs| == |j.entries| && forall i :: 0 <= i < |vs| ==> vs[i] == j.entries[i].1
    ensures !j.JArray? ==> vs == []
  {
    if j.JArray? then seq(|j.entries|, i requires 0 <= i < |j.entries| => j.entries[i].1) else []
  }

  // ------------------------------------------------------------ issue sources

  /** One listed source: the link target, the link text and the optional date. */
  datatype Link = Link(url: Json, text: Json, date: Option<Json>)

  /** A source entry is listed when it is an array with a url; the title falls back to the url. */
  function LinkOf(e: Json): (l: Option<Link>)
    ensures l.Some? <==> e.JArray? && IsSet(e, "url")
    ensures l.Some? ==> l.value.url == At(e, "url") && l.value.url != JNull && l.value.text != JNull
    ensures l.Some? && IsSet(e, "title") ==> l.value.text == At(e, "title")
    ensures l.Some? && !IsSet(e, "title") ==> l.value.text == l.value.url
  {
    if e.JArray? && IsSet(e, "url") then
      Some(Link(At(e, "url"),
                if IsSet(e, "title") then At(e, "title") else At(e, "url"),
                if IsSet(e, "date") then Some(At(e, "date")) else None))
    else None
  }

  /** The links of the listed entries, in order. */
  function Links(es: seq<Json>): (ls: seq<Link>)
    ensures |ls| <= |es|
    ensures forall l :: l in ls ==> exists e :: e in es && LinkOf(e) == Some(l)
    ensures forall e :: e in es && LinkOf(e).Some? ==> LinkOf(e).value in ls
  {
    if |es| == 0 then []
    else
      var rest := Links(es[1..]);
      assert forall e :: e in es[1..] ==> e in es;
      match LinkOf(es[0])
      case None => rest
      case Some(l) => [l] + rest
  }

  /** `$sources`: the non-empty 'sources', else the set 'source' wrapped in a list, else an empty list. */
  function SourceList(issue: Json): Json {
    if !IsEmpty(At(issue, "sources")) then At(issue, "sources")
    else if IsSet(issue, "source") then JArray([("0", At(issue, "source"))])
    else JArray([])
  }

  /**
   * The sources block of one issue: absent, or the links of the entries of
   * `SourceList`. It is shown exactly when 'sources' or 'source' is non-empty;
   * the inner emptiness check never hides it.
   */
  function IssueSources(issue: Json): (r: Option<seq<Link>>)
    ensures r.Some? <==> !IsEmpty(At(issue, "sources")) || !IsEmpty(At(issue, "source"))
    ensures r.Some? ==> r.value == Links(Values(SourceList(issue)))
  {
    if !IsEmpty(At(issue, "sources")) || !IsEmpty(At(issue, "source")) then
      var sources := SourceList(issue);
      if !IsEmpty(sources) then Some(Links(Values(sources))) else None
    else None
  }

  /** With a non-empty 'sources', the single 'source' is never looked at. */
  lemma SourcesOverrideSource(issue: seq<(string, Json)>, other: Json)
    requires !IsEmpty(At(JArray(issue), "sources"))
    requires forall i :: 0 <= i < |issue| ==> issue[i].0 != "source"
    ensures IssueSources(JArray(issue + [("source", other)])) == IssueSources(JArray(issue))
  {
    LookupAppend(issue, "source", other, "sources");
  }

  lemma {:induction false} LookupAppend(es: seq<(string, Json)>, k: string, v: Json, q: string)
    requires q != k
    ensures Lookup(es + [(k, v)], q) == Lookup(es, q)
  {
    if |es| == 0 {
      assert Lookup([(k, v)][1..], q) == JNull;
    } else {
      assert (es + [(k, v)])[1..] == es[1..] + [(k, v)];
      LookupAppend(es[1..], k, v, q);
    }
  }

  /** A single 'source' with a url is listed alone, under its title or else its url. */
  lemma SingleSourceListed(url: string, title: Json)
    requires url != ""
    ensures var src := JArray([("url", JStr(url)), ("title", title)]);
      IssueSources(JArray([("source", src)])) ==
        Some([Link(JStr(url), if title == JNull then JStr(url) else title, None)])
  {
    var src := JArray([("url", JStr(url)), ("title", title)]);
    var issue := JArray([("source", src)]);
    assert At(issue, "sources") == JNull;
    assert At(issue, "source") == src;
    assert At(src, "url") == JStr(url);
    assert src.entries[1..] == [("title", title)];
    assert Lookup(src.entries[1..], "title") == title;
    assert At(src, "title") == title;
    assert src.entries[1..][1..] == [];
    assert Lookup(src.entries[1..][1..], "date") == JNull;
    assert Lookup(src.entries[1..], "date") == JNull;
    assert At(src, "date") == JNull;
    assert Values(SourceList(issue)) == [src];
    var l := Link(JStr(url), if title == JNull then JStr(url) else title, None);
    assert LinkOf(src) == Some(l);
    assert [src][1..] == [];
    assert Links([src]) == [l];
  }

  /** A 'source' given as a plain string shows the sources block with no entry in it. */
  lemma PlainSourceShowsEmptyBlock(name: string)
    requires !Empty(name)
    ensures IssueSources(JArray([("source", JStr(name))])) == Some([])
  {
    var issue := JArray([("source", JStr(name))]);
    assert At(issue, "source") == JStr(name);
    assert Values(SourceList(issue)) == [JStr(name)];
  }

  // ------------------------------------------------------------------ render

  /** The action under the summary: verify a completed report, or remove the verification of a verified one. */
  datatype ReportAction = VerifyButton(reportId: nat) | UnverifyButton(reportId: nat, verifiedBy: Option<nat>, verifiedAt: Option<string>) | NoAction

  datatype Summary = Summary(lastChecked: string, factClass: string, seoClass: string,
                             readabilityClass: string, status: string, action: ReportAction)

  datatype View = ConfigNotice | Panel(button: string, summary: Option<Summary>)

  /** `ucfirst`. */
  function Ucfirst(s: string): (r: string)
    ensures |r| == |s|
    ensures |s| > 0 ==> r[0] == UpperChar(s[0]) && r[1..] == s[1..]
  {
    if |s| == 0 then s else [UpperChar(s[0])] + s[1..]
  }

  /** "Just now" under a minute, otherwise `human_time_diff` followed by " ago". */
  function LastChecked(reportTime: int, now: int, humanDiff: (int, int) -> string): (t: string)
    ensures t == "Just now" <==> now - reportTime < 60
  {
    if now - reportTime < 60 then "Just now"
    else
      var t := humanDiff(reportTime, now) + " ago";
      assert t[|t| - 4..] == " ago";
      assert "Just now"[4..] == " now";
      t
  }

  /** Verify needs a completed report and the `publish_posts` capability; unverify needs only a verified report. */
  function ActionFor(r: Core.ReportRow, canPublish: bool): (a: ReportAction)
    ensures a.VerifyButton? <==> r.status == "completed" && canPublish
    ensures a.UnverifyButton? <==> r.status == "verified"
    ensures a.VerifyButton? ==> a.reportId == r.id
    ensures a.UnverifyButton? ==> a == UnverifyButton(r.id, r.verifiedBy, r.verifiedAt)
  {
    if r.status == "completed" && canPublish then VerifyButton(r.id)
    else if r.status == "verified" then UnverifyButton(r.id, r.verifiedBy, r.verifiedAt)
    else NoAction
  }

  function SummaryOf(r: Core.ReportRow, now: int, canPublish: bool, humanDiff: (int, int) -> string): Summary {
    Summary(LastChecked(r.createdAt, now, humanDiff), ScoreClass(r.factCheckScore), ScoreClass(r.seoScore),
            ScoreClass(r.readabilityScore), Ucfirst(r.status), ActionFor(r, canPublish))
  }

  /**
   * `render_meta_box`: the configuration notice when the API key is empty;
   * otherwise the panel for the post's latest report, if any.
   */
  function Render(options: Core.Options, rows: seq<Core.ReportRow>, postId: nat, now: int,
                  canPublish: bool, humanDiff: (int, int) -> string): (v: View)
    ensures v == ConfigNotice <==> !Core.OptionOn(options, "perplexity_api_key")
    ensures v.Panel? ==> (v.button == "Recheck Article" <==> Core.Latest(rows, postId, false).Some?)
    ensures v.Panel? ==> v.button in {"Recheck Article", "Start Fact Check"}
    ensures v.Panel? ==> (v.summary.Some? <==> Core.Latest(rows, postId, false).Some?)
    ensures v.Panel? && v.summary.Some? ==>
      v.summary.value == SummaryOf(Core.Latest(rows, postId, false).value, now, canPublish, humanDiff)
  {
    if !Core.OptionOn(options, "perplexity_api_key") then ConfigNotice
    else
      var report := Core.Latest(rows, postId, false);
      Panel(if report.Some? then "Recheck Article" else "Start Fact Check",
            if report.Some? then Some(SummaryOf(report.value, now, canPublish, humanDiff)) else None)
  }

  /** Without an API key the reports are never consulted: any two tables render alike. */
  lemma NoKeyNoLookup(options: Core.Options, rows1: seq<Core.ReportRow>, rows2: seq<Core.ReportRow>,
                      postId: nat, now: int, canPublish: bool, humanDiff: (int, int) -> string)
    requires !Core.OptionOn(options, "perplexity_api_key")
    ensures Render(options, rows1, postId, now, canPublish, humanDiff) ==
            Render(options, rows2, postId, now, canPublish, humanDiff)
  {
  }

  /** Verifying a row keeps it where `Latest` finds it, now marked verified. */
  lemma {:induction false} LatestAfterVerify(rows: seq<Core.ReportRow>, postId: nat, id: nat, user: nat, stamp: string)
    ensures var l := Core.Latest(rows, postId, false);
      var m := Core.Latest(Core.MarkVerified(rows, id, user, stamp), postId, false);
      m.Some? == l.Some? &&
      (l.Some? ==> m.value == if l.value.id == id then l.value.(status := "verified", verifiedBy := Some(user), verifiedAt := Some(stamp)) else l.value)
  {
    if |rows| > 0 {
      var marked := Core.MarkVerified(rows, id, user, stamp);
      assert marked[1..] == Core.MarkVerified(rows[1..], id, user, stamp);
      LatestAfterVerify(rows[1..], postId, id, user, stamp);
    }
  }

  /** Once the latest report is verified, the meta box offers to remove the verification instead of verifying it. */
  lemma VerifyOffersRemoval(options: Core.Options, rows: seq<Core.ReportRow>, postId: nat, now: int,
                            canPublish: bool, humanDiff: (int, int) -> string, user: nat, stamp: string)
    requires Core.OptionOn(options, "perplexity_api_key")
    requires Core.Latest(rows, postId, false).Some?
    ensures var id := Core.Latest(rows, postId, false).value.id;
      var v := Render(options, Core.MarkVerified(rows, id, user, stamp), postId, now, canPublish, humanDiff);
      v.Panel? && v.summary.Some? && v.summary.value.action == UnverifyButton(id, Some(user), Some(stamp))
  {
    var id := Core.Latest(rows, postId, false).value.id;
    LatestAfterVerify(rows, postId, id, user, stamp);
  }
}
