/**
 * The background fact-check job: its status record in the transient store,
 * the four writers of that record, and the job handler that runs the
 * Perplexity analysis, the optional SEO and style analyses, saves the report
 * and completes (or fails) the job.
 *
 * Transients are a map from job id to record; their one-hour lifetime, the
 * Action Scheduler / cron enqueueing and `error_log` are not modelled. Every
 * record the store is given is also appended to a ghost log, so that the
 * order of the handler's writes can be stated.
 */
module Scheduler {
  import opened Php
  import opened Service
  import Perplexity
  import Seo
  import Style
  import Core

  /** A job's status record. `reportId` is set by `complete_job` only. */
  datatype JobRecord = JobRecord(status: string, progress: real, stage: string, message: string, reportId: Option<nat>)

  const Queued := JobRecord("queued", 0.0, "initializing", "Job queued...", None)
  const Unknown := JobRecord("unknown", 0.0, "unknown", "Job not found", None)

  /** The record `update_job_status` writes. */
  function Processing(progress: real, stage: string, message: string): JobRecord {
    JobRecord("processing", progress, stage, message, None)
  }

  /** The record `complete_job` writes. */
  function Completed(reportId: nat): JobRecord {
    JobRecord("completed", 100.0, "complete", "Fact-check completed", Some(reportId))
  }

  /** The record `fail_job` writes. */
  function Failed(message: string): JobRecord {
    JobRecord("failed", 0.0, "error", message, None)
  }

  /** `'facty_pro_' . $post_id . '_' . time()`. */
  function JobId(postId: nat, now: int): (id: string)
    ensures IsPrefix("facty_pro_", id)
  {
    "facty_pro_" + NatToString(postId) + "_" + IntToString(now)
  }

  /** The records of a sequence of writes to one job, with its id. */
  function Tagged(id: string, rs: seq<JobRecord>): (t: seq<(string, JobRecord)>)
    ensures |t| == |rs|
    ensures forall i :: 0 <= i < |rs| ==> t[i] == (id, rs[i])
  {
    seq(|rs|, i requires 0 <= i < |rs| => (id, rs[i]))
  }

  lemma TaggedSnoc(id: string, rs: seq<JobRecord>, r: JobRecord)
    ensures Tagged(id, rs + [r]) == Tagged(id, rs) + [(id, r)]
  {
    assert forall i :: 0 <= i < |rs| ==> Tagged(id, rs + [r])[i] == (id, rs[i]);
  }

  lemma TaggedAppend(id: string, a: seq<JobRecord>, b: seq<JobRecord>)
    ensures Tagged(id, a + b) == Tagged(id, a) + Tagged(id, b)
  {
    assert forall i :: 0 <= i < |a| + |b| ==> Tagged(id, a + b)[i] == (Tagged(id, a) + Tagged(id, b))[i];
  }

  /** A later write to a job replaces an earlier one. */
  lemma LastWriteWins(m: map<string, JobRecord>, k: string, a: JobRecord, b: JobRecord)
    ensures m[k := a][k := b] == m[k := b]
  {
  }

  /** The store's log and records after a sequence of writes to one job. */
  function Logged(log: seq<(string, JobRecord)>, jobs: map<string, JobRecord>, id: string, ws: seq<JobRecord>):
    (seq<(string, JobRecord)>, map<string, JobRecord>)
  {
    (log + Tagged(id, ws), if |ws| == 0 then jobs else jobs[id := ws[|ws| - 1]])
  }

  /** Two runs of writes to one job are one run of both. */
  lemma LoggedAppend(log: seq<(string, JobRecord)>, jobs: map<string, JobRecord>, id: string, a: seq<JobRecord>, b: seq<JobRecord>)
    ensures var first := Logged(log, jobs, id, a);
      Logged(first.0, first.1, id, b) == Logged(log, jobs, id, a + b)
  {
    TaggedAppend(id, a, b);
    assert (log + Tagged(id, a)) + Tagged(id, b) == log + Tagged(id, a + b);
    if |b| == 0 {
      assert a + b == a;
    } else {
      assert (a + b)[|a + b| - 1] == b[|b| - 1];
      if |a| > 0 {
        LastWriteWins(jobs, id, a[|a| - 1], b[|b| - 1]);
      }
    }
  }

  /** The transient store of job records. */
  class JobStore {
    var jobs: map<string, JobRecord>
    ghost var log: seq<(string, JobRecord)>

    constructor ()
      ensures jobs == map[] && log == []
    {
      jobs := map[];
      log := [];
    }

    /** `set_transient($job_id, $record, 3600)`. */
    method Put(id: string, r: JobRecord)
      modifies this
      ensures jobs == old(jobs)[id := r]
      ensures log == old(log) + [(id, r)]
    {
      jobs := jobs[id := r];
      log := log + [(id, r)];
    }

    /** `schedule_fact_check`: no write and no id for a missing post; otherwise a queued record. */
    method ScheduleFactCheck(postId: nat, postExists: bool, now: int) returns (id: Option<string>)
      modifies this
      ensures !postExists ==> id == None && jobs == old(jobs) && log == old(log)
      ensures postExists ==> id == Some(JobId(postId, now))
      ensures postExists ==> jobs == old(jobs)[JobId(postId, now) := Queued] && log == old(log) + [(JobId(postId, now), Queued)]
    {
      var jobId := JobId(postId, now);
      if !postExists {
        return None;
      }
      Put(jobId, Queued);
      id := Some(jobId);
    }

    /** `get_job_status`: the stored record, or the "unknown" record for a job that is not there. */
    function JobStatus(id: string): (r: JobRecord)
      reads this
      ensures id in jobs ==> r == jobs[id]
      ensures id !in jobs ==> r == Unknown
    {
      if id in jobs then jobs[id] else Unknown
    }

    /** `update_job_status`. */
    method UpdateJobStatus(id: string, progress: real, stage: string, message: string)
      modifies this
      ensures jobs == old(jobs)[id := Processing(progress, stage, message)]
      ensures log == old(log) + [(id, Processing(progress, stage, message))]
    {
      Put(id, Processing(progress, stage, message));
    }

    /** `complete_job`. */
    method CompleteJob(id: string, reportId: nat)
      modifies this
      ensures jobs == old(jobs)[id := Completed(reportId)]
      ensures log == old(log) + [(id, Completed(reportId))]
    {
      Put(id, Completed(reportId));
    }

    /** `fail_job`. */
    method FailJob(id: string, message: string)
      modifies this
      ensures jobs == old(jobs)[id := Failed(message)]
      ensures log == old(log) + [(id, Failed(message))]
    {
      Put(id, Failed(message));
    }
  }

  /** A write touches only its own job: every other job reads as before. */
  lemma OtherJobsUnchanged(jobs: map<string, JobRecord>, id: string, r: JobRecord, other: string)
    requires other != id
    ensures (if other in jobs[id := r] then jobs[id := r][other] else Unknown) ==
            (if other in jobs then jobs[other] else Unknown)
  {
  }

  // ---------------------------------------------------------------- the handler

  /**
   * A post as the handler reads it, with what the analyzers see of it. The SEO
   * analyzer reads the whole post and the style analyzer the extracted content;
   * `seo` and `style` are taken as given here and are not derived from `title`
   * and `content`.
   */
  datatype PostInput = PostInput(title: string, content: string, seo: Seo.Post, style: Style.Text)

  /** The records the analysis writes through `update_job_status`. */
  function Updates(ps: seq<Progress>): (rs: seq<JobRecord>)
    ensures |rs| == |ps|
    ensures forall i :: 0 <= i < |ps| ==> rs[i] == Processing(ps[i].percent, ps[i].stage, ps[i].message)
  {
    seq(|ps|, i requires 0 <= i < |ps| => Processing(ps[i].percent, ps[i].stage, ps[i].message))
  }

  const Starting := Processing(5.0, "starting", "Initializing fact-check...")
  const Extracting := Processing(10.0, "analyzing", "Extracting content...")
  const AfterResearch := [Processing(60.0, "seo", "Analyzing SEO..."), Processing(75.0, "style", "Analyzing style..."),
                          Processing(90.0, "saving", "Saving report...")]

  /** The fact-check analysis the handler runs, with the job id given. */
  function Research(options: Core.Options, reply: Reply<Completion<Perplexity.Parsed>>,
                    host: string -> Option<string>): Perplexity.Outcome {
    Perplexity.Analyze(Core.OptionString(options, "perplexity_api_key"), true, reply, host)
  }

  /**
   * Every record the handler writes to its job, in order, given what the
   * analysis returns; the report, when one is saved, gets the id `reportId`.
   */
  function HandlerWrites(post: Option<PostInput>, o: Perplexity.Outcome, reportId: nat): seq<JobRecord>
  {
    if post.None? then [Starting, Failed("Post not found")]
    else [Starting] + AnalysisWrites(o, reportId)
  }

  /** The writes after the starting one, for a post that exists. */
  function AnalysisWrites(o: Perplexity.Outcome, reportId: nat): seq<JobRecord>
  {
    ([Extracting] + Updates(o.updates)) + FinishWrites(o, reportId)
  }

  /** The writes once the analysis has returned: the failure, or the last three stages and the completion. */
  function FinishWrites(o: Perplexity.Outcome, reportId: nat): seq<JobRecord>
  {
    match o.result
    case Err(m) => [Failed(m)]
    case Ok(_) => AfterResearch + [Completed(reportId)]
  }

  /** The SEO report, when SEO analysis is on. */
  function SeoResult(options: Core.Options, p: PostInput): Option<Seo.Report> {
    if Core.OptionOn(options, "enable_seo_analysis") then Some(Seo.SeoReport(p.seo)) else None
  }

  /** The style report, when style analysis is on. */
  function StyleResult(options: Core.Options, p: PostInput): Option<Style.Report> {
    if Core.OptionOn(options, "enable_style_analysis") then Some(Style.StyleReport(p.style)) else None
  }

  /** The row the handler inserts (its id is assigned by the table). */
  function ReportRowFor(postId: nat, p: PostInput, fact: Perplexity.Report, options: Core.Options, clock: Core.Clock,
                        user: nat, hash: string -> string, stripTags: string -> string): (row: Core.ReportRow)
    ensures row.postId == postId && row.status == "completed" && row.factCheckScore == fact.score
    ensures row.seoScore == (if Core.OptionOn(options, "enable_seo_analysis") then Seo.SeoReport(p.seo).score else 0)
    ensures row.readabilityScore == (if Core.OptionOn(options, "enable_style_analysis") then Style.StyleReport(p.style).score else 0)
    ensures row.verifiedBy.None? && row.verifiedAt.None?
  {
    var seo := SeoResult(options, p);
    var style := StyleResult(options, p);
    var content := stripTags(p.title + "\n\n" + p.content);
    Core.ReportRow(0, postId, hash(content), Core.FullReport(fact, seo, style, clock.mysql, user),
                   fact.score,
                   match seo case Some(r) => r.score case None => 0,
                   match style case Some(r) => r.score case None => 0,
                   "completed", clock.unix, None, None)
  }

  /**
   * The reports table, the post meta and the next report id after the handler
   * has run an analysis with outcome `o`: on success the report row is
   * inserted (or refused by the UNIQUE key) and the post's three report metas
   * are set; on failure nothing changes.
   */
  function SiteAfter(reports: seq<Core.ReportRow>, meta: map<Core.MetaKey, string>, nextId: nat, postId: nat,
                     p: PostInput, o: Perplexity.Outcome, options: Core.Options, clock: Core.Clock, user: nat,
                     hash: string -> string, stripTags: string -> string): (seq<Core.ReportRow>, map<Core.MetaKey, string>, nat)
  {
    match o.result
    case Err(_) => (reports, meta, nextId)
    case Ok(fact) => Saved(reports, meta, nextId, postId, p, fact, options, clock, user, hash, stripTags)
  }

  /** The id `insert_id` gives for the saved report: the next id, or 0 when the post's content was already reported. */
  function SavedId(reports: seq<Core.ReportRow>, nextId: nat, postId: nat, p: PostInput, fact: Perplexity.Report,
                   options: Core.Options, clock: Core.Clock, user: nat, hash: string -> string, stripTags: string -> string): nat
  {
    Core.InsertId(reports, nextId, ReportRowFor(postId, p, fact, options, clock, user, hash, stripTags))
  }

  /** The report id the handler completes with after outcome `o` (0 when the analysis failed, where it is not used). */
  function OutcomeId(reports: seq<Core.ReportRow>, nextId: nat, postId: nat, p: PostInput, o: Perplexity.Outcome,
                     options: Core.Options, clock: Core.Clock, user: nat, hash: string -> string, stripTags: string -> string): nat
  {
    match o.result
    case Err(_) => 0
    case Ok(fact) => SavedId(reports, nextId, postId, p, fact, options, clock, user, hash, stripTags)
  }

  /** The report id of the whole handler: 0 for a missing post or a failed analysis. */
  function HandlerId(reports: seq<Core.ReportRow>, nextId: nat, postId: nat, post: Option<PostInput>, o: Perplexity.Outcome,
                     options: Core.Options, clock: Core.Clock, user: nat, hash: string -> string, stripTags: string -> string): nat
  {
    match post
    case None => 0
    case Some(p) => OutcomeId(reports, nextId, postId, p, o, options, clock, user, hash, stripTags)
  }

  /**
   * A saved report: its row inserted (or refused when the post's content was already
   * reported), and the post's last report, last check and score metas, written
   * either way, with the id `insert_id` gave.
   */
  function Saved(reports: seq<Core.ReportRow>, meta: map<Core.MetaKey, string>, nextId: nat, postId: nat,
                 p: PostInput, fact: Perplexity.Report, options: Core.Options, clock: Core.Clock, user: nat,
                 hash: string -> string, stripTags: string -> string): (seq<Core.ReportRow>, map<Core.MetaKey, string>, nat)
  {
    var row := ReportRowFor(postId, p, fact, options, clock, user, hash, stripTags);
    (Core.AfterInsert(reports, nextId, row),
     meta[Core.MetaKey(postId, "_facty_pro_last_report") := NatToString(Core.InsertId(reports, nextId, row))]
         [Core.MetaKey(postId, "_facty_pro_last_check") := clock.mysql]
         [Core.MetaKey(postId, "_facty_pro_fact_score") := IntToString(fact.score)],
     nextId + 1)
  }

  /**
   * Rechecking a post whose content was already reported stores no new row: the
   * table keeps the old report, the post's last-report meta becomes "0", its score
   * meta takes the new score, and the job completes with report id 0.
   */
  lemma RecheckKeepsOldReport(reports: seq<Core.ReportRow>, meta: map<Core.MetaKey, string>, nextId: nat, postId: nat,
                              p: PostInput, fact: Perplexity.Report, options: Core.Options, clock: Core.Clock, user: nat,
                              hash: string -> string, stripTags: string -> string)
    requires Core.HasReport(reports, postId, hash(stripTags(p.title + "\n\n" + p.content)))
    ensures SavedId(reports, nextId, postId, p, fact, options, clock, user, hash, stripTags) == 0
    ensures var t := Saved(reports, meta, nextId, postId, p, fact, options, clock, user, hash, stripTags);
      t.0 == reports &&
      t.1[Core.MetaKey(postId, "_facty_pro_last_report")] == "0" &&
      t.1[Core.MetaKey(postId, "_facty_pro_fact_score")] == IntToString(fact.score)
  {
    var row := ReportRowFor(postId, p, fact, options, clock, user, hash, stripTags);
    assert row.contentHash == hash(stripTags(p.title + "\n\n" + p.content));
    assert NatToString(0) == "0";
  }

  /** A post whose content has no report yet gets a new row under the next id, which its last-report meta records. */
  lemma NewContentStored(reports: seq<Core.ReportRow>, meta: map<Core.MetaKey, string>, nextId: nat, postId: nat,
                         p: PostInput, fact: Perplexity.Report, options: Core.Options, clock: Core.Clock, user: nat,
                         hash: string -> string, stripTags: string -> string)
    requires !Core.HasReport(reports, postId, hash(stripTags(p.title + "\n\n" + p.content)))
    ensures SavedId(reports, nextId, postId, p, fact, options, clock, user, hash, stripTags) == nextId
    ensures var t := Saved(reports, meta, nextId, postId, p, fact, options, clock, user, hash, stripTags);
      t.0 == reports + [ReportRowFor(postId, p, fact, options, clock, user, hash, stripTags).(id := nextId)] &&
      t.1[Core.MetaKey(postId, "_facty_pro_last_report")] == NatToString(nextId)
  {
    var row := ReportRowFor(postId, p, fact, options, clock, user, hash, stripTags);
    assert row.contentHash == hash(stripTags(p.title + "\n\n" + p.content));
  }

  /** The handler either completes the job with the saved report, or fails it with the exception's message. */
  lemma HandlerOutcome(post: Option<PostInput>, options: Core.Options, reply: Reply<Completion<Perplexity.Parsed>>,
                       host: string -> Option<string>, reportId: nat)
    ensures var ws := HandlerWrites(post, Research(options, reply, host), reportId);
      |ws| >= 2 && ws[0] == Starting &&
      (ws[|ws| - 1] == Completed(reportId) <==> post.Some? && Research(options, reply, host).result.Ok?) &&
      (post.None? ==> ws[|ws| - 1] == Failed("Post not found")) &&
      (post.Some? && Research(options, reply, host).result.Err? ==>
        ws[|ws| - 1] == Failed(Research(options, reply, host).result.error))
  {
  }

  /** An empty API key fails the job right after the second update, with the analyzer's message. */
  lemma MissingKeyFails(p: PostInput, options: Core.Options, reply: Reply<Completion<Perplexity.Parsed>>,
                        host: string -> Option<string>, reportId: nat)
    requires Empty(Core.OptionString(options, "perplexity_api_key"))
    ensures HandlerWrites(Some(p), Research(options, reply, host), reportId) ==
      [Starting, Extracting, Failed("Perplexity API key not configured")]
  {
    assert Updates([]) == [];
  }

  /** A successful run reports 5, 10, 15, 30, 55, 60, 75 and 90 percent, then completes. */
  lemma SuccessProgress(p: PostInput, options: Core.Options, reply: Reply<Completion<Perplexity.Parsed>>,
                        host: string -> Option<string>, reportId: nat)
    requires Research(options, reply, host).result.Ok?
    ensures var ws := HandlerWrites(Some(p), Research(options, reply, host), reportId);
      |ws| == 9 && ws[8] == Completed(reportId) &&
      (forall k :: 0 <= k < 8 ==> ws[k].status == "processing") &&
      (forall k :: 0 <= k < 9 ==> ws[k].progress == [5.0, 10.0, 15.0, 30.0, 55.0, 60.0, 75.0, 90.0, 100.0][k])
  {
    ResearchShape(options, reply, host);
    SuccessWrites(p, Research(options, reply, host), reportId);
  }

  /** The handler's writes around a successful analysis that reported 15, 30 and 55 percent. */
  lemma SuccessWrites(p: PostInput, o: Perplexity.Outcome, reportId: nat)
    requires o.result.Ok? && |o.updates| == 3
    requires o.updates[0].percent == 15.0 && o.updates[1].percent == 30.0 && o.updates[2].percent == 55.0
    ensures var ws := HandlerWrites(Some(p), o, reportId);
      |ws| == 9 && ws[8] == Completed(reportId) &&
      (forall k :: 0 <= k < 8 ==> ws[k].status == "processing") &&
      (forall k :: 0 <= k < 9 ==> ws[k].progress == [5.0, 10.0, 15.0, 30.0, 55.0, 60.0, 75.0, 90.0, 100.0][k])
  {
    var us := Updates(o.updates);
    assert HandlerWrites(Some(p), o, reportId) ==
      [Starting, Extracting, us[0], us[1], us[2], AfterResearch[0], AfterResearch[1], AfterResearch[2], Completed(reportId)];
  }

  /** The analysis writes nothing, or 15 and 30, or 15, 30 and 55 percent, the last only when it succeeds. */
  lemma ResearchShape(options: Core.Options, reply: Reply<Completion<Perplexity.Parsed>>, host: string -> Option<string>)
    ensures var o := Research(options, reply, host);
      (|o.updates| == 0 || |o.updates| == 2 || |o.updates| == 3) &&
      (|o.updates| == 3 <==> o.result.Ok?) &&
      (|o.updates| > 0 ==> o.updates[0].percent == 15.0 && o.updates[1].percent == 30.0) &&
      (|o.updates| == 3 ==> o.updates[2].percent == 55.0)
  {
  }

  /** Before the final write, every record is a progress update and the progress only grows. */
  lemma ProgressGrows(post: Option<PostInput>, options: Core.Options, reply: Reply<Completion<Perplexity.Parsed>>,
                      host: string -> Option<string>, reportId: nat)
    ensures var ws := HandlerWrites(post, Research(options, reply, host), reportId);
      (forall k :: 0 <= k < |ws| - 1 ==> ws[k].status == "processing") &&
      (forall k :: 0 < k < |ws| - 1 ==> ws[k - 1].progress < ws[k].progress)
  {
    if post.Some? {
      ResearchShape(options, reply, host);
      WritesGrow(post.value, Research(options, reply, host), reportId);
    }
  }

  /** The same, for any analysis outcome of one of the shapes `ResearchShape` allows. */
  lemma WritesGrow(p: PostInput, o: Perplexity.Outcome, reportId: nat)
    requires |o.updates| == 0 || |o.updates| == 2 || |o.updates| == 3
    requires |o.updates| == 3 <==> o.result.Ok?
    requires |o.updates| > 0 ==> o.updates[0].percent == 15.0 && o.updates[1].percent == 30.0
    requires |o.updates| == 3 ==> o.updates[2].percent == 55.0
    ensures var ws := HandlerWrites(Some(p), o, reportId);
      (forall k :: 0 <= k < |ws| - 1 ==> ws[k].status == "processing") &&
      (forall k :: 0 < k < |ws| - 1 ==> ws[k - 1].progress < ws[k].progress)
  {
    var ws := HandlerWrites(Some(p), o, reportId);
    var us := Updates(o.updates);
    if o.result.Ok? {
      SuccessWrites(p, o, reportId);
    } else if |o.updates| == 2 {
      assert ws == [Starting, Extracting, us[0], us[1], Failed(o.result.error)];
    } else {
      assert ws == [Starting, Extracting, Failed(o.result.error)];
    }
  }

  /** The saved report's scores: the fact-check score within 0..100, SEO at least 11 and style at least 25 when they run, 0 otherwise. */
  lemma SavedScores(postId: nat, p: PostInput, options: Core.Options, reply: Reply<Completion<Perplexity.Parsed>>,
                    host: string -> Option<string>, clock: Core.Clock, user: nat,
                    hash: string -> string, stripTags: string -> string)
    requires Research(options, reply, host).result.Ok?
    ensures var row := ReportRowFor(postId, p, Research(options, reply, host).result.value, options, clock, user, hash, stripTags);
      0 <= row.factCheckScore <= 100 &&
      (Core.OptionOn(options, "enable_seo_analysis") ==> 11 <= row.seoScore <= 100) &&
      (!Core.OptionOn(options, "enable_seo_analysis") ==> row.seoScore == 0) &&
      (Core.OptionOn(options, "enable_style_analysis") ==> 25 <= row.readabilityScore <= 100) &&
      (!Core.OptionOn(options, "enable_style_analysis") ==> row.readabilityScore == 0)
  {
    Seo.ScoreBounds(p.seo);
    Style.ScoreBounds(p.style);
  }


  /** The analysis' progress updates, written one after another. */
  method WriteUpdates(store: JobStore, jobId: string, ups: seq<Progress>)
    modifies store
    ensures store.log == old(store.log) + Tagged(jobId, Updates(ups))
    ensures store.jobs == if |ups| == 0 then old(store.jobs) else old(store.jobs)[jobId := Updates(ups)[|ups| - 1]]
  {
    ghost var log0 := store.log;
    ghost var jobs0 := store.jobs;
    var k := 0;
    while k < |ups|
      invariant 0 <= k <= |ups|
      invariant store.log == log0 + Tagged(jobId, Updates(ups[..k]))
      invariant store.jobs == if k == 0 then jobs0 else jobs0[jobId := Updates(ups)[k - 1]]
    {
      var u := ups[k];
      store.UpdateJobStatus(jobId, u.percent, u.stage, u.message);
      TaggedSnoc(jobId, Updates(ups[..k]), Processing(u.percent, u.stage, u.message));
      assert Updates(ups[..k + 1]) == Updates(ups[..k]) + [Processing(u.percent, u.stage, u.message)];
      if k > 0 {
        LastWriteWins(jobs0, jobId, Updates(ups)[k - 1], Processing(u.percent, u.stage, u.message));
      }
      k := k + 1;
    }
    assert ups[..|ups|] == ups;
  }

  /** "Extracting content", then the analysis' own updates. */
  method WriteResearch(store: JobStore, jobId: string, ups: seq<Progress>)
    modifies store
    ensures store.log == old(store.log) + Tagged(jobId, [Extracting] + Updates(ups))
    ensures store.jobs == old(store.jobs)[jobId := ([Extracting] + Updates(ups))[|ups|]]
  {
    store.UpdateJobStatus(jobId, 10.0, "analyzing", "Extracting content...");
    WriteUpdates(store, jobId, ups);
    ExtractingThenUpdates(old(store.jobs), jobId, ups);
  }

  /** The log and the job record after "Extracting content" and the analysis' updates. */
  lemma ExtractingThenUpdates(jobs: map<string, JobRecord>, jobId: string, ups: seq<Progress>)
    ensures Tagged(jobId, [Extracting]) + Tagged(jobId, Updates(ups)) == Tagged(jobId, [Extracting] + Updates(ups))
    ensures (var j := jobs[jobId := Extracting]; if |ups| == 0 then j else j[jobId := Updates(ups)[|ups| - 1]]) ==
      jobs[jobId := ([Extracting] + Updates(ups))[|ups|]]
  {
    TaggedAppend(jobId, [Extracting], Updates(ups));
    if |ups| > 0 {
      LastWriteWins(jobs, jobId, Extracting, Updates(ups)[|ups| - 1]);
    }
  }

  /** The handler after a successful analysis: the SEO and style analyses, the saved report and the completed job. */
  method SaveReport(store: JobStore, site: Core.Site, jobId: string, postId: nat, p: PostInput, fact: Perplexity.Report,
                    options: Core.Options, clock: Core.Clock, user: nat,
                    hash: string -> string, stripTags: string -> string)
    returns (reportId: nat)
    requires site.Valid()
    modifies store, site
    ensures site.Valid()
    ensures reportId == SavedId(old(site.reports), old(site.nextReportId), postId, p, fact, options, clock, user, hash, stripTags)
    ensures store.log == old(store.log) + Tagged(jobId, AfterResearch + [Completed(reportId)])
    ensures store.jobs == old(store.jobs)[jobId := Completed(reportId)]
    ensures (site.reports, site.meta, site.nextReportId) ==
      Saved(old(site.reports), old(site.meta), old(site.nextReportId), postId, p, fact, options, clock, user, hash, stripTags)
  {
    store.UpdateJobStatus(jobId, 60.0, "seo", "Analyzing SEO...");
    var seo := SeoStep(options, p);
    store.UpdateJobStatus(jobId, 75.0, "style", "Analyzing style...");
    var style := StyleStep(options, p);
    store.UpdateJobStatus(jobId, 90.0, "saving", "Saving report...");
    reportId := StoreReport(site, postId, p, fact, seo, style, options, clock, user, hash, stripTags);
    store.CompleteJob(jobId, reportId);
    FinishingWrites(old(store.jobs), jobId, reportId);
  }

  /** The SEO analysis, when it is on. */
  method SeoStep(options: Core.Options, p: PostInput) returns (seo: Option<Seo.Report>)
    ensures seo == SeoResult(options, p)
  {
    seo := None;
    if Core.OptionOn(options, "enable_seo_analysis") {
      var r := Seo.Analyze(p.seo);
      seo := Some(r);
    }
  }

  /** The style analysis, when it is on. */
  method StyleStep(options: Core.Options, p: PostInput) returns (style: Option<Style.Report>)
    ensures style == StyleResult(options, p)
  {
    style := None;
    if Core.OptionOn(options, "enable_style_analysis") {
      var r := Style.Analyze(p.style);
      style := Some(r);
    }
  }

  /** The report row insert and the post's three report metas. */
  method StoreReport(site: Core.Site, postId: nat, p: PostInput, fact: Perplexity.Report,
                     seo: Option<Seo.Report>, style: Option<Style.Report>, options: Core.Options,
                     clock: Core.Clock, user: nat, hash: string -> string, stripTags: string -> string)
    returns (reportId: nat)
    requires site.Valid() && seo == SeoResult(options, p) && style == StyleResult(options, p)
    modifies site
    ensures site.Valid()
    ensures reportId == SavedId(old(site.reports), old(site.nextReportId), postId, p, fact, options, clock, user, hash, stripTags)
    ensures (site.reports, site.meta, site.nextReportId) ==
      Saved(old(site.reports), old(site.meta), old(site.nextReportId), postId, p, fact, options, clock, user, hash, stripTags)
  {
    var seoScore := match seo case Some(r) => r.score case None => 0;
    var readabilityScore := match style case Some(r) => r.score case None => 0;
    var content := stripTags(p.title + "\n\n" + p.content);
    var row := Core.ReportRow(0, postId, hash(content), Core.FullReport(fact, seo, style, clock.mysql, user),
                              fact.score, seoScore, readabilityScore, "completed", clock.unix, None, None);
    assert row == ReportRowFor(postId, p, fact, options, clock, user, hash, stripTags);
    reportId := site.InsertReport(row);
    site.UpdateMeta(postId, "_facty_pro_last_report", NatToString(reportId));
    site.UpdateMeta(postId, "_facty_pro_last_check", clock.mysql);
    site.UpdateMeta(postId, "_facty_pro_fact_score", IntToString(fact.score));
  }

  /** The four writes after the analysis, and the job record they leave. */
  lemma FinishingWrites(jobs: map<string, JobRecord>, jobId: string, reportId: nat)
    ensures [(jobId, AfterResearch[0]), (jobId, AfterResearch[1]), (jobId, AfterResearch[2]), (jobId, Completed(reportId))] ==
      Tagged(jobId, AfterResearch + [Completed(reportId)])
    ensures jobs[jobId := AfterResearch[0]][jobId := AfterResearch[1]][jobId := AfterResearch[2]][jobId := Completed(reportId)] ==
      jobs[jobId := Completed(reportId)]
  {
    LastWriteWins(jobs, jobId, AfterResearch[0], AfterResearch[1]);
    LastWriteWins(jobs, jobId, AfterResearch[1], AfterResearch[2]);
    LastWriteWins(jobs, jobId, AfterResearch[2], Completed(reportId));
  }

  /**
   * The handler once the analysis has returned `o`: the job fails with its
   * message and the site is untouched, or the report is saved and the job completes.
   */
  method Finish(store: JobStore, site: Core.Site, jobId: string, postId: nat, p: PostInput, o: Perplexity.Outcome,
                options: Core.Options, clock: Core.Clock, user: nat,
                hash: string -> string, stripTags: string -> string)
    requires site.Valid()
    modifies store, site
    ensures site.Valid()
    ensures var ws := FinishWrites(o, OutcomeId(old(site.reports), old(site.nextReportId), postId, p, o, options, clock, user, hash, stripTags));
      (store.log, store.jobs) == Logged(old(store.log), old(store.jobs), jobId, ws)
    ensures (site.reports, site.meta, site.nextReportId) ==
      SiteAfter(old(site.reports), old(site.meta), old(site.nextReportId), postId, p, o, options, clock, user, hash, stripTags)
  {
    if o.result.Err? {
      store.FailJob(jobId, o.result.error);
      assert Tagged(jobId, [Failed(o.result.error)]) == [(jobId, Failed(o.result.error))];
      return;
    }
    var reportId := SaveReport(store, site, jobId, postId, p, o.result.value, options, clock, user, hash, stripTags);
    assert FinishWrites(o, reportId) == AfterResearch + [Completed(reportId)];
  }

  /** The handler's writes and saves around an analysis that returns `o`. */
  method AnalysisSteps(store: JobStore, site: Core.Site, jobId: string, postId: nat, p: PostInput, o: Perplexity.Outcome,
                       options: Core.Options, clock: Core.Clock, user: nat,
                       hash: string -> string, stripTags: string -> string)
    requires site.Valid()
    modifies store, site
    ensures site.Valid()
    ensures var ws := AnalysisWrites(o, OutcomeId(old(site.reports), old(site.nextReportId), postId, p, o, options, clock, user, hash, stripTags));
      (store.log, store.jobs) == Logged(old(store.log), old(store.jobs), jobId, ws)
    ensures (site.reports, site.meta, site.nextReportId) ==
      SiteAfter(old(site.reports), old(site.meta), old(site.nextReportId), postId, p, o, options, clock, user, hash, stripTags)
  {
    WriteResearch(store, jobId, o.updates);
    Finish(store, site, jobId, postId, p, o, options, clock, user, hash, stripTags);
    LoggedAppend(old(store.log), old(store.jobs), jobId, [Extracting] + Updates(o.updates),
                 FinishWrites(o, OutcomeId(old(site.reports), old(site.nextReportId), postId, p, o, options, clock, user, hash, stripTags)));
  }

  /**
   * `facty_pro_process_fact_check_handler`: the job's writes are `HandlerWrites`;
   * on success the report is inserted and the post's three report metas are set,
   * and on failure the site is untouched.
   */
  method ProcessFactCheck(store: JobStore, site: Core.Site, jobId: string, postId: nat, post: Option<PostInput>,
                          options: Core.Options, reply: Reply<Completion<Perplexity.Parsed>>,
                          host: string -> Option<string>, clock: Core.Clock, user: nat,
                          hash: string -> string, stripTags: string -> string)
    requires site.Valid()
    modifies store, site
    ensures site.Valid()
    ensures var ws := HandlerWrites(post, Research(options, reply, host),
                                    HandlerId(old(site.reports), old(site.nextReportId), postId, post, Research(options, reply, host),
                                              options, clock, user, hash, stripTags));
      (store.log, store.jobs) == Logged(old(store.log), old(store.jobs), jobId, ws)
    ensures post.None? ==>
      site.reports == old(site.reports) && site.meta == old(site.meta) && site.nextReportId == old(site.nextReportId)
    ensures post.Some? ==>
      (site.reports, site.meta, site.nextReportId) ==
        SiteAfter(old(site.reports), old(site.meta), old(site.nextReportId), postId, post.value,
                  Research(options, reply, host), options, clock, user, hash, stripTags)
  {
    if post.None? {
      store.UpdateJobStatus(jobId, 5.0, "starting", "Initializing fact-check...");
      store.FailJob(jobId, "Post not found");
      LastWriteWins(old(store.jobs), jobId, Starting, Failed("Post not found"));
      ghost var ws := HandlerWrites(post, Research(options, reply, host), 0);
      assert ws == [Starting, Failed("Post not found")];
      assert Tagged(jobId, ws) == [(jobId, Starting), (jobId, Failed("Post not found"))];
      assert store.log == old(store.log) + [(jobId, Starting), (jobId, Failed("Post not found"))];
      return;
    }
    // The analysis is a function of its inputs, so its outcome can be named before the writes around it.
    var o := Research(options, reply, host);
    HandlePost(store, site, jobId, postId, post.value, o, options, clock, user, hash, stripTags);
  }

  /** The handler for a post that exists, around an analysis that returns `o`. */
  method HandlePost(store: JobStore, site: Core.Site, jobId: string, postId: nat, p: PostInput, o: Perplexity.Outcome,
                    options: Core.Options, clock: Core.Clock, user: nat,
                    hash: string -> string, stripTags: string -> string)
    requires site.Valid()
    modifies store, site
    ensures site.Valid()
    ensures var ws := HandlerWrites(Some(p), o, OutcomeId(old(site.reports), old(site.nextReportId), postId, p, o, options, clock, user, hash, stripTags));
      (store.log, store.jobs) == Logged(old(store.log), old(store.jobs), jobId, ws)
    ensures (site.reports, site.meta, site.nextReportId) ==
      SiteAfter(old(site.reports), old(site.meta), old(site.nextReportId), postId, p, o, options, clock, user, hash, stripTags)
  {
    store.UpdateJobStatus(jobId, 5.0, "starting", "Initializing fact-check...");
    assert Tagged(jobId, [Starting]) == [(jobId, Starting)];
    AnalysisSteps(store, site, jobId, postId, p, o, options, clock, user, hash, stripTags);
    LoggedAppend(old(store.log), old(store.jobs), jobId, [Starting],
                 AnalysisWrites(o, OutcomeId(old(site.reports), old(site.nextReportId), postId, p, o, options, clock, user, hash, stripTags)));
  }

}
