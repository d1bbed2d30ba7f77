/**
 * The multi-step Perplexity analyser: extract the factual claims of an article,
 * verify each claim with its own search, and compile the per-claim verdicts into
 * one report with a weighted score, a status, issues, verified facts and sources.
 *
 * Every call to the API is represented by the reply it returns: `extraction` for
 * the claim-extraction call, and `verification(i)` for the call verifying claim `i`.
 */
module Multistep {
  import opened Php
  import opened Service

  const Mode := "perplexity-multistep"

  // ---------------------------------------------------------------------------
  // Data

  /** One element of the extracted `claims` list; a non-array element has neither key. */
  datatype ClaimItem = ClaimItem(claim: Field<string>, claimType: Field<string>)

  /** The decoded extraction reply: `claims`, when it is set and an array. */
  datatype ClaimList = ClaimList(claims: Option<seq<ClaimItem>>)

  /**
   * A verification result, as decoded from the model's reply or built by the
   * analyser. `actual_facts` and `why_it_matters` are optional keys of the reply.
   */
  datatype Verdict = Verdict(
    claim: Field<string>,
    isAccurate: Field<Scalar>,
    confidence: Field<string>,
    issueType: Field<string>,
    explanation: Field<string>,
    actualFacts: Field<string>,
    whyItMatters: Field<string>,
    sources: Field<seq<Source>>)

  datatype Issue = Issue(
    claim: Field<string>,
    typeLabel: string,
    severity: string,
    whatArticleSays: Field<string>,
    theProblem: string,
    actualFacts: string,
    whyItMatters: string)

  datatype VerifiedFact = VerifiedFact(claim: Field<string>, confidence: string)

  datatype ReportSource = ReportSource(title: string, url: string, credibility: string)

  datatype Report = Report(
    score: int,
    status: string,
    description: string,
    issues: seq<Issue>,
    verifiedFacts: seq<VerifiedFact>,
    sources: seq<ReportSource>,
    mode: string)

  // ---------------------------------------------------------------------------
  // Step 1: claim extraction

  /** `perplexity_multistep_max_claims`: `intval` of the option when set, 10 otherwise. */
  function MaxClaims(option: Field<Scalar>): int {
    if option.Val? then IntVal(option.v) else 10
  }

  /**
   * `extract_claims`: the claims list of a well-formed reply, cut to `maxClaims`
   * by `array_slice`; every failure gives no claims.
   */
  function ExtractClaims(reply: Reply<Completion<ClaimList>>, maxClaims: int): (r: seq<ClaimItem>)
    ensures maxClaims >= 0 ==> |r| <= maxClaims
    ensures r != [] ==> reply.Http? && reply.code == 200 && reply.body.message.Val?
    ensures r != [] ==> reply.body.message.v.decoded.Array? && reply.body.message.v.decoded.fields.claims.Some?
  {
    match reply
    case TransportError(_) => []
    case Http(code, data) =>
      if code != 200 || !data.message.Val? then []
      else match data.message.v.decoded
        case Array(ClaimList(Some(cs))) => Slice(cs, maxClaims)
        case _ => []
  }

  /** The reply lists `cs` as its claims. */
  predicate ListedClaims(reply: Reply<Completion<ClaimList>>, cs: seq<ClaimItem>) {
    reply.Http? && reply.body.message.Val? && reply.body.message.v.decoded == Array(ClaimList(Some(cs)))
  }

  /**
   * A successful extraction keeps the listed claims in order: a prefix, and all
   * of them when there are no more than `maxClaims`.
   */
  lemma ExtractClaimsKeepsOrder(reply: Reply<Completion<ClaimList>>, maxClaims: int, cs: seq<ClaimItem>)
    requires ListedClaims(reply, cs) && reply.code == 200
    ensures var r := ExtractClaims(reply, maxClaims); |r| <= |cs| && r == cs[..|r|]
    ensures |cs| <= maxClaims ==> ExtractClaims(reply, maxClaims) == cs
    ensures maxClaims < 0 && |cs| + maxClaims >= 0 ==> |ExtractClaims(reply, maxClaims)| == |cs| + maxClaims
  {
  }

  // ---------------------------------------------------------------------------
  // Step 2: verification of one claim

  /** The result `verify_single_claim` returns for a claim that is missing or `empty()`. */
  const EmptyClaimVerdict := Verdict(Val("Unknown claim"), Val(SBool(false)), Val("low"), Absent,
                                     Val("Claim was empty or invalid"), Absent, Absent, Val([]))

  /** The result for a claim whose verification call failed, with the failure's explanation. */
  function FailedVerdict(claim: string, explanation: string): Verdict {
    Verdict(Val(claim), Val(SBool(false)), Val("low"), Val("unverified"), Val(explanation), Absent, Absent, Val([]))
  }

  /**
   * The reply's citations put in front of the verdict's own sources, duplicates
   * dropped, at most five; only when there are citations and the verdict has sources.
   */
  function MergeCitations(citations: seq<Source>, sources: Field<seq<Source>>): (r: Field<seq<Source>>)
    ensures r.Val? && sources.Val? && |citations| > 0 ==>
      |r.v| <= 5 && NoDuplicates(r.v) && (forall s :: s in r.v ==> s in citations || s in sources.v)
    ensures !(|citations| > 0 && sources.Val?) ==> r == sources
  {
    if |citations| > 0 && sources.Val? then
      var d := Dedup(citations + sources.v);
      TakeOfDistinct(d, 5);
      Val(Take(d, 5))
    else sources
  }

  /** `array_merge` of the defaults with the decoded verdict: keys the reply set are kept. */
  function WithDefaults(claim: string, p: Verdict): (r: Verdict)
    ensures r.actualFacts == p.actualFacts && r.whyItMatters == p.whyItMatters
  {
    Verdict(Merge(p.claim, claim), Merge(p.isAccurate, SBool(false)), Merge(p.confidence, "low"),
            Merge(p.issueType, "unverified"), Merge(p.explanation, "No explanation provided"),
            p.actualFacts, p.whyItMatters, Merge(p.sources, []))
  }

  /** The verification call returned 200 with content that decoded to a non-empty array. */
  predicate Decodes(reply: Reply<Completion<Verdict>>) {
    reply.Http? && reply.code == 200 && reply.body.message.Val? && reply.body.message.v.decoded.Array?
  }

  /**
   * Each key of the merged verdict is the reply's own value when the reply sets the
   * key (even to null) and the default otherwise.
   */
  lemma DefaultedKeys(claim: string, p: Verdict)
    ensures var r := WithDefaults(claim, p);
      (r.claim == if p.claim.Absent? then Val(claim) else p.claim) &&
      (r.isAccurate == if p.isAccurate.Absent? then Val(SBool(false)) else p.isAccurate) &&
      (r.confidence == if p.confidence.Absent? then Val("low") else p.confidence) &&
      (r.issueType == if p.issueType.Absent? then Val("unverified") else p.issueType) &&
      (r.explanation == if p.explanation.Absent? then Val("No explanation provided") else p.explanation) &&
      (r.sources == if p.sources.Absent? then Val([]) else p.sources)
  {
  }

  /** `verify_single_claim`. */
  function VerifySingleClaim(item: ClaimItem, reply: Reply<Completion<Verdict>>, host: string -> Option<string>): (v: Verdict)
    ensures Empty(item.claim.Or("")) ==> v == EmptyClaimVerdict
    ensures !Empty(item.claim.Or("")) && reply.TransportError? ==>
      v == FailedVerdict(item.claim.v, "API error during verification")
    ensures !Empty(item.claim.Or("")) && reply.Http? && reply.code != 200 ==>
      v == FailedVerdict(item.claim.v, "HTTP error during verification")
    ensures !Empty(item.claim.Or("")) && reply.Http? && reply.code == 200 && !reply.body.message.Val? ==>
      v == FailedVerdict(item.claim.v, "Invalid response format")
    ensures !Empty(item.claim.Or("")) && reply.Http? && reply.code == 200 && reply.body.message.Val? &&
            !reply.body.message.v.decoded.Array? ==>
      v == FailedVerdict(item.claim.v, "Failed to parse verification result")
    ensures !Empty(item.claim.Or("")) && Decodes(reply) ==>
      var p := reply.body.message.v.decoded.fields;
      v == WithDefaults(item.claim.v, p.(sources := MergeCitations(CitationsOf(reply.body, host), p.sources)))
  {
    var claim := item.claim.Or("");
    if Empty(claim) then EmptyClaimVerdict
    else match reply
      case TransportError(_) => FailedVerdict(claim, "API error during verification")
      case Http(code, data) =>
        if code != 200 then FailedVerdict(claim, "HTTP error during verification")
        else if !data.message.Val? then FailedVerdict(claim, "Invalid response format")
        else match data.message.v.decoded
          case Array(p) =>
            var merged := p.(sources := MergeCitations(CitationsOf(data, host), p.sources));
            WithDefaults(claim, merged)
          case _ => FailedVerdict(claim, "Failed to parse verification result")
  }

  // ---------------------------------------------------------------------------
  // Step 3: compiling the report

  /** A verdict counts as accurate when `is_accurate` is truthy and the confidence is set and not "low". */
  predicate Accurate(v: Verdict) {
    TruthyField(v.isAccurate) && v.confidence.Or("low") != "low"
  }

  function IssueTypeOf(v: Verdict): string { v.issueType.Or("unverified") }

  /** Issue types weighted as misleading in the score. */
  predicate IsMisleadingType(t: string) {
    t == "outdated" || t == "misleading" || t == "missing_context"
  }

  function Severity(t: string): string {
    if t == "factual_error" then "high"
    else if t == "outdated" || t == "misleading" then "medium"
    else if t == "missing_context" || t == "unverified" then "low"
    else "medium"
  }

  function TypeLabel(t: string): string {
    if t == "factual_error" then "Factual Error"
    else if t == "outdated" then "Outdated"
    else if t == "misleading" then "Misleading"
    else if t == "missing_context" then "Missing Context"
    else "Unverified"
  }

  function IssueOf(v: Verdict): Issue {
    var t := IssueTypeOf(v);
    Issue(v.claim, TypeLabel(t), Severity(t), v.claim,
          v.explanation.Or("Could not verify this claim"),
          v.actualFacts.Or("See explanation"),
          v.whyItMatters.Or("Accuracy is important for reader trust"))
  }

  /** The counters of the report loop. */
  datatype Tally = Tally(accurate: nat, inaccurate: nat, falseCount: nat, misleading: nat, unverified: nat, highSeverity: nat)

  function Count(t: Tally, v: Verdict): Tally {
    if Accurate(v) then t.(accurate := t.accurate + 1)
    else
      var ty := IssueTypeOf(v);
      var t1 := t.(inaccurate := t.inaccurate + 1);
      if ty == "factual_error" then t1.(falseCount := t1.falseCount + 1, highSeverity := t1.highSeverity + 1)
      else if IsMisleadingType(ty) then t1.(misleading := t1.misleading + 1)
      else if ty == "unverified" then t1.(unverified := t1.unverified + 1)
      else t1
  }

  function TallyOf(vs: seq<Verdict>): Tally
    decreases |vs|
  {
    if |vs| == 0 then Tally(0, 0, 0, 0, 0, 0) else Count(TallyOf(vs[..|vs| - 1]), vs[|vs| - 1])
  }

  function IssuesOf(vs: seq<Verdict>): seq<Issue>
    decreases |vs|
  {
    if |vs| == 0 then []
    else
      var v := vs[|vs| - 1];
      IssuesOf(vs[..|vs| - 1]) + (if Accurate(v) then [] else [IssueOf(v)])
  }

  function FactsOf(vs: seq<Verdict>): seq<VerifiedFact>
    decreases |vs|
  {
    if |vs| == 0 then []
    else
      var v := vs[|vs| - 1];
      FactsOf(vs[..|vs| - 1]) + (if Accurate(v) then [VerifiedFact(v.claim, v.confidence.v)] else [])
  }

  /** The report entries of one verdict's sources: those with a URL, with defaults filled in. */
  function EntriesOf(ss: seq<Source>): seq<ReportSource>
    decreases |ss|
  {
    if |ss| == 0 then []
    else
      var s := ss[|ss| - 1];
      EntriesOf(ss[..|ss| - 1]) +
        (if s.url.Val? then [ReportSource(s.title.Or("Source"), s.url.v, s.credibility.Or("medium"))] else [])
  }

  function SourcesOfVerdict(v: Verdict): seq<ReportSource> {
    if v.sources.Val? && |v.sources.v| > 0 then EntriesOf(v.sources.v) else []
  }

  function AllSources(vs: seq<Verdict>): seq<ReportSource>
    decreases |vs|
  {
    if |vs| == 0 then [] else AllSources(vs[..|vs| - 1]) + SourcesOfVerdict(vs[|vs| - 1])
  }

  /** The weighted score: accurate 100, unverified 80, misleading 50, false 0, averaged and rounded. */
  function WeightedScore(t: Tally, total: nat): nat {
    if total > 0 then RoundDiv(100 * t.accurate + 80 * t.unverified + 50 * t.misleading, total) else 0
  }

  /** Five points off per high-severity issue, not below zero. */
  function Penalised(score: int, highSeverity: nat): int {
    if highSeverity > 0 then (if score - 5 * highSeverity < 0 then 0 else score - 5 * highSeverity) else score
  }

  function StatusFor(score: int): string {
    if score >= 95 then "Verified"
    else if score >= 85 then "Mostly Accurate"
    else if score >= 70 then "Needs Review"
    else if score >= 50 then "Multiple Errors"
    else "False"
  }

  function Clamp(score: int): int {
    if score < 0 then 0 else if score > 100 then 100 else score
  }

  function Description(total: nat, t: Tally): string {
    "Multi-step verification analyzed " + NatToString(total) + " claims: " + NatToString(t.accurate) +
    " verified accurate, " + NatToString(t.inaccurate) + " with issues."
  }

  function ScoreOf(vs: seq<Verdict>, total: nat): int {
    var t := TallyOf(vs);
    Penalised(WeightedScore(t, total), t.highSeverity)
  }

  /** `compile_final_report` followed by the `mode` key `analyze` adds. */
  function FinalReport(vs: seq<Verdict>, total: nat): (r: Report)
    ensures 0 <= r.score <= 100 && r.mode == Mode
    ensures |r.sources| <= 20 && NoDuplicates(r.sources) && forall s :: s in r.sources ==> s in AllSources(vs)
  {
    TakeOfDistinct(Dedup(AllSources(vs)), 20);
    var t := TallyOf(vs);
    var score := ScoreOf(vs, total);
    Report(Clamp(score), StatusFor(score), Description(total, t), IssuesOf(vs), FactsOf(vs),
           Take(Dedup(AllSources(vs)), 20), Mode)
  }

  /** The inner loop of `compile_final_report` over one verdict's sources. */
  method CollectEntries(ss: seq<Source>) returns (entries: seq<ReportSource>)
    ensures entries == EntriesOf(ss)
  {
    entries := [];
    var j := 0;
    while j < |ss|
      invariant 0 <= j <= |ss|
      invariant entries == EntriesOf(ss[..j])
    {
      assert ss[..j + 1][..j] == ss[..j];
      if ss[j].url.Val? {
        entries := entries + [ReportSource(ss[j].title.Or("Source"), ss[j].url.v, ss[j].credibility.Or("medium"))];
      }
      j := j + 1;
    }
    assert ss[..|ss|] == ss;
  }

  /** The report's accumulators over a prefix one verdict longer. */
  lemma PrefixStep(vs: seq<Verdict>, i: nat)
    requires i < |vs|
    ensures TallyOf(vs[..i + 1]) == Count(TallyOf(vs[..i]), vs[i])
    ensures IssuesOf(vs[..i + 1]) == IssuesOf(vs[..i]) + (if Accurate(vs[i]) then [] else [IssueOf(vs[i])])
    ensures FactsOf(vs[..i + 1]) == FactsOf(vs[..i]) + (if Accurate(vs[i]) then [VerifiedFact(vs[i].claim, vs[i].confidence.v)] else [])
    ensures AllSources(vs[..i + 1]) == AllSources(vs[..i]) + SourcesOfVerdict(vs[i])
  {
    assert vs[..i + 1][..i] == vs[..i];
  }

  /** The score of `compile_final_report`: the weighted average, rounded, less the penalty. */
  method ComputeScore(t: Tally, total: nat) returns (score: int)
    ensures score == Penalised(WeightedScore(t, total), t.highSeverity)
  {
    score := 0;
    if total > 0 {
      score := RoundDiv(100 * t.accurate + 80 * t.unverified + 50 * t.misleading, total);
    }
    if t.highSeverity > 0 {
      score := if score - 5 * t.highSeverity < 0 then 0 else score - 5 * t.highSeverity;
    }
  }

  /** `compile_final_report`: one pass over the verdicts, then the score, status and description. */
  method CompileFinalReport(vs: seq<Verdict>, total: nat) returns (r: Report)
    ensures r == FinalReport(vs, total)
  {
    var tally := Tally(0, 0, 0, 0, 0, 0);
    var issues: seq<Issue> := [];
    var facts: seq<VerifiedFact> := [];
    var all: seq<ReportSource> := [];
    var i := 0;
    while i < |vs|
      invariant 0 <= i <= |vs|
      invariant tally == TallyOf(vs[..i])
      invariant issues == IssuesOf(vs[..i])
      invariant facts == FactsOf(vs[..i])
      invariant all == AllSources(vs[..i])
    {
      var v := vs[i];
      PrefixStep(vs, i);
      tally := Count(tally, v);
      if Accurate(v) {
        facts := facts + [VerifiedFact(v.claim, v.confidence.v)];
      } else {
        issues := issues + [IssueOf(v)];
      }
      if v.sources.Val? && |v.sources.v| > 0 {
        var entries := CollectEntries(v.sources.v);
        all := all + entries;
      }
      i := i + 1;
    }
    assert vs[..|vs|] == vs;
    var score := ComputeScore(tally, total);
    r := Report(Clamp(score), StatusFor(score), Description(total, tally), issues, facts, Take(Dedup(all), 20), Mode);
  }

  // ---------------------------------------------------------------------------
  // The whole analysis

  const SatireReport := Report(100, "Satire", "This is satirical content meant for entertainment.", [], [], [], Mode)

  const NoClaimsReport := Report(75, "Needs Review", "No specific factual claims found to verify in this article.", [], [], [], Mode)

  /** The verdicts of all claims, claim `i` verified with reply `verification(i)`. */
  function Verdicts(claims: seq<ClaimItem>, verification: nat -> Reply<Completion<Verdict>>, host: string -> Option<string>): (vs: seq<Verdict>)
    ensures |vs| == |claims|
  {
    seq(|claims|, i requires 0 <= i < |claims| => VerifySingleClaim(claims[i], verification(i), host))
  }

  /** The percentage reported while claim `i` of `total` is verified. */
  function VerifyPercent(i: nat, total: nat): real
    requires total > 0
  {
    30.0 + ((i + 1) as real / total as real) * 60.0
  }

  /** The update written before claim `k` of `total` is verified. */
  function VerifyUpdate(k: nat, total: nat): Progress
    requires k < total
  {
    Progress(VerifyPercent(k, total), "verifying", "Verifying claim " + NatToString(k + 1) + " of " + NatToString(total) + "...")
  }

  /** The updates of the verification loop, one per claim. */
  function VerifyUpdates(total: nat): (us: seq<Progress>)
    ensures |us| == total
    ensures forall k :: 0 <= k < total ==> us[k] == VerifyUpdate(k, total)
  {
    seq(total, k requires 0 <= k < total => VerifyUpdate(k, total))
  }

  const StartUpdate := Progress(10.0, "analyzing", "Starting multi-step analysis...")
  const SatireUpdate := Progress(100.0, "complete", "Satire detected")
  const ExtractUpdate := Progress(20.0, "extracting", "Extracting factual claims...")
  const CompileUpdate := Progress(95.0, "generating", "Compiling comprehensive report...")

  function FoundUpdate(total: nat): Progress {
    Progress(30.0, "verifying", "Found " + NatToString(total) + " claims. Verifying each claim...")
  }

  /** The updates once `total` claims are extracted: none without claims, else found, one per claim, compiling. */
  function ClaimUpdates(total: nat): seq<Progress> {
    if total == 0 then [] else [FoundUpdate(total)] + VerifyUpdates(total) + [CompileUpdate]
  }

  /** Every update `analyze` writes with a task id and a key, given whether it is satire and how many claims it finds. */
  function AnalyzeUpdates(satire: bool, total: nat): seq<Progress> {
    if satire then [StartUpdate, SatireUpdate] else [StartUpdate, ExtractUpdate] + ClaimUpdates(total)
  }

  /** Every update of `ps` reports a percentage between `lo` and `hi`. */
  predicate Within(ps: seq<Progress>, lo: real, hi: real) {
    forall k :: 0 <= k < |ps| ==> lo <= ps[k].percent <= hi
  }

  /** The percentages of `ps` never go down. */
  predicate Ordered(ps: seq<Progress>) {
    forall k :: 0 < k < |ps| ==> ps[k - 1].percent <= ps[k].percent
  }

  lemma ConcatOrdered(a: seq<Progress>, b: seq<Progress>, lo: real, mid: real, hi: real)
    requires lo <= mid <= hi
    requires Ordered(a) && Ordered(b) && Within(a, lo, mid) && Within(b, mid, hi)
    ensures Ordered(a + b) && Within(a + b, lo, hi)
  {
    var c := a + b;
    forall k | 0 < k < |c|
      ensures c[k - 1].percent <= c[k].percent
    {
      if k < |a| {
        assert c[k - 1] == a[k - 1] && c[k] == a[k];
      } else if k == |a| {
        assert c[k - 1] == a[k - 1] && c[k] == b[0];
      } else {
        assert c[k - 1] == b[k - 1 - |a|] && c[k] == b[k - |a|];
      }
    }
    forall k | 0 <= k < |c|
      ensures lo <= c[k].percent <= hi
    {
      if k < |a| {
        assert c[k] == a[k];
      } else {
        assert c[k] == b[k - |a|];
      }
    }
  }

  /**
   * `analyze`: the report, or the exception for a missing key; `progress` is the
   * sequence of updates written when a task id is given.
   */
  method Analyze(apiKey: string, hasTask: bool, satire: bool, maxClaimsOption: Field<Scalar>,
                 extraction: Reply<Completion<ClaimList>>, verification: nat -> Reply<Completion<Verdict>>,
                 host: string -> Option<string>)
    returns (r: Result<Report, string>, progress: seq<Progress>)
    ensures Empty(apiKey) ==> r == Err("Perplexity API key not configured") && progress == []
    ensures !Empty(apiKey) && satire ==> r == Ok(SatireReport)
    ensures !Empty(apiKey) && !satire ==>
      var claims := ExtractClaims(extraction, MaxClaims(maxClaimsOption));
      r == Ok(if claims == [] then NoClaimsReport else FinalReport(Verdicts(claims, verification, host), |claims|))
    ensures !hasTask ==> progress == []
    ensures !Empty(apiKey) && hasTask ==>
      progress == AnalyzeUpdates(satire, |ExtractClaims(extraction, MaxClaims(maxClaimsOption))|)
    ensures Within(progress, 10.0, 100.0) && Ordered(progress)
  {
    progress := [];
    if Empty(apiKey) {
      return Err("Perplexity API key not configured"), progress;
    }
    OpeningUpdatesOrdered();
    if satire {
      if hasTask {
        progress := [StartUpdate, SatireUpdate];
      }
      return Ok(SatireReport), progress;
    }
    if hasTask {
      progress := [StartUpdate, ExtractUpdate];
    }
    var claims := ExtractClaims(extraction, MaxClaims(maxClaimsOption));
    var report;
    report, progress := AnalyzeClaims(claims, progress, verification, host, hasTask);
    r := Ok(report);
  }

  /** The updates `analyze` writes before it verifies any claim are ordered and within their bands. */
  lemma OpeningUpdatesOrdered()
    ensures Within([StartUpdate, SatireUpdate], 10.0, 100.0) && Ordered([StartUpdate, SatireUpdate])
    ensures Within([StartUpdate, ExtractUpdate], 10.0, 20.0) && Ordered([StartUpdate, ExtractUpdate])
    ensures Within([], 10.0, 20.0) && Ordered([])
  {
  }

  /** `analyze` once the claims are extracted: the report on them, and the updates so far followed by the new ones. */
  method AnalyzeClaims(claims: seq<ClaimItem>, before: seq<Progress>, verification: nat -> Reply<Completion<Verdict>>,
                       host: string -> Option<string>, hasTask: bool)
    returns (report: Report, progress: seq<Progress>)
    requires Within(before, 10.0, 20.0) && Ordered(before)
    requires !hasTask ==> before == []
    ensures report == if claims == [] then NoClaimsReport else FinalReport(Verdicts(claims, verification, host), |claims|)
    ensures !hasTask ==> progress == []
    ensures claims == [] ==> progress == before
    ensures hasTask ==> progress == before + ClaimUpdates(|claims|)
    ensures Within(progress, 10.0, 100.0) && Ordered(progress)
  {
    progress := before;
    if claims == [] {
      return NoClaimsReport, progress;
    }
    var total := |claims|;
    if hasTask {
      progress := progress + [FoundUpdate(total)];
    }
    assert Within(progress, 10.0, 30.0) && Ordered(progress);
    var rest;
    report, rest := VerifyAndCompile(claims, verification, host, hasTask);
    ConcatOrdered(progress, rest, 10.0, 30.0, 100.0);
    if hasTask {
      AppendAssoc(before, [FoundUpdate(total)], rest);
    }
    progress := progress + rest;
  }

  /** Steps 2 and 3 of `analyze`: verify every claim, then compile the report. */
  method VerifyAndCompile(claims: seq<ClaimItem>, verification: nat -> Reply<Completion<Verdict>>,
                          host: string -> Option<string>, hasTask: bool)
    returns (report: Report, progress: seq<Progress>)
    requires |claims| > 0
    ensures report == FinalReport(Verdicts(claims, verification, host), |claims|)
    ensures !hasTask ==> progress == []
    ensures hasTask ==> progress == VerifyUpdates(|claims|) + [CompileUpdate]
    ensures Within(progress, 30.0, 100.0) && Ordered(progress)
  {
    var results, verifying := VerifyAll(claims, verification, host, hasTask);
    progress := verifying;
    if hasTask {
      var last := [CompileUpdate];
      ConcatOrdered(progress, last, 30.0, 90.0, 100.0);
      progress := progress + last;
    }
    report := CompileFinalReport(results, |claims|);
  }

  /** The loop of `analyze` over the claims: one verdict and, with a task, one update per claim. */
  method VerifyAll(claims: seq<ClaimItem>, verification: nat -> Reply<Completion<Verdict>>,
                   host: string -> Option<string>, hasTask: bool)
    returns (results: seq<Verdict>, progress: seq<Progress>)
    requires |claims| > 0
    ensures results == Verdicts(claims, verification, host)
    ensures hasTask ==> progress == VerifyUpdates(|claims|)
    ensures !hasTask ==> progress == []
    ensures Within(progress, 30.0, 90.0) && Ordered(progress)
  {
    var total := |claims|;
    results := [];
    progress := [];
    var i := 0;
    while i < total
      invariant 0 <= i <= total
      invariant results == Verdicts(claims, verification, host)[..i]
      invariant hasTask ==> progress == VerifyUpdates(total)[..i]
      invariant !hasTask ==> progress == []
      invariant forall k :: 0 <= k < |progress| ==> progress[k].percent == VerifyPercent(k, total)
    {
      if hasTask {
        progress := progress + [VerifyUpdate(i, total)];
      }
      results := results + [VerifySingleClaim(claims[i], verification(i), host)];
      i := i + 1;
    }
    assert VerifyUpdates(total)[..total] == VerifyUpdates(total);
    forall k | 0 <= k < |progress|
      ensures 30.0 <= progress[k].percent <= 90.0
    {
      VerifyPercentBounds(k, total);
    }
    forall k | 0 < k < |progress|
      ensures progress[k - 1].percent <= progress[k].percent
    {
      VerifyPercentMonotone(k - 1, total);
    }
  }

  lemma VerifyPercentBounds(i: nat, total: nat)
    requires i < total
    ensures 30.0 < VerifyPercent(i, total) <= 90.0
  {
    var f := (i + 1) as real / total as real;
    assert f * total as real == (i + 1) as real;
    assert 0.0 < f <= 1.0;
  }

  lemma VerifyPercentMonotone(i: nat, total: nat)
    requires i + 1 < total
    ensures VerifyPercent(i, total) <= VerifyPercent(i + 1, total)
  {
    var f := (i + 1) as real / total as real;
    var g := (i + 2) as real / total as real;
    assert f * total as real == (i + 1) as real;
    assert g * total as real == (i + 2) as real;
    assert (g - f) * total as real == 1.0;
  }

  // ---------------------------------------------------------------------------
  // Properties of the report

  /** Every verdict lands in exactly one of the two lists, and the counters count those lists. */
  lemma {:induction false} ReportPartition(vs: seq<Verdict>)
    ensures |IssuesOf(vs)| + |FactsOf(vs)| == |vs|
    ensures TallyOf(vs).accurate == |FactsOf(vs)| && TallyOf(vs).inaccurate == |IssuesOf(vs)|
    ensures TallyOf(vs).falseCount + TallyOf(vs).misleading + TallyOf(vs).unverified <= TallyOf(vs).inaccurate
    ensures TallyOf(vs).highSeverity == TallyOf(vs).falseCount
    decreases |vs|
  {
    if |vs| > 0 {
      ReportPartition(vs[..|vs| - 1]);
    }
  }

  /** An issue is high-severity exactly when it is a factual error. */
  lemma HighSeverityIffFactualError(t: string)
    ensures Severity(t) == "high" <==> t == "factual_error"
    ensures TypeLabel(t) == "Factual Error" <==> t == "factual_error"
  {
  }

  /**
   * An issue type outside the five known ones is labelled "Unverified" but keeps
   * the medium severity, unlike a genuine "unverified" issue, and is counted in no bucket.
   */
  lemma UnknownIssueType(t: string)
    requires t != "factual_error" && !IsMisleadingType(t) && t != "unverified"
    ensures TypeLabel(t) == "Unverified" && Severity(t) == "medium"
    ensures TypeLabel("unverified") == "Unverified" && Severity("unverified") == "low"
  {
  }

  lemma RoundDivAtMost(n: nat, d: nat, k: nat)
    requires d > 0 && n <= k * d
    ensures RoundDiv(n, d) <= k
  {
    var q := RoundDiv(n, d);
    DivBetween(2 * n + d, 2 * d, q);
    assert (2 * d) * q <= 2 * n + d;
    assert (2 * d) * k + d >= 2 * n + d;
    assert (2 * d) * q == (2 * d) * k + (2 * d) * (q - k);
    if q >= k + 1 {
      MulAtLeastFactor(2 * d, q - k);
    }
  }

  /** `round(k * d / d)` is `k`. */
  lemma RoundDivExact(k: nat, d: nat)
    requires d > 0
    ensures RoundDiv(k * d, d) == k
  {
    assert 2 * (k * d) + d == (2 * d) * k + d;
    DivBetween(2 * (k * d) + d, 2 * d, k);
  }

  /**
   * With one verdict per claim, the score is in 0..100 before clamping, so the
   * clamp changes nothing and the status is the status of the reported score.
   */
  lemma ScoreInRange(vs: seq<Verdict>)
    ensures 0 <= ScoreOf(vs, |vs|) <= 100
    ensures FinalReport(vs, |vs|).score == ScoreOf(vs, |vs|)
    ensures FinalReport(vs, |vs|).status == StatusFor(FinalReport(vs, |vs|).score)
  {
    var t := TallyOf(vs);
    ReportPartition(vs);
    if |vs| > 0 {
      assert 100 * t.accurate + 80 * t.unverified + 50 * t.misleading <= 100 * |vs|;
      RoundDivAtMost(100 * t.accurate + 80 * t.unverified + 50 * t.misleading, |vs|, 100);
    }
  }

  lemma {:induction false} AllAccurateTally(vs: seq<Verdict>)
    requires forall i :: 0 <= i < |vs| ==> Accurate(vs[i])
    ensures TallyOf(vs) == Tally(|vs|, 0, 0, 0, 0, 0)
    ensures IssuesOf(vs) == []
    decreases |vs|
  {
    if |vs| > 0 {
      AllAccurateTally(vs[..|vs| - 1]);
    }
  }

  /** When every claim is verified accurate the article scores 100, "Verified", with no issues. */
  lemma AllAccurateIsVerified(vs: seq<Verdict>)
    requires |vs| > 0
    requires forall i :: 0 <= i < |vs| ==> Accurate(vs[i])
    ensures FinalReport(vs, |vs|).score == 100 && FinalReport(vs, |vs|).status == "Verified"
    ensures FinalReport(vs, |vs|).issues == []
  {
    AllAccurateTally(vs);
    RoundDivExact(100, |vs|);
    assert 100 * |vs| == 100 * |vs| + 80 * 0 + 50 * 0;
  }

  lemma {:induction false} AllUnverifiedTally(vs: seq<Verdict>)
    requires forall i :: 0 <= i < |vs| ==> !Accurate(vs[i]) && IssueTypeOf(vs[i]) == "unverified"
    ensures TallyOf(vs) == Tally(0, |vs|, 0, 0, |vs|, 0)
    decreases |vs|
  {
    if |vs| > 0 {
      AllUnverifiedTally(vs[..|vs| - 1]);
    }
  }

  /** Verdicts that are all unverified score 80, "Needs Review", with one low-severity issue each. */
  lemma AllUnverifiedReport(vs: seq<Verdict>)
    requires |vs| > 0
    requires forall i :: 0 <= i < |vs| ==> !Accurate(vs[i]) && IssueTypeOf(vs[i]) == "unverified"
    ensures var r := FinalReport(vs, |vs|);
      r.score == 80 && r.status == "Needs Review" && |r.issues| == |vs| &&
      forall k :: 0 <= k < |r.issues| ==> r.issues[k].severity == "low"
  {
    AllUnverifiedTally(vs);
    ReportPartition(vs);
    UnverifiedIssuesAreLow(vs);
    RoundDivExact(80, |vs|);
    assert 100 * 0 + 80 * |vs| + 50 * 0 == 80 * |vs|;
  }

  /**
   * When no verification call succeeds, every claim (an empty one too) is reported as
   * unverified: the article scores 80, "Needs Review", with one low-severity issue per claim.
   */
  lemma AllCallsFailed(claims: seq<ClaimItem>, verification: nat -> Reply<Completion<Verdict>>, host: string -> Option<string>)
    requires |claims| > 0
    requires forall i :: 0 <= i < |claims| ==> !Decodes(verification(i))
    ensures var r := FinalReport(Verdicts(claims, verification, host), |claims|);
      r.score == 80 && r.status == "Needs Review" && |r.issues| == |claims| &&
      forall k :: 0 <= k < |r.issues| ==> r.issues[k].severity == "low"
  {
    var vs := Verdicts(claims, verification, host);
    forall i | 0 <= i < |vs|
      ensures !Accurate(vs[i]) && IssueTypeOf(vs[i]) == "unverified"
    {
      FailedCallIsUnverified(claims[i], verification(i), host);
    }
    AllUnverifiedReport(vs);
  }

  /**
   * A verification call that failed in any way (transport, HTTP status, missing
   * content, content that does not decode to a non-empty array) yields an
   * unverified, inaccurate verdict.
   */
  lemma FailedCallIsUnverified(item: ClaimItem, reply: Reply<Completion<Verdict>>, host: string -> Option<string>)
    requires !Decodes(reply)
    ensures var v := VerifySingleClaim(item, reply, host); !Accurate(v) && IssueTypeOf(v) == "unverified"
  {
  }

  lemma {:induction false} UnverifiedIssuesAreLow(vs: seq<Verdict>)
    requires forall i :: 0 <= i < |vs| ==> !Accurate(vs[i]) && IssueTypeOf(vs[i]) == "unverified"
    ensures forall k :: 0 <= k < |IssuesOf(vs)| ==> IssuesOf(vs)[k].severity == "low"
    decreases |vs|
  {
    if |vs| > 0 {
      UnverifiedIssuesAreLow(vs[..|vs| - 1]);
    }
  }

  /**
   * Only the model's own verdict can make a claim accurate: exactly when the reply
   * decoded, its `is_accurate` is truthy and it set a confidence other than "low".
   */
  lemma AccurateOnlyFromVerdict(item: ClaimItem, reply: Reply<Completion<Verdict>>, host: string -> Option<string>)
    ensures Accurate(VerifySingleClaim(item, reply, host)) <==>
      !Empty(item.claim.Or("")) && reply.Http? && reply.code == 200 && reply.body.message.Val? &&
      reply.body.message.v.decoded.Array? &&
      TruthyField(reply.body.message.v.decoded.fields.isAccurate) &&
      reply.body.message.v.decoded.fields.confidence.Val? &&
      reply.body.message.v.decoded.fields.confidence.v != "low"
  {
  }

  /**
   * The citations lead the merged sources: when they carry no duplicates, the
   * first five of them (all, if fewer) start the merged list.
   */
  lemma CitationsLead(citations: seq<Source>, sources: seq<Source>)
    requires |citations| > 0 && NoDuplicates(citations)
    ensures var r := MergeCitations(citations, Val(sources)).v;
      var n := if |citations| < 5 then |citations| else 5;
      n <= |r| && r[..n] == citations[..n]
  {
    DedupPrefix(citations, sources);
    DedupOfDistinct(citations);
  }

  /** At most twenty report sources, without duplicates; all of them when there are few and distinct. */
  lemma ReportSources(vs: seq<Verdict>, total: nat)
    ensures |FinalReport(vs, total).sources| <= 20 && NoDuplicates(FinalReport(vs, total).sources)
    ensures forall s :: s in FinalReport(vs, total).sources ==> s in AllSources(vs)
    ensures NoDuplicates(AllSources(vs)) && |AllSources(vs)| <= 20 ==> FinalReport(vs, total).sources == AllSources(vs)
  {
    TakeOfDistinct(Dedup(AllSources(vs)), 20);
    if NoDuplicates(AllSources(vs)) {
      DedupOfDistinct(AllSources(vs));
    }
  }

  /**
   * A verdict marked accurate with low confidence and an unknown issue type is an
   * issue that counts in no bucket: a one-claim article then scores 0, "False".
   */
  lemma UnknownTypeScoresZero()
    ensures var v := Verdict(Val("c"), Val(SBool(true)), Val("low"), Val("none"), Absent, Absent, Absent, Val([]));
      var r := FinalReport([v], 1);
      r.score == 0 && r.status == "False" && r.issues[0].typeLabel == "Unverified" && r.issues[0].severity == "medium"
  {
    var v := Verdict(Val("c"), Val(SBool(true)), Val("low"), Val("none"), Absent, Absent, Absent, Val([]));
    assert [v][..0] == [];
  }

  /**
   * Four claims: one accurate, one factual error, one unverified, one misleading.
   * (100 + 80 + 50 + 0) / 4 = 57.5 rounds to 58; the factual error costs 5: 53, "Multiple Errors".
   */
  lemma WorkedExample()
    ensures var vs := [
        Verdict(Val("a"), Val(SBool(true)), Val("high"), Absent, Absent, Absent, Absent, Val([])),
        Verdict(Val("b"), Val(SBool(false)), Val("high"), Val("factual_error"), Absent, Absent, Absent, Val([])),
        FailedVerdict("c", "API error during verification"),
        Verdict(Val("d"), Val(SBool(false)), Val("medium"), Val("misleading"), Absent, Absent, Absent, Val([]))];
      var r := FinalReport(vs, 4);
      r.score == 53 && r.status == "Multiple Errors" && |r.issues| == 3 && |r.verifiedFacts| == 1
  {
    var vs := [
        Verdict(Val("a"), Val(SBool(true)), Val("high"), Absent, Absent, Absent, Absent, Val([])),
        Verdict(Val("b"), Val(SBool(false)), Val("high"), Val("factual_error"), Absent, Absent, Absent, Val([])),
        FailedVerdict("c", "API error during verification"),
        Verdict(Val("d"), Val(SBool(false)), Val("medium"), Val("misleading"), Absent, Absent, Absent, Val([]))];
    assert vs[..3][..2][..1][..0] == [];
    assert vs[..3][..2][..1] == [vs[0]] && vs[..3][..2] == [vs[0], vs[1]];
    assert TallyOf([vs[0]]) == Tally(1, 0, 0, 0, 0, 0);
    assert TallyOf(vs[..2]) == Tally(1, 1, 1, 0, 0, 1);
    assert TallyOf(vs[..3]) == Tally(1, 2, 1, 0, 1, 1);
    assert TallyOf(vs) == Tally(1, 3, 1, 1, 1, 1);
    ReportPartition(vs);
  }
}
