/**
 * The single-pass Perplexity analyser: one research call whose reply is the
 * whole report, normalised (defaults for missing keys, the score clamped to
 * 0..100, the reply's citations merged in front of the report's sources).
 */
module Perplexity {
  import opened Php
  import opened Service

  /** An element of `claims`, `issues` or `verified_facts`, passed through unchanged (its JSON text). */
  datatype Item = Item(json: string)

  /** The report as decoded from the model's reply. */
  datatype Parsed = Parsed(
    score: Field<Scalar>,
    status: Field<string>,
    description: Field<string>,
    claims: Field<seq<Item>>,
    issues: Field<seq<Item>>,
    verifiedFacts: Field<seq<Item>>,
    sources: Field<seq<Source>>)

  /** The report `call_perplexity_api` returns. */
  datatype Report = Report(
    score: int,
    status: Field<string>,
    description: Field<string>,
    claims: Field<seq<Item>>,
    issues: Field<seq<Item>>,
    verifiedFacts: Field<seq<Item>>,
    sources: Field<seq<Source>>)

  /** The report when the reply's content is not a JSON object: half marks, and the citations as sources. */
  function FallbackReport(citations: seq<Source>): Report {
    Report(50, Val("Analysis Incomplete"), Val("Analysis completed but response format was invalid."),
           Val([]), Val([]), Val([]), Val(citations))
  }

  function ClampScore(i: int): (r: int)
    ensures 0 <= r <= 100
    ensures 0 <= i <= 100 ==> r == i
    ensures i < 0 ==> r == 0
    ensures i > 100 ==> r == 100
  {
    if i > 100 then 100 else if i < 0 then 0 else i
  }

  /** The report's sources after the citations are merged in: distinct, at most twenty. */
  function MergedSources(citations: seq<Source>, sources: seq<Source>): (r: seq<Source>)
    ensures |citations| > 0 ==> |r| <= 20 && NoDuplicates(r)
    ensures forall s :: s in r ==> s in citations || s in sources
  {
    if |citations| > 0 then
      var d := Dedup(citations + sources);
      TakeOfDistinct(d, 20);
      Take(d, 20)
    else sources
  }

  /**
   * The normalisation of a decoded report: `array_merge` with the defaults, clamp,
   * citations. A `sources` key set to null stays null: on PHP 7 `array_merge`,
   * `array_unique`, `array_values` and `array_slice` given null warn and return null.
   */
  function Normalise(p: Parsed, citations: seq<Source>): (r: Report)
    ensures 0 <= r.score <= 100
    ensures r.sources.Null? <==> p.sources.Null?
    ensures r.sources.Val? && |citations| > 0 ==> |r.sources.v| <= 20 && NoDuplicates(r.sources.v)
  {
    Report(ClampScore(IntValField(p.score, 0)),
           Merge(p.status, "Unknown"), Merge(p.description, "No description provided"),
           Merge(p.claims, []), Merge(p.issues, []), Merge(p.verifiedFacts, []),
           match Merge(p.sources, []) case Val(s) => Val(MergedSources(citations, s)) case other => other)
  }

  /** `call_perplexity_api`: the report, or the message of the exception it throws. */
  function CallPerplexityApi(reply: Reply<Completion<Parsed>>, host: string -> Option<string>): (r: Result<Report, string>)
    ensures r.Ok? ==> 0 <= r.value.score <= 100
    ensures r.Ok? <==> reply.Http? && reply.code == 200 && reply.body.message.Val?
    ensures reply.TransportError? ==> r == Err("API request failed: " + reply.message)
    ensures reply.Http? && reply.code != 200 ==>
      r == Err("Perplexity API Error (" + IntToString(reply.code) + "): " + reply.body.errorMessage.Or("API request failed"))
    ensures reply.Http? && reply.code == 200 && !reply.body.message.Val? ==> r == Err("Invalid API response format")
    ensures reply.Http? && reply.code == 200 && reply.body.message.Val? && reply.body.message.v.decoded.Array? ==>
      r == Ok(Normalise(reply.body.message.v.decoded.fields, CitationsOf(reply.body, host)))
    ensures reply.Http? && reply.code == 200 && reply.body.message.Val? && !reply.body.message.v.decoded.Array? ==>
      r == Ok(FallbackReport(CitationsOf(reply.body, host)))
  {
    match reply
    case TransportError(m) => Err("API request failed: " + m)
    case Http(code, data) =>
      if code != 200 then
        Err("Perplexity API Error (" + IntToString(code) + "): " + data.errorMessage.Or("API request failed"))
      else if !data.message.Val? then Err("Invalid API response format")
      else match data.message.v.decoded
        case Array(p) => Ok(Normalise(p, CitationsOf(data, host)))
        case _ => Ok(FallbackReport(CitationsOf(data, host)))
  }

  /** What `analyze` produces: the result and the job updates written on the way. */
  datatype Outcome = Outcome(result: Result<Report, string>, updates: seq<Progress>)

  /** `analyze`: the key check, then the research call, with job updates at 15, 30 and 55 percent. */
  function Analyze(apiKey: string, hasJob: bool, reply: Reply<Completion<Parsed>>, host: string -> Option<string>): (o: Outcome)
    ensures Empty(apiKey) ==> o == Outcome(Err("Perplexity API key not configured"), [])
    ensures !Empty(apiKey) ==> o.result == CallPerplexityApi(reply, host)
    ensures !hasJob ==> o.updates == []
    ensures hasJob && o.result.Ok? ==> |o.updates| == 3 && o.updates[2].percent == 55.0
    ensures forall k :: 0 < k < |o.updates| ==> o.updates[k - 1].percent < o.updates[k].percent
  {
    if Empty(apiKey) then Outcome(Err("Perplexity API key not configured"), [])
    else
      var before := if hasJob then [Progress(15.0, "analyzing", "Starting deep research..."),
                                    Progress(30.0, "researching", "Researching claims with real-time sources...")] else [];
      var r := CallPerplexityApi(reply, host);
      if r.Err? then Outcome(r, before)
      else Outcome(r, before + (if hasJob then [Progress(55.0, "compiling", "Compiling detailed report...")] else []))
  }

  // ---------------------------------------------------------------------------
  // Properties

  /** A score the model gave within 0..100, as a number or as its decimal string, is kept as is. */
  lemma ScoreKept(p: Parsed, citations: seq<Source>, k: int)
    requires 0 <= k <= 100
    requires p.score == Val(SInt(k)) || p.score == Val(SStr(IntToString(k)))
    ensures Normalise(p, citations).score == k
  {
    IntValOfIntToString(k);
  }

  /** A missing or null score reads as 0; a float is truncated before the clamp. */
  lemma ScoreDefaults(p: Parsed, citations: seq<Source>)
    ensures (p.score.Absent? || p.score.Null?) ==> Normalise(p, citations).score == 0
    ensures p.score == Val(SFloat(85.9)) ==> Normalise(p, citations).score == 85
  {
  }

  /** Keys the reply set are kept, even when set to null; only missing keys get defaults. */
  lemma ParsedKeysWin(p: Parsed, citations: seq<Source>)
    ensures var r := Normalise(p, citations);
      (r.status == if p.status.Absent? then Val("Unknown") else p.status) &&
      (r.description == if p.description.Absent? then Val("No description provided") else p.description) &&
      (r.claims == if p.claims.Absent? then Val([]) else p.claims) &&
      (r.issues == if p.issues.Absent? then Val([]) else p.issues) &&
      (r.verifiedFacts == if p.verifiedFacts.Absent? then Val([]) else p.verifiedFacts) &&
      (p.sources.Null? ==> r.sources == Null) &&
      (p.sources.Absent? ==> r.sources == Val(MergedSources(citations, [])))
  {
  }

  /** Without citations the report's own sources are kept as they are, null included; a missing key reads as none. */
  lemma NoCitationsKeepsSources(p: Parsed)
    ensures Normalise(p, []).sources == if p.sources.Absent? then Val([]) else p.sources
  {
  }

  /**
   * With citations, they lead the merged list: distinct citations, up to twenty,
   * come first and in reply order.
   */
  lemma CitationsLead(citations: seq<Source>, sources: seq<Source>)
    requires |citations| > 0 && NoDuplicates(citations)
    ensures var r := MergedSources(citations, sources);
      var n := if |citations| < 20 then |citations| else 20;
      n <= |r| && r[..n] == citations[..n]
  {
    DedupPrefix(citations, sources);
    DedupOfDistinct(citations);
  }

  /** An undecodable report still keeps the reply's citations, and never fails. */
  lemma FallbackKeepsCitations(reply: Reply<Completion<Parsed>>, host: string -> Option<string>)
    requires reply.Http? && reply.code == 200 && reply.body.message.Val?
    requires !reply.body.message.v.decoded.Array?
    ensures CallPerplexityApi(reply, host) == Ok(FallbackReport(CitationsOf(reply.body, host)))
  {
  }
}
