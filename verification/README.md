# Facty Pro Editor, modelled in Dafny

Facty Pro Editor is a WordPress plugin that checks articles before they are published. For each post it runs a background fact-check job. The job sends the article to the Perplexity service, either in a single pass or claim by claim (the "multistep" analyzer). It can also run a heuristic SEO analysis and a readability/style analysis. It then stores the combined result as a row of the reports table. An editor can mark a report as verified. A verified post gets a badge in front of its content and ClaimReview structured data (schema.org) in its page head. The post editor's meta box shows the latest report.

The plugin also has a UK misinformation monitor. It collects false or misleading claims from three places: the Google Fact Check Tools API, the Full Fact RSS feed and a Perplexity search. It keeps them in a queue table with duplicate detection, drafts debunking articles for them, and lists them on an admin dashboard written in JavaScript.

This project models that logic and proves properties of it. There is one Dafny module per source file:

- `Multistep`: the per-claim analyzer. It covers claim extraction, verdict normalisation, and the compiled report with its weighted score, severity table, status ladder and source list.
- `Perplexity`: the single-pass analyzer. It covers reply normalisation, defaults, the score clamp and merging the citations.
- `Collector`: the claim sources and their filters, plus keyword categorisation.
- `Monitor`: the queue table, held as a class with a sequence of rows. It covers the insert rules (duplicate and similarity checks), cleanup, counting, filtered listing, dismissal and article generation.
- `Seo` and `Style`: the penalty ladders, the syllable counter and the score sums.
- `Article`: research replies, the appended Sources section, the headline (with `wp_trim_words` as `Article.TrimWords`), categories and the draft post.
- `Core`: options, badge ladders, the badge filter, and the verify/unverify actions on the reports table and post meta.
- `Schema`: the ClaimReview rating.
- `Scheduler`: the job-status store, held as a class over a map, and the fact-check handler's sequence of writes.
- `MetaBox`: the meta box's choices of notice, labels, score classes and issue sources.
- `Dashboard`: the pure helpers of the dashboard script and the markup of one claim row.

Two modules are shared by the others. `Php` holds the PHP built-ins the plugin relies on, modelled explicitly: `empty()`, `array_merge`, `array_unique`, `array_slice`, `round`, `intval`, `strtolower`, `stripos` and `trim`. `Service` holds the shapes of service replies and the handling of citations.

Where the code does things step by step, the model does too. The report compiler, the citation loops, the syllable counter, the queue table and the job store are methods with loop invariants, or classes whose fields the methods update. Each is proved against a function that states the result. Pure ladders and lookups are functions, and lemmas relate them to each other.

## Model

Some specification functions carry no contract of their own and are given meaning by the rows that use them: `Article.ArticleText` (the article text a research or article reply yields, stated by `Article.CallPerplexity` and `Article.ReplyFailures`), `Article.FirstHeading` (the first `# ` heading, stated by `Article.FindHeadline`, `Article.HeadlineOfArticle` and `Article.HeadingsSkipped`) and `Article.CategoryName` (the post category for a collector category, stated by `Article.CollectedCategoryNames`).

| member | source | states |
|---|---|---|
| Php.Merge | includes/class-facty-pro-perplexity.php:250-258 | `array_merge` of a default under one key: a key the decoded reply holds wins, even with null; a missing key gets the default |
| Php.Lower | includes/class-facty-pro-misinformation-collector.php:315 | `strtolower`: the same length, every character lower-cased on its own |
| Php.OccursImpliesContains | includes/class-facty-pro-misinformation-collector.php:318 | `strpos` finds every occurrence |
| Php.ContainsHasOccurrence | includes/class-facty-pro-misinformation-collector.php:318 | `strpos` finds a needle only where it occurs |
| Php.TrimEnds | includes/class-facty-pro-perplexity.php:227 | `trim` leaves no trim character at either end |
| Php.TrimIsInfix | includes/class-facty-pro-perplexity.php:227 | `trim` removes only trim characters at either end and keeps the rest in place |
| Php.SpaceRun | includes/class-facty-pro-misinformation-monitor.php:490 | the run of `\s` characters at the front is maximal |
| Php.NatToString | includes/class-facty-pro-misinformation-monitor.php:631 | a non-empty run of decimal digits |
| Php.NatToStringDigits | includes/class-facty-pro-misinformation-monitor.php:631 | the digits are the number's decimal value |
| Php.Take | includes/class-facty-pro-perplexity.php:268 | `array_slice($a, 0, $n)`: the first `n` elements, or all when there are fewer |
| Php.Slice | includes/class-facty-perplexity-multistep-analyzer.php:202 | `array_slice` with any length: a prefix, all of it for a large length, and a negative length drops that many from the end |
| Php.TakeOfDistinct | includes/class-facty-pro-perplexity.php:267-268 | a prefix of a list without duplicates has none either |
| Php.Dedup | includes/class-facty-pro-perplexity.php:267 | `array_unique`: no duplicates, exactly the same elements, never longer |
| Php.DedupOfDistinct | includes/class-facty-pro-perplexity.php:267 | a list without duplicates is kept as it is |
| Php.DedupPrefix | includes/class-facty-pro-perplexity.php:266-267 | first occurrences are kept: deduplicating a prefix gives a prefix of the result |
| Php.DigitRun | includes/class-facty-pro-perplexity.php:261 | the run of digits at the front is maximal |
| Php.Digits | includes/class-facty-pro-perplexity.php:261 | the digits `intval` reads: a prefix of the text, all decimal digits, and followed by no further digit |
| Php.IntVal | includes/class-facty-pro-perplexity.php:261 | `intval` of a falsy value (false, 0, 0.0, "" or "0") is 0 |
| Php.IntValOfString | includes/class-facty-pro-perplexity.php:261 | `intval` of a string is the string reading `StringIntVal` |
| Php.UnsignedStart | includes/class-facty-pro-perplexity.php:261 | a string that starts with a digit reads as the value of its leading digits |
| Php.DigitsNumberValue | includes/class-facty-pro-perplexity.php:261 | a string made only of digits reads as its full decimal value |
| Php.NoDigitsReadZero | includes/class-facty-pro-perplexity.php:261 | a string without any digit reads as 0 |
| Php.MinusNegates | includes/class-facty-pro-perplexity.php:261 | a minus sign in front of a number negates its reading |
| Php.FractionTruncated | includes/class-facty-pro-perplexity.php:261 | a decimal fraction such as "85.9" reads as its integer part, so a string score truncates like a float one |
| Php.DigitRunStops | includes/class-facty-pro-perplexity.php:261 | the digit run ends exactly where the first non-digit follows a run of digits |
| Php.Truncate | includes/class-facty-pro-perplexity.php:261 | `intval` of a float truncates toward zero |
| Php.NatIntValRoundTrip | includes/class-facty-pro-perplexity.php:261 | `intval` reads back the decimal rendering of a natural number |
| Php.NegIntValRoundTrip | includes/class-facty-pro-perplexity.php:261 | `intval` reads back a minus sign and digits |
| Php.IntValOfIntToString | includes/class-facty-pro-perplexity.php:261 | `intval` reads back the decimal rendering of any integer |
| Php.Round | includes/class-facty-perplexity-multistep-analyzer.php:487 | `round` goes to the nearest integer, halves away from zero |
| Php.RoundDivNearest | includes/class-facty-perplexity-multistep-analyzer.php:479-487 | the integer form of `round($n / $d)` is the nearest integer, halves up |
| Service.CitationSource | includes/class-facty-pro-perplexity.php:282-287 | a citation with a url becomes an entry with that url, credibility "high" and no date; the title is its own when it has one, otherwise the url's host, or null when the url has none |
| Service.Citations | includes/class-facty-pro-perplexity.php:280-290 | no more entries than citations, and every entry has a url and credibility "high" |
| Service.CitationsInOrder | includes/class-facty-pro-perplexity.php:280-290 | one entry per citation that has a url, in reply order: entry k is made from the k-th citation with a url |
| Service.CitationsKeepsEveryUrl | includes/class-facty-pro-perplexity.php:281-288 | every citation that has a url contributes its entry |
| Service.WithUrl | includes/class-facty-pro-article-generator.php:225-226 | the citations the numbered list can show: only those with a url, drawn from the reply's list |
| Service.ExtractCitations | includes/class-facty-pro-perplexity.php:277-293 | the loop over `citations` returns exactly `Citations` of the reply, or nothing when the reply has no citations list |
| Perplexity.ClampScore | includes/class-facty-pro-perplexity.php:261 | the score lies in 0..100; a score already in range is unchanged, and one out of range goes to the nearer bound |
| Perplexity.MergedSources | includes/class-facty-pro-perplexity.php:263-269 | with citations, the merged sources are distinct and at most twenty, each taken from the citations or from the report; without citations, the report's sources |
| Perplexity.CallPerplexityApi | includes/class-facty-pro-perplexity.php:182-272 | success exactly for an HTTP 200 reply with message content; the transport and HTTP error messages are built as the exceptions build them, and a reply without content fails with "Invalid API response format"; decoded content gives the normalised report with the reply's citations, and undecodable content the fallback report; a successful score lies in 0..100 |
| Perplexity.Analyze | includes/class-facty-pro-perplexity.php:22-52 | an empty key fails with "Perplexity API key not configured" and writes no update; otherwise the result is the API call's; with a job the updates rise strictly, and a success ends at 55 percent |
| Perplexity.ScoreKept | includes/class-facty-pro-perplexity.php:250-261 | a score in 0..100, given as a number or as its decimal string, is kept as it is |
| Perplexity.ScoreDefaults | includes/class-facty-pro-perplexity.php:250-261 | a missing or null score reads as 0, and a float is truncated (85.9 gives 85) |
| Perplexity.ParsedKeysWin | includes/class-facty-pro-perplexity.php:249-258 | every key the reply set (status, description, claims, issues, verified facts) is kept, even when its value is null, and a missing key gets its default; a null `sources` stays null, and a missing one becomes the citations merged into an empty list |
| Perplexity.NoCitationsKeepsSources | includes/class-facty-pro-perplexity.php:249-269 | with no citations the report's own sources are kept as they are, null included; a missing `sources` key reads as an empty list |
| Perplexity.Normalise | includes/class-facty-pro-perplexity.php:249-269 | the normalised report's score lies in 0..100; its sources are null exactly when the reply set them to null; with citations, a list of sources has no duplicates and at most twenty entries |
| Perplexity.CitationsLead | includes/class-facty-pro-perplexity.php:265-268 | distinct citations lead the merged list, in reply order, up to twenty |
| Perplexity.FallbackKeepsCitations | includes/class-facty-pro-perplexity.php:236-246 | content that is not a JSON object gives the fallback report (score 50) carrying the reply's citations, never an error |
| Multistep.ExtractClaims | includes/class-facty-perplexity-multistep-analyzer.php:109-203 | at most `maxClaims` claims; claims come only from an HTTP 200 reply whose content decodes to an object with a `claims` array |
| Multistep.ExtractClaimsKeepsOrder | includes/class-facty-perplexity-multistep-analyzer.php:196-202 | the claims kept are a prefix of the listed ones, all of them when there are few enough; a negative limit drops that many from the end (`array_slice` semantics) |
| Multistep.MergeCitations | includes/class-facty-perplexity-multistep-analyzer.php:360-365 | with citations and a `sources` key, the merged list is distinct, at most five, and drawn from the two lists; without citations or without a list of sources, the sources are left untouched |
| Multistep.VerifySingleClaim | includes/class-facty-perplexity-multistep-analyzer.php:208-377 | an empty claim gives the "Unknown claim" verdict; a transport error, a non-200 status, a missing message and content that does not decode to an array each give the unverified, inaccurate, low-confidence verdict with that failure's explanation; a decoded verdict gets the citations merged into its sources and then the defaults for its missing keys |
| Multistep.WithDefaults | includes/class-facty-perplexity-multistep-analyzer.php:366-375 | the defaults never touch the actual-facts and why-it-matters keys, which are kept as the reply gave them |
| Multistep.DefaultedKeys | includes/class-facty-perplexity-multistep-analyzer.php:366-375 | each of claim, accuracy, confidence, issue type, explanation and sources is the reply's own value when the reply set the key (null included) and the default otherwise |
| Multistep.CollectEntries | includes/class-facty-perplexity-multistep-analyzer.php:464-474 | the loop over one verdict's sources gives `EntriesOf`: the entries with a url, title defaulting to "Source" and credibility to "medium" |
| Multistep.PrefixStep | includes/class-facty-perplexity-multistep-analyzer.php:395-475 | one more verdict adds exactly its count, its issue or verified fact, and its source entries |
| Multistep.ComputeScore | includes/class-facty-perplexity-multistep-analyzer.php:479-495 | the score is the weighted average (100/80/50/0), rounded half up, less 5 per high-severity issue, floored at 0 |
| Multistep.CompileFinalReport | includes/class-facty-perplexity-multistep-analyzer.php:383-521 | the single pass over the verdicts returns `FinalReport` |
| Multistep.FinalReport | includes/class-facty-perplexity-multistep-analyzer.php:383-521 | the compiled report's score lies in 0..100, its mode is "multistep", and its sources are at most twenty distinct entries each taken from some verdict's sources |
| Multistep.Verdicts | includes/class-facty-perplexity-multistep-analyzer.php:82-93 | one verdict per claim, claim `i` verified with reply `i` |
| Multistep.ConcatOrdered | includes/class-facty-perplexity-multistep-analyzer.php:32-96 | two ordered runs of updates in adjacent ranges make one ordered run in the joint range |
| Multistep.Analyze | includes/class-facty-perplexity-multistep-analyzer.php:24-104 | an empty key fails with no update; satire gives the satire report; no claims gives 75 "Needs Review"; otherwise the compiled report; with a task id the updates are exactly those `analyze` writes (start, then satire, or extraction followed by the claim updates), within 10..100 and never going down |
| Multistep.AnalyzeClaims | includes/class-facty-perplexity-multistep-analyzer.php:62-103 | no claims gives the "Needs Review" report and leaves the updates as they were; otherwise `FinalReport` of the verdicts, and with a task id the updates so far are followed by "Found n claims" at 30, one update per claim and "Compiling" at 95; within 10..100 and never going down |
| Multistep.VerifyAndCompile | includes/class-facty-perplexity-multistep-analyzer.php:74-101 | the report is `FinalReport` of the verdicts; with a task id the updates are the per-claim updates followed by "Compiling" at 95; they stay within 30..100 and never go down |
| Multistep.VerifyAll | includes/class-facty-perplexity-multistep-analyzer.php:79-93 | the loop produces `Verdicts` of the claims and, with a task id, exactly the per-claim updates "Verifying claim i of n" at 30 + 60·i/n, within 30..90 and never going down |
| Multistep.VerifyUpdates | includes/class-facty-perplexity-multistep-analyzer.php:82-85 | one update per claim, the k-th at `VerifyPercent(k, n)` with message "Verifying claim k+1 of n..." |
| Multistep.VerifyPercentBounds | includes/class-facty-perplexity-multistep-analyzer.php:84 | the per-claim percentage lies in (30, 90] |
| Multistep.VerifyPercentMonotone | includes/class-facty-perplexity-multistep-analyzer.php:84 | the per-claim percentage never goes down from one claim to the next |
| Multistep.ReportPartition | includes/class-facty-perplexity-multistep-analyzer.php:395-461 | every verdict is either a verified fact or an issue; the counters count those lists; the high-severity count equals the false count |
| Multistep.HighSeverityIffFactualError | includes/class-facty-perplexity-multistep-analyzer.php:424-450 | severity "high" and the label "Factual Error" each hold exactly for `factual_error` |
| Multistep.UnknownIssueType | includes/class-facty-perplexity-multistep-analyzer.php:409-450 | an unknown issue type is labelled "Unverified" with medium severity, while a real "unverified" is low |
| Multistep.RoundDivAtMost | includes/class-facty-perplexity-multistep-analyzer.php:480-487 | a rounded average of values at most `k` is at most `k` |
| Multistep.RoundDivExact | includes/class-facty-perplexity-multistep-analyzer.php:480-487 | the rounded average of `k` taken `d` times is `k` |
| Multistep.ScoreInRange | includes/class-facty-perplexity-multistep-analyzer.php:477-519 | with one verdict per claim the score is in 0..100 before the clamp, so the clamp changes nothing and the status matches the reported score |
| Multistep.AllAccurateTally | includes/class-facty-perplexity-multistep-analyzer.php:395-405 | all-accurate verdicts count as accurate only and produce no issue |
| Multistep.AllAccurateIsVerified | includes/class-facty-perplexity-multistep-analyzer.php:395-520 | all claims accurate gives 100, "Verified", with no issues |
| Multistep.AllUnverifiedTally | includes/class-facty-perplexity-multistep-analyzer.php:406-421 | all-unverified verdicts count as inaccurate and unverified only |
| Multistep.AllUnverifiedReport | includes/class-facty-perplexity-multistep-analyzer.php:406-520 | all claims unverified gives 80, "Needs Review", with one issue each |
| Multistep.AllCallsFailed | includes/class-facty-perplexity-multistep-analyzer.php:302-356 | when no verification call decodes (transport error, HTTP error, missing content or unparsable content, in any mix), the article scores 80, "Needs Review", with one low-severity issue per claim |
| Multistep.FailedCallIsUnverified | includes/class-facty-perplexity-multistep-analyzer.php:302-356 | every way a verification call can fail gives an inaccurate verdict of type "unverified" |
| Multistep.UnverifiedIssuesAreLow | includes/class-facty-perplexity-multistep-analyzer.php:446-460 | the issues of unverified verdicts are all low severity |
| Multistep.AccurateOnlyFromVerdict | includes/class-facty-perplexity-multistep-analyzer.php:347-377 | a claim is accurate exactly when the reply decoded, its `is_accurate` is truthy and its confidence is set and not "low" |
| Multistep.CitationsLead | includes/class-facty-perplexity-multistep-analyzer.php:361-365 | distinct citations lead the merged sources, up to five |
| Multistep.ReportSources | includes/class-facty-perplexity-multistep-analyzer.php:463-519 | the report lists at most twenty distinct sources, all collected from the verdicts, and all of them when they are few and distinct |
| Multistep.UnknownTypeScoresZero | includes/class-facty-perplexity-multistep-analyzer.php:400-422 | an accurate-but-low-confidence verdict of an unknown type counts in no bucket, so a one-claim article scores 0, "False" |
| Multistep.WorkedExample | includes/class-facty-perplexity-multistep-analyzer.php:477-509 | one accurate, one factual error, one unverified and one misleading claim score 53, "Multiple Errors" |
| Collector.IsFalseOrMisleading | includes/class-facty-pro-misinformation-collector.php:309-324 | the loop answers true exactly when the lower-cased rating contains one of the nine false indicators |
| Collector.Categorize | includes/class-facty-pro-misinformation-collector.php:375-398 | the nested loop returns `CategoryOf`: the first topic, in table order, one of whose keywords occurs in the lower-cased text |
| Collector.FirstCategoryFromIsName | includes/class-facty-pro-misinformation-collector.php:389-397 | the search from any topic on returns one of the eight topic names or "uncategorized" |
| Collector.UncategorizedFrom | includes/class-facty-pro-misinformation-collector.php:389-397 | the search from a topic on returns "uncategorized" exactly when none of the remaining topics matches |
| Collector.CategoryIsKnown | includes/class-facty-pro-misinformation-collector.php:375-398 | every text is filed under one of the eight topics or "uncategorized" |
| Collector.UncategorizedIffNoKeyword | includes/class-facty-pro-misinformation-collector.php:389-397 | a text is "uncategorized" exactly when no keyword of any topic occurs in it |
| Collector.SubstringMatching | includes/class-facty-pro-misinformation-collector.php:380-392 | keywords match inside words: "story" contains "tory" and is filed under politics, ahead of health which it does not match |
| Collector.CollectFromGoogle | includes/class-facty-pro-misinformation-collector.php:58-118 | the loop returns the listed claims rated false or misleading, in order, each tagged `google_factcheck`; a failed request or a body without a `claims` array gives none |
| Collector.ClaimFromFullFact | includes/class-facty-pro-misinformation-collector.php:359-370 | at most 250 bytes: the title when the stripped description runs over 300 bytes, the stripped description otherwise |
| Collector.CollectFromFullFact | includes/class-facty-pro-misinformation-collector.php:123-187 | the loop returns the feed items dated within the last week, in order, each rated "False" by "Full Fact"; a failed request or an unparsable feed gives none |
| Collector.CollectFromPerplexity | includes/class-facty-pro-misinformation-collector.php:192-294 | the loop returns the listed items that have a `claim`, in order, rated "False" with category defaulting to "uncategorized"; a reply without content or with content that is not a list gives none |
| Collector.GoogleWellSourced | includes/class-facty-pro-misinformation-collector.php:85-107 | every Google claim kept is rated false or misleading and filed under a known category |
| Collector.FullFactWellSourced | includes/class-facty-pro-misinformation-collector.php:149-177 | every Full Fact claim is rated "False", tagged `full_fact_rss` and filed under a known category |
| Collector.SearchWellSourced | includes/class-facty-pro-misinformation-collector.php:264-282 | every search claim is rated "False" and tagged `perplexity_search` |
| Collector.CollectedAreWellSourced | includes/class-facty-pro-misinformation-collector.php:33-53 | every claim `collect_all` returns carries a source tag and a rating that fit the collector it came from |
| Collector.CollectAll | includes/class-facty-pro-misinformation-collector.php:33-53 | the result holds every Full Fact claim, every Google claim when the Google key is set and every search claim when the Perplexity key is set, and nothing else |
| Collector.UnratedIsDropped | includes/class-facty-pro-misinformation-collector.php:299-304 | a Google claim without a textual rating reads as "Unknown", which matches no false indicator, so it is never kept |
| Collector.WithoutKeysOnlyFullFact | includes/class-facty-pro-misinformation-collector.php:37-50 | with neither API key set, the result is exactly the Full Fact claims |
| Article.NumberedSnoc | includes/class-facty-pro-article-generator.php:224-229 | numbering one more entry appends its line with the next number |
| Article.SourceLinesNumbered | includes/class-facty-pro-article-generator.php:224-231 | the appended lines are exactly the citations with a url, numbered 1, 2, 3, ... in reply order; citations without a url take no number |
| Article.SourceLinesStep | includes/class-facty-pro-article-generator.php:225-230 | one turn of the loop appends the next line when the citation has a url and leaves the text as it is otherwise |
| Article.WithUrlStep | includes/class-facty-pro-article-generator.php:226-229 | the counter `$i` moves on exactly for citations with a url |
| Article.AppendSources | includes/class-facty-pro-article-generator.php:223-231 | the loop returns the content, the "## Sources" header and the numbered lines |
| Article.AppendEntry | includes/class-facty-pro-article-generator.php:225-230 | one turn of the loop: a citation with a URL adds its line under the next number, one without adds nothing |
| Article.CallPerplexity | includes/class-facty-pro-article-generator.php:195-234 | the call returns exactly `ArticleText` of the reply: an exception message or the trimmed content, with the Sources list appended when there are citations and no Sources heading |
| Article.ReplyFailures | includes/class-facty-pro-article-generator.php:195-210 | text comes back exactly for an HTTP 200 reply with content; a transport failure and a non-200 code give the exceptions' messages |
| Article.HeaderContainsHeading | includes/class-facty-pro-article-generator.php:222-223 | once the header is appended, the case-insensitive "## Sources" search finds it |
| Article.SourcesSectionOnce | includes/class-facty-pro-article-generator.php:213-234 | the article starts with the trimmed content, and with citations it always ends up holding a Sources heading (appended or already present) |
| Article.Lines | includes/class-facty-pro-article-generator.php:242 | `explode` gives at least one line and no line holds a newline |
| Article.JoinLines | includes/class-facty-pro-article-generator.php:242 | joining the lines with newlines gives the text back |
| Article.LinesFirst | includes/class-facty-pro-article-generator.php:242 | a first line without a newline is split off as it is |
| Article.Heading | includes/class-facty-pro-article-generator.php:247 | a match needs a `#`, then white space, then a non-empty capture |
| Article.FindHeadline | includes/class-facty-pro-article-generator.php:243-251 | the loop returns the trimmed capture of the first heading line, or "" when no line matches |
| Article.HeadingOfRendered | includes/class-facty-pro-article-generator.php:247-248 | a `# title` line gives its title back |
| Article.HeadlineOfArticle | includes/class-facty-pro-article-generator.php:246-251 | an article whose first line is `# title` takes the trimmed title as headline |
| Article.HeadingsSkipped | includes/class-facty-pro-article-generator.php:246-251 | lines before the first heading do not affect the headline |
| Article.WordLen | includes/class-facty-pro-article-generator.php:255 | the length of the leading word: no break inside, a break or the end after it |
| Article.Words | includes/class-facty-pro-article-generator.php:255 | every piece of the split is a non-empty word without white space |
| Article.WordsOfJoin | includes/class-facty-pro-article-generator.php:255 | splitting words joined by single spaces gives the words back |
| Article.TrimWordsKeepsShort | includes/class-facty-pro-article-generator.php:255 | a text of at most `n` words joined by single spaces is kept as it is (the headline uses ten) |
| Article.TrimWordsCutsLong | includes/class-facty-pro-article-generator.php:255 | a longer text keeps exactly its first `n` words, then the `more` marker |
| Article.Headline | includes/class-facty-pro-article-generator.php:246-256 | the first heading when there is one; otherwise "Fact Check: " followed by the claim text cut to ten words with "..." |
| Article.TrimWords | includes/class-facty-pro-article-generator.php:255 | a text of at most `n` words keeps its words; a longer one ends with the `more` marker and, before it, has exactly the first `n` words |
| Article.CollectedCategoryNames | includes/class-facty-pro-article-generator.php:350-363 | a category the collector assigns gets the generic "Fact Check" name exactly when it is "uncategorized" |
| Article.ClaimMeta | includes/class-facty-pro-article-generator.php:287-295 | the original claim is always recorded; the source url only when it is not empty |
| Article.GenerateArticle | includes/class-facty-pro-article-generator.php:24-41 | the three steps run in order and the first failure is the result: returns exactly `Generated` |
| Article.GeneratedIsDraft | includes/class-facty-pro-article-generator.php:24-41 | an empty key fails with "Perplexity API key not configured"; a post comes back exactly when both calls and the insert succeed; it is a draft of type post with the three tags, the claim recorded and the article as its text |
| Article.CreatePost | includes/class-facty-pro-article-generator.php:240-300 | a failed insert gives "Failed to create post: " and the error; otherwise a draft with the inserted id, the headline as title and the article as its markdown |
| Article.Generated | includes/class-facty-pro-article-generator.php:24-41 | an empty key fails with "Perplexity API key not configured"; a post comes back only when the article call succeeded, and it is the post created from that article |
| Monitor.Collapse | includes/class-facty-pro-misinformation-monitor.php:490 | every run of white space becomes one space: the result is empty exactly when the text is, starts with a space exactly when the text starts with white space, and has no white space but single spaces |
| Monitor.CollapseFixed | includes/class-facty-pro-misinformation-monitor.php:490 | text already collapsed is left as it is |
| Monitor.CollapsedSlice | includes/class-facty-pro-misinformation-monitor.php:490 | a slice of collapsed text is collapsed |
| Monitor.CollapsedLower | includes/class-facty-pro-misinformation-monitor.php:490 | lower-casing keeps text collapsed |
| Monitor.TrimNoop | includes/class-facty-pro-misinformation-monitor.php:490 | text with no white space at either end is not changed by `trim` |
| Monitor.NormalizeIdempotent | includes/class-facty-pro-misinformation-monitor.php:490 | normalising a normalised claim changes nothing, so a stored claim's text hashes to its own key again |
| Monitor.Normalize | includes/class-facty-pro-misinformation-monitor.php:490 | the normalised claim text holds no upper-case letter |
| Monitor.TrimmedCollapsed | includes/class-facty-pro-misinformation-monitor.php:490 | trimming collapsed text leaves it collapsed |
| Monitor.SimilarThreshold | includes/class-facty-pro-misinformation-monitor.php:558-560 | with the percentage rounded to two places, "more than 85" holds exactly from 85.005 on |
| Monitor.Filter | includes/class-facty-pro-misinformation-monitor.php:573-578 | a selection keeps only rows of the table that meet the criterion |
| Monitor.FilterComplete | includes/class-facty-pro-misinformation-monitor.php:573-578 | no row that meets the criterion is left out |
| Monitor.FilterDistinct | includes/class-facty-pro-misinformation-monitor.php:61-66 | a selection of a table with distinct ids and hashes has distinct ids and hashes |
| Monitor.Recent | includes/class-facty-pro-misinformation-monitor.php:509-517 | the fuzzy candidates: at most 50 rows discovered in the last 14 days whose category equals the claim's under the table's case-insensitive, space-padding collation |
| Monitor.Unpadded | includes/class-facty-pro-misinformation-monitor.php:48-71 | a prefix of the text that does not end in a space, and everything it drops is spaces: the text with its trailing spaces removed |
| Monitor.SameTextIff | includes/class-facty-pro-misinformation-monitor.php:48-71 | two texts compare equal in the table exactly when, without trailing spaces, they have the same length and agree letter by letter up to case |
| Monitor.CategoryCaseIgnored | includes/class-facty-pro-misinformation-monitor.php:509-517 | a claim filed under "Health " meets rows filed under "health" |
| Monitor.Store | includes/class-facty-pro-misinformation-monitor.php:486-552 | a claim is stored exactly when no row has its hash, no candidate is more than 85% similar, and each value fits its column; then one row is appended with the next id and status pending, otherwise the table is unchanged |
| Monitor.LongRatingRefused | includes/class-facty-pro-misinformation-monitor.php:53-57 | a claim whose rating exceeds the 50-character column is refused and leaves the table unchanged |
| Monitor.AppendRowValid | includes/class-facty-pro-misinformation-monitor.php:61-66 | appending a row with the next id and an unused hash keeps ids and hashes distinct |
| Monitor.StoreValid | includes/class-facty-pro-misinformation-monitor.php:486-552 | storing keeps the table's ids and hashes distinct |
| Monitor.OldDuplicateRefused | includes/class-facty-pro-misinformation-monitor.php:494-505 | an exact duplicate of a row older than 30 days is still refused, because the UNIQUE hash index rejects the insert |
| Monitor.RunStep | includes/class-facty-pro-misinformation-monitor.php:438-455 | one turn of the storing loop stores or refuses the claim and counts it |
| Monitor.CountClaim | includes/class-facty-pro-misinformation-monitor.php:439-454 | a stored claim adds one to the stored count and to its source's count, if it is one of the three; a refused one adds one to the duplicates |
| Monitor.RunNext | includes/class-facty-pro-misinformation-monitor.php:438-455 | storing the next claim extends the run by that claim's table and count |
| Monitor.RunTally | includes/class-facty-pro-misinformation-monitor.php:435-457 | stored plus duplicates is the number of claims; the per-source counts never exceed the stored count and equal it when every claim names a known source |
| Monitor.StoreStepGood | includes/class-facty-pro-misinformation-monitor.php:486-552 | `store_claim` keeps the table valid and either appends one row with the next id or changes nothing |
| Monitor.RunTable | includes/class-facty-pro-misinformation-monitor.php:438-455 | after the loop the old rows come first, one row and one id were added per stored claim, and the table is valid |
| Monitor.StoreAllSpec | includes/class-facty-pro-misinformation-monitor.php:426-469 | over the collected claims: the counts add up, every stored claim is counted under its source, the old rows stay first and the table stays valid |
| Monitor.AllDuplicatesMessage | includes/class-facty-pro-misinformation-monitor.php:385-393 | the refresh message ends in "(all duplicates)" exactly when claims were found and none was stored |
| Monitor.InsertPerm | includes/class-facty-pro-misinformation-monitor.php:363 | inserting one row into the ordered list adds exactly that row |
| Monitor.InsertSorted | includes/class-facty-pro-misinformation-monitor.php:363 | inserting into a newest-first list keeps it newest first |
| Monitor.InsertBelow | includes/class-facty-pro-misinformation-monitor.php:363 | inserting a row no newer than a date into rows no newer than it gives rows no newer than it |
| Monitor.SortNewestSpec | includes/class-facty-pro-misinformation-monitor.php:363 | the ordering is newest first and a permutation of the rows |
| Monitor.TakeNewest | includes/class-facty-pro-misinformation-monitor.php:363-364 | the rows kept by the limit are newest first, come from the ordered rows, and are no older than any row left out |
| Monitor.QuerySpec | includes/class-facty-pro-misinformation-monitor.php:342-367 | the rows returned meet every non-empty filter, compared as the table's case-insensitive collation compares, come newest first, number the matching rows capped at the limit, and are never older than a matching row left out |
| Monitor.Query | includes/class-facty-pro-misinformation-monitor.php:342-367 | at most 50 rows without a limit, at most the limit with one, and none for a negative limit |
| Monitor.DashboardQueryBounded | includes/class-facty-pro-misinformation-monitor.php:324-331 | the dashboard's query returns at most 50 rows, and with no filter it returns 50 rows, or every row when there are fewer |
| Monitor.FilterAll | includes/class-facty-pro-misinformation-monitor.php:347-357 | a criterion every row meets selects the whole table |
| Monitor.StatsPartition | includes/class-facty-pro-misinformation-monitor.php:303-312 | the pending, generated and published counts together never exceed the total |
| Monitor.UpdatesTouchOnlyTarget | includes/class-facty-pro-misinformation-monitor.php:617-658 | the updates change only the row with that id, and only its status (and post id); ids and hashes stay distinct |
| Monitor.CleanupByStatus | includes/class-facty-pro-misinformation-monitor.php:567-585 | a dismissed claim older than 90 days is deleted; one with an article or published never is |
| Monitor.Find | includes/class-facty-pro-misinformation-monitor.php:600-603 | the row found has that id; no row is found only when none has it |
| Monitor.AnySimilar | includes/class-facty-pro-misinformation-monitor.php:519-525 | the loop finds a candidate exactly when one is more than 85% similar once rounded to two places |
| Monitor.Queue.StoreClaim | includes/class-facty-pro-misinformation-monitor.php:486-552 | the loop over the fuzzy candidates and the insert store exactly as `Store` says (duplicates, similar claims and over-long values refused) and keep the table valid |
| Monitor.Queue.CleanupOldClaims | includes/class-facty-pro-misinformation-monitor.php:567-585 | the expired pending and ignored rows are deleted, the rest stay in order, and the count deleted is returned |
| Monitor.Queue.StoreCollected | includes/class-facty-pro-misinformation-monitor.php:435-457 | the loop leaves the table and the counters that `StoreAll` gives for the collected claims, and the table valid |
| Monitor.Queue.CollectMisinformation | includes/class-facty-pro-misinformation-monitor.php:405-481 | cleanup, then every collected claim is stored in turn; the recorded summary is the found count with the loop's tallies |
| Monitor.Queue.RefreshClaims | includes/class-facty-pro-misinformation-monitor.php:372-400 | after the collection, the message is the one the recorded summary gives |
| Monitor.Queue.DismissClaim | includes/class-facty-pro-misinformation-monitor.php:642-665 | the row with that id is marked "ignored" and nothing else changes; the reply is "Claim dismissed" whether or not the row exists |
| Monitor.Queue.GenerateArticleFor | includes/class-facty-pro-misinformation-monitor.php:590-637 | an unknown id gives "Claim not found"; a failed generation gives its error and changes nothing; a post marks the row "article_generated" with its id |
| Monitor.Queue.MarkGenerated | includes/class-facty-pro-misinformation-monitor.php:617-626 | the claim's row gets status "article_generated" and the post id, no other row changes, and the table stays valid |
| Seo.MetaDescription | includes/class-facty-pro-seo-analyzer.php:40-41 | Yoast's description when it is not empty, else All in One SEO's, else ""; the result is empty exactly when both are |
| Seo.TitleSection | includes/class-facty-pro-seo-analyzer.php:79-123 | a title under 30 characters costs 10 and one over 70 costs 5, with one issue exactly when it costs something; a title without a power word gets one more recommendation |
| Seo.LongParagraphs | includes/class-facty-pro-seo-analyzer.php:156-164 | at most one count per paragraph |
| Seo.LongParagraphsPositive | includes/class-facty-pro-seo-analyzer.php:156-164 | the count is positive exactly when some paragraph has more than 150 words |
| Seo.CountLongParagraphs | includes/class-facty-pro-seo-analyzer.php:156-164 | the paragraph loop returns exactly the number of paragraphs over 150 words |
| Seo.ContentSection | includes/class-facty-pro-seo-analyzer.php:128-180 | under 300 words costs 20, under 600 costs 10; an issue is reported exactly when it costs something, at most two, each with its recommendation |
| Seo.ContentPenaltyAntitone | includes/class-facty-pro-seo-analyzer.php:137-153 | more words never cost more |
| Seo.MetaSection | includes/class-facty-pro-seo-analyzer.php:185-224 | an empty description costs 15, under 120 characters 8, over 170 characters 5; an issue exactly when it costs something |
| Seo.HeadingsSection | includes/class-facty-pro-seo-analyzer.php:229-267 | no H2 costs 15 and more than one H1 costs 8; issues exactly when it costs something |
| Seo.MissingAlt | includes/class-facty-pro-seo-analyzer.php:290-295 | at most one count per image |
| Seo.MissingAltPositive | includes/class-facty-pro-seo-analyzer.php:290-295 | the count is positive exactly when some image has no alt text |
| Seo.CountMissingAlt | includes/class-facty-pro-seo-analyzer.php:290-295 | the image loop returns exactly the number of images without alt text |
| Seo.ImagesSection | includes/class-facty-pro-seo-analyzer.php:272-313 | no image, or an image without alt text, costs 10; an issue exactly when it costs something |
| Seo.LinksSection | includes/class-facty-pro-seo-analyzer.php:318-342 | no link costs 8; an issue exactly when it costs something |
| Seo.Analyze | includes/class-facty-pro-seo-analyzer.php:22-74 | the six penalties are taken off in turn and the lists concatenated in section order, giving exactly `SeoReport`; the score lies in 11..100 |
| Seo.ScoreBounds | includes/class-facty-pro-seo-analyzer.php:24-66 | the penalties add up to at most 89, so the `max(0, ...)` floor is never reached and the score lies in 11..100 |
| Seo.PerfectIffNoIssues | includes/class-facty-pro-seo-analyzer.php:22-74 | a post scores 100 exactly when no section reports an issue |
| Seo.CombinePerfect | includes/class-facty-pro-seo-analyzer.php:22-66 | sections that report an issue exactly when they cost something combine into a score of 100 exactly when there is no issue |
| Seo.WorstScore | includes/class-facty-pro-seo-analyzer.php:22-74 | the bound 11 is reached, by a post that fails every check |
| Style.VowelRuns | includes/class-facty-pro-style-analyzer.php:121-129 | at most one run per character |
| Style.Syllables | includes/class-facty-pro-style-analyzer.php:117-137 | every word has at least one syllable |
| Style.VowelRunsBound | includes/class-facty-pro-style-analyzer.php:121-129 | runs are separated by a consonant, so a word has at most half its length, rounded up, of them |
| Style.VowelRunsAppend | includes/class-facty-pro-style-analyzer.php:121-129 | gluing two texts adds their runs, less one when a run spans the seam |
| Style.SyllablesBounds | includes/class-facty-pro-style-analyzer.php:117-137 | a word never has more syllables than letters (one for the empty word), and a word without vowels has exactly one |
| Style.CountSyllables | includes/class-facty-pro-style-analyzer.php:117-137 | the loop with its `previous_was_vowel` flag, the silent-e rule and the floor of one returns exactly `Syllables` |
| Style.TotalSyllables | includes/class-facty-pro-style-analyzer.php:85-87 | every word brings at least one syllable |
| Style.ComplexWords | includes/class-facty-pro-style-analyzer.php:304-309 | at most one count per word |
| Style.ComplexWordsSyllables | includes/class-facty-pro-style-analyzer.php:85-87 | every complex word brings at least three syllables and every other word at least one |
| Style.Flesch | includes/class-facty-pro-style-analyzer.php:91-97 | the Flesch Reading Ease score clamped to 0..100, and 0 without a sentence or a word |
| Style.Average | includes/class-facty-pro-style-analyzer.php:98-101 | a quotient that is 0 when the divisor is 0 and multiplies back otherwise |
| Style.MetricsOf | includes/class-facty-pro-style-analyzer.php:77-112 | the counts are the words', sentences' and syllables' own; without sentences the average length is 0, without words the averages and the score are 0 |
| Style.CalculateMetrics | includes/class-facty-pro-style-analyzer.php:77-112 | the syllable loop over the words returns exactly `MetricsOf` |
| Style.CountComplexWords | includes/class-facty-pro-style-analyzer.php:302-311 | the loop counts exactly the words of three syllables or more |
| Style.FleschSection | includes/class-facty-pro-style-analyzer.php:142-180 | under 30 costs 30, under 50 costs 20, under 60 costs 10, with an issue exactly when it costs; over 90 earns a suggestion of praise and nothing else |
| Style.FleschPenaltyAntitone | includes/class-facty-pro-style-analyzer.php:147-172 | a more readable text never costs more |
| Style.SentenceSection | includes/class-facty-pro-style-analyzer.php:185-209 | over 25 words per sentence costs 15 with an issue; over 20 costs 5 with a suggestion only |
| Style.PercentageAbove | includes/class-facty-pro-style-analyzer.php:235-237 | a percentage exceeds a bound exactly when the cross-multiplied counts do |
| Style.PassiveSection | includes/class-facty-pro-style-analyzer.php:214-256 | nothing without a sentence; a suggestion exactly when it costs, and an issue exactly for the penalty of 12 |
| Style.PassivePenalty | includes/class-facty-pro-style-analyzer.php:234-249 | the passive ladder in whole numbers: 12 above 15 per 100 sentences, 5 above 10, nothing without a sentence |
| Style.AdverbSection | includes/class-facty-pro-style-analyzer.php:261-291 | nothing without a word; the penalty is 0 or 8, with an issue and a suggestion exactly for 8 |
| Style.ComplexSection | includes/class-facty-pro-style-analyzer.php:296-332 | nothing without a word; the penalty is 0 or 10, with an issue and a suggestion exactly for 10 |
| Style.WordPenalties | includes/class-facty-pro-style-analyzer.php:272-326 | the adverb penalty applies above 5% and the complex-word penalty above 20%, stated in whole numbers |
| Style.Analyze | includes/class-facty-pro-style-analyzer.php:22-72 | the five penalties are taken off in turn and the lists concatenated in section order, giving exactly `StyleReport`; the score lies in 25..100 |
| Style.ScoreBounds | includes/class-facty-pro-style-analyzer.php:27-63 | the penalties add up to at most 75, so the `max(0, ...)` floor is never reached and the score lies in 25..100 |
| Style.IssuesCost | includes/class-facty-pro-style-analyzer.php:22-72 | a text with any issue scores below 100 |
| Style.IssuesCostCombine | includes/class-facty-pro-style-analyzer.php:22-63 | sections whose issues always cost something combine into a score below 100 whenever there is an issue |
| Style.EmptyText | includes/class-facty-pro-style-analyzer.php:22-72 | a text with no words or sentences scores 70: its Flesch score is 0 and nothing else costs anything |
| Core.LoadOptions | includes/class-facty-pro-core.php:28-43 | the keys are the defaults' and the saved ones; a saved value always wins and a key never saved keeps its default |
| Core.LoadOptionsStable | includes/class-facty-pro-core.php:28-43 | saving the loaded options and loading them again changes nothing |
| Core.ComponentsFor | includes/class-facty-pro-core.php:48-76 | the admin, meta box and Gutenberg parts exist exactly in the admin; the schema part exactly when `add_schema_markup` is on; the badge filter exactly when `show_frontend_badge` is on |
| Core.DefaultComponents | includes/class-facty-pro-core.php:29-76 | with nothing saved, schema and badge are both on; saving a false value for either turns it off |
| Core.BadgeClass | includes/class-facty-pro-core.php:300-305 | one of the four badge classes; "excellent" exactly from 90 and "poor" exactly below 60 |
| Core.StatusText | includes/class-facty-pro-core.php:310-315 | one of the four status texts; "Verified & Accurate" exactly from 90 and "Multiple Issues" exactly below 60 |
| Core.BadgeAndTextAgree | includes/class-facty-pro-core.php:300-315 | class and text use the same thresholds: two scores share a class exactly when they share a text, and the top and bottom bands correspond |
| Core.Latest | includes/class-facty-pro-core.php:287-295 | the row found belongs to the post (and is verified, when asked), and no such row is newer; none is found only when the post has no such row |
| Core.AddVerificationBadge | includes/class-facty-pro-core.php:105-139 | the content is kept; a badge is added exactly on a single view whose latest report is verified, with the class, text and score of that report |
| Core.NewerReportHidesBadge | includes/class-facty-pro-core.php:111-115 | a newer report that is not verified hides the badge, even when an older report of the post is verified |
| Core.MarkVerified | includes/class-facty-pro-core.php:224-234 | only rows with that id change: status "verified", the user and the time |
| Core.MarkUnverified | includes/class-facty-pro-core.php:262-272 | only rows with that id change: status "completed" and no verifier |
| Core.UnverifyUndoesVerify | includes/class-facty-pro-core.php:224-272 | unverifying after a verify of the same report leaves the rows as unverifying alone would |
| Core.UnverifiedMeta | includes/class-facty-pro-core.php:275-277 | exactly the post's three verification keys (flag, time, user) are removed; every other key keeps its value |
| Core.VerifiedMeta | includes/class-facty-pro-core.php:237-239 | the post gets the flag "1", the verification time and the user id as a decimal string; no key is dropped and every other key keeps its value |
| Core.UnverifyUndoesVerifyMeta | includes/class-facty-pro-core.php:236-277 | unverifying a post after verifying it leaves the same meta as unverifying it straight away |
| Core.Site.LatestReport | includes/class-facty-pro-core.php:287-295 | the latest report of the post, as `Latest` defines it |
| Core.Site.InsertReport | includes/class-facty-pro-action-scheduler.php:178-192 | the row is appended with the next id, unless a row of the same post and content hash exists, when nothing is stored and the id read is 0; the table stays valid |
| Core.InsertValid | facty-pro-editor.php:51-68 | an insert keeps report ids distinct and below the counter, and no two rows share a post and content hash |
| Core.InsertOutcome | includes/class-facty-pro-action-scheduler.php:178-192 | a refused insert stores nothing and gives id 0; an accepted one appends the row under a fresh, non-zero id |
| Core.RepeatInsertRefused | includes/class-facty-pro-action-scheduler.php:176-192 | inserting a report for the same post and content twice stores one row, and the second insert reads id 0 |
| Core.Site.UpdateMeta | includes/class-facty-pro-core.php:237-239 | one meta key is written and nothing else changes |
| Core.Site.VerifyPost | includes/class-facty-pro-core.php:211-244 | the report rows become `MarkVerified` and the three verification metas of the post are written |
| Core.Site.UnverifyPost | includes/class-facty-pro-core.php:249-282 | the report rows become `MarkUnverified` and the three verification metas of the post are deleted |
| Schema.RatingValue | includes/class-facty-pro-schema.php:51-52 | the rating lies in 1..5, and for a non-negative score it is the score over 20 rounded half up, below 30 it is 1 and from 90 it is 5 |
| Schema.RatingValueMonotone | includes/class-facty-pro-schema.php:51-52 | a higher score never gives a lower rating value |
| Schema.TruthRating | includes/class-facty-pro-schema.php:54-66 | one of the five truth ratings; "True" exactly from 95 and "False" exactly below 50 |
| Schema.TruthRatingMonotone | includes/class-facty-pro-schema.php:54-66 | a higher score never gives a lower truth rating |
| Schema.RatingsAgree | includes/class-facty-pro-schema.php:51-66 | the two scales agree at their ends: "True" is rated 5 and "False" at most 2 |
| Schema.Review | includes/class-facty-pro-schema.php:68-95 | the review's rating is the rating value out of 5 (worst 1) with the truth rating; it reviews the post's permalink and title |
| Schema.ClaimReviewFor | includes/class-facty-pro-schema.php:24-98 | a review exactly on a single view whose post has a truthy verified meta and a verified report; then the review of the latest verified report |
| Schema.VerifyShowsReview | includes/class-facty-pro-schema.php:24-98 | after the verify action on one of its reports, the post's single view carries a review |
| Schema.UnverifyHidesReview | includes/class-facty-pro-schema.php:32-34 | after the unverify action, the post's pages carry no review |
| Scheduler.JobId | includes/class-facty-pro-action-scheduler.php:18 | every job id starts with "facty_pro_" |
| Scheduler.Tagged | includes/class-facty-pro-action-scheduler.php:79-109 | each write of a sequence is recorded against its job, in order |
| Scheduler.TaggedSnoc | includes/class-facty-pro-action-scheduler.php:79-109 | one more write adds one more record at the end |
| Scheduler.TaggedAppend | includes/class-facty-pro-action-scheduler.php:79-109 | the records of two runs of writes are the records of each, in order |
| Scheduler.LastWriteWins | includes/class-facty-pro-action-scheduler.php:79-109 | a later `set_transient` to the same job replaces the earlier one |
| Scheduler.LoggedAppend | includes/class-facty-pro-action-scheduler.php:79-109 | two runs of writes to one job leave the log and records that one run of both leaves |
| Scheduler.JobStore.Put | includes/class-facty-pro-action-scheduler.php:79-84 | the job's record is replaced and the write is logged; other jobs are untouched |
| Scheduler.JobStore.ScheduleFactCheck | includes/class-facty-pro-action-scheduler.php:16-55 | a missing post writes nothing and gives no id; otherwise the job is queued under `JobId` and that id is returned |
| Scheduler.JobStore.JobStatus | includes/class-facty-pro-action-scheduler.php:60-73 | the stored record, or the "unknown" record (progress 0, "Job not found") for a job that is not there |
| Scheduler.JobStore.UpdateJobStatus | includes/class-facty-pro-action-scheduler.php:78-85 | the job's record becomes a processing record with that progress, stage and message |
| Scheduler.JobStore.CompleteJob | includes/class-facty-pro-action-scheduler.php:90-98 | the job's record becomes completed at 100 percent with the report id |
| Scheduler.JobStore.FailJob | includes/class-facty-pro-action-scheduler.php:103-110 | the job's record becomes failed at 0 percent with the message |
| Scheduler.OtherJobsUnchanged | includes/class-facty-pro-action-scheduler.php:78-110 | a write to one job leaves what every other job reads unchanged |
| Scheduler.Updates | includes/class-facty-pro-action-scheduler.php:136-137 | the analyzer's progress callbacks become processing records, one each, in order |
| Scheduler.ReportRowFor | includes/class-facty-pro-action-scheduler.php:160-190 | the saved row belongs to the post, is "completed" and unverified, carries the fact-check score, and the SEO and style scores only when those analyses are on (0 otherwise) |
| Scheduler.HandlerOutcome | includes/class-facty-pro-action-scheduler.php:116-205 | the first write is "starting"; the job ends completed with the given report id exactly when the post exists and the analysis succeeds; otherwise it ends failed with "Post not found" or the analysis's message |
| Scheduler.MissingKeyFails | includes/class-facty-pro-action-scheduler.php:121-137 | an empty API key fails the job right after the "Extracting content" update, with "Perplexity API key not configured" |
| Scheduler.SuccessProgress | includes/class-facty-pro-action-scheduler.php:121-199 | a successful run writes 5, 10, 15, 30, 55, 60, 75, 90 percent as processing records, then completes at 100 |
| Scheduler.SuccessWrites | includes/class-facty-pro-action-scheduler.php:121-199 | around an analysis that reported 15, 30 and 55 percent and succeeded, the nine writes and their percentages |
| Scheduler.ResearchShape | includes/class-facty-pro-action-scheduler.php:136-137 | the analysis writes no update, or 15 and 30, or 15, 30 and 55 percent, the last exactly when it succeeds |
| Scheduler.ProgressGrows | includes/class-facty-pro-action-scheduler.php:121-199 | before the final write every record is a processing one and the progress strictly rises |
| Scheduler.WritesGrow | includes/class-facty-pro-action-scheduler.php:121-203 | for any outcome of the shapes the analysis can return, the writes before the last are processing records with rising progress |
| Scheduler.SavedScores | includes/class-facty-pro-action-scheduler.php:168-171 | the saved fact-check score lies in 0..100, the SEO score in 11..100 and the readability score in 25..100 when those run, and both are 0 when they do not |
| Scheduler.WriteUpdates | includes/class-facty-pro-action-scheduler.php:137 | each progress callback of the analysis is logged in order, and the job is left on the last one (unchanged when there is none) |
| Scheduler.WriteResearch | includes/class-facty-pro-action-scheduler.php:133-137 | the "Extracting content" update, then the analysis's own updates; the job is left on the last of them |
| Scheduler.ExtractingThenUpdates | includes/class-facty-pro-action-scheduler.php:133-137 | the log and job record after "Extracting content" and the updates are those of the one combined run |
| Scheduler.SeoStep | includes/class-facty-pro-action-scheduler.php:141-146 | the SEO report exactly when SEO analysis is on, and none otherwise |
| Scheduler.StyleStep | includes/class-facty-pro-action-scheduler.php:150-155 | the style report exactly when style analysis is on, and none otherwise |
| Scheduler.StoreReport | includes/class-facty-pro-action-scheduler.php:160-197 | the row of `ReportRowFor` is inserted (or refused when the post's content is already reported), the id returned is `SavedId`, and the post's last report, last check and score metas are set either way |
| Scheduler.SaveReport | includes/class-facty-pro-action-scheduler.php:139-199 | the SEO, style and saving updates and the completed job are logged, the job ends completed with `SavedId` (0 for content already reported), and the site is `Saved` |
| Scheduler.RecheckKeepsOldReport | includes/class-facty-pro-action-scheduler.php:176-197 | rechecking unchanged content stores no row: the table keeps the old report, the last-report meta becomes "0", the score meta takes the new score, and the id is 0 |
| Scheduler.NewContentStored | includes/class-facty-pro-action-scheduler.php:176-197 | content not yet reported is stored as a new row under the next id, which the last-report meta records |
| Scheduler.FinishingWrites | includes/class-facty-pro-action-scheduler.php:139-199 | the four writes after the analysis are logged in order and leave the job completed |
| Scheduler.Finish | includes/class-facty-pro-action-scheduler.php:137-203 | an analysis error fails the job with its message and leaves the site as it was; a result saves the report as `Saved` says and completes the job with the id the insert gave |
| Scheduler.AnalysisSteps | includes/class-facty-pro-action-scheduler.php:130-203 | for a post that exists, the writes after "starting" are exactly `AnalysisWrites` with the id the insert gave, and the site ends as `SiteAfter` says |
| Scheduler.ProcessFactCheck | includes/class-facty-pro-action-scheduler.php:116-205 | the handler's writes are exactly `HandlerWrites` with the id the insert gave (0 when it was refused) and the job ends on the last of them; a missing post leaves the site unchanged, and otherwise the site ends as `SiteAfter` the analysis says |
| Scheduler.HandlePost | includes/class-facty-pro-action-scheduler.php:121-203 | for a post that exists, "starting" and then the analysis's writes with the id the insert gave, and the site as `SiteAfter` says |
| MetaBox.ScoreClass | includes/class-facty-pro-meta-box.php:331-336 | one of the four classes; "excellent" exactly from 85 and "poor" exactly below 50 |
| MetaBox.ScoreClassMonotone | includes/class-facty-pro-meta-box.php:331-336 | a higher score never gets a worse class |
| MetaBox.ScoreClassAtLeastBadge | includes/class-facty-pro-meta-box.php:331-336 | the meta box's bands (85/70/50) are more lenient than the front-end badge's (90/75/60): its class never ranks below the badge's |
| MetaBox.Lookup | includes/class-facty-pro-meta-box.php:228-243 | a key's value is the one stored under it, and null when the array has no such key |
| MetaBox.IndexOf | includes/class-facty-pro-meta-box.php:228-243 | a non-null lookup names an entry that holds that key and value |
| MetaBox.Values | includes/class-facty-pro-meta-box.php:235 | `foreach` visits an array's values in order and nothing of any other value |
| MetaBox.LinkOf | includes/class-facty-pro-meta-box.php:236-243 | an entry is listed exactly when it is an array with a url; the link text is its title when set, else its url |
| MetaBox.Links | includes/class-facty-pro-meta-box.php:235-248 | the links are those of the listed entries, every listed entry gives one, and there are no more links than entries |
| MetaBox.IssueSources | includes/class-facty-pro-meta-box.php:228-251 | the sources block is shown exactly when 'sources' or 'source' is non-empty; it lists the entries of 'sources' when that is non-empty, else the single 'source' |
| MetaBox.SourcesOverrideSource | includes/class-facty-pro-meta-box.php:229 | with a non-empty 'sources', adding a 'source' changes nothing |
| MetaBox.LookupAppend | includes/class-facty-pro-meta-box.php:229 | adding another key does not change a lookup |
| MetaBox.SingleSourceListed | includes/class-facty-pro-meta-box.php:229-243 | a single 'source' with a url is listed alone, under its title or else its url |
| MetaBox.PlainSourceShowsEmptyBlock | includes/class-facty-pro-meta-box.php:228-236 | a 'source' given as a plain string shows the sources block with no entry in it |
| MetaBox.Ucfirst | includes/class-facty-pro-meta-box.php:165 | the same length, with the first character upper-cased and the rest unchanged |
| MetaBox.LastChecked | includes/class-facty-pro-meta-box.php:130-139 | "Just now" exactly when the report is under a minute old |
| MetaBox.ActionFor | includes/class-facty-pro-meta-box.php:172-186 | the verify button exactly for a completed report and a user who may publish; the unverify button, with who verified it and when, exactly for a verified report |
| MetaBox.Render | includes/class-facty-pro-meta-box.php:83-187 | the configuration notice exactly without an API key; otherwise the button reads "Recheck Article" exactly when the post has a report, and the summary, of the latest report, is shown exactly then |
| MetaBox.NoKeyNoLookup | includes/class-facty-pro-meta-box.php:84-87 | without an API key the reports are never consulted |
| MetaBox.LatestAfterVerify | includes/class-facty-pro-meta-box.php:92-95 | the verify action keeps the latest report the latest one, now marked verified when it was the one verified |
| MetaBox.VerifyOffersRemoval | includes/class-facty-pro-meta-box.php:172-186 | once the latest report is verified, the meta box offers to remove the verification, naming who verified it and when |
| Dashboard.EscapeChar | assets/js/misinformation-dashboard.js:371-382 | a special character becomes an entity starting with "&"; any other character stays |
| Dashboard.EscapeHtml | assets/js/misinformation-dashboard.js:371-382 | the escaped text is never shorter and holds no `<`, `>`, `"` or `'` |
| Dashboard.EntityAt | assets/js/misinformation-dashboard.js:372-378 | an entity read at the front lies within the text |
| Dashboard.EntityOfEscape | assets/js/misinformation-dashboard.js:372-378 | an escaped character is read back as an entity exactly when it was special |
| Dashboard.UnescapeChar | assets/js/misinformation-dashboard.js:371-382 | one escaped character unescapes to itself, whatever follows |
| Dashboard.EscapeRoundTrip | assets/js/misinformation-dashboard.js:371-382 | unescaping the escaped text gives the text back, so escaping loses nothing |
| Dashboard.EscapeFixedIff | assets/js/misinformation-dashboard.js:371-382 | escaping leaves a text unchanged exactly when it has no special character |
| Dashboard.EscapeAppend | assets/js/misinformation-dashboard.js:379-381 | escaping works character by character: the escape of a concatenation is the concatenation of the escapes |
| Dashboard.Truncate | assets/js/misinformation-dashboard.js:155-156 | a text of at most 200 characters is kept; a longer one keeps its first 200 and gets "..." |
| Dashboard.TruncateCutsEntity | assets/js/misinformation-dashboard.js:154-156 | the cut counts escaped characters, so it can split an entity: 199 letters and an ampersand show as the letters, "&" and "..." |
| Dashboard.RatingClass | assets/js/misinformation-dashboard.js:403-412 | "false" exactly when the rating holds "false" or "fake" in any case; "misleading" exactly when it holds "misleading" and neither of those; otherwise "unverified" |
| Dashboard.RatingClassIgnoresCase | assets/js/misinformation-dashboard.js:403-404 | ratings that differ only in letter case get the same class |
| Dashboard.CollectedFalseShowsFalse | assets/js/misinformation-dashboard.js:403-407 | every Full Fact and search claim the collector stores shows with the "false" class |
| Dashboard.IncorrectCollected | assets/js/misinformation-dashboard.js:403-412 | a fact-check rated "Incorrect" passes the collector's false-or-misleading filter |
| Dashboard.IncorrectShowsUnverified | assets/js/misinformation-dashboard.js:403-412 | the rating "Incorrect" contains none of "false", "fake" and "misleading", so the dashboard shows it as unverified |
| Dashboard.LacksFirstLetter | assets/js/misinformation-dashboard.js:405-408 | a needle does not occur in a text that lacks its first letter |
| Dashboard.LabelOr | assets/js/misinformation-dashboard.js:400 | a known key with a non-empty label gives its label; an unknown key gives itself |
| Dashboard.StatusNameFallbackIff | assets/js/misinformation-dashboard.js:414-422 | a status is shown as its own text exactly when it is not one of the four known ones |
| Dashboard.CategoryNameFallbackIff | assets/js/misinformation-dashboard.js:388-401 | a category is shown as its own text exactly when it is not one of the nine known ones |
| Dashboard.CollectorCategoriesLabelled | assets/js/misinformation-dashboard.js:389-399 | the dashboard labels exactly the categories the collector files claims under |
| Dashboard.ReplaceAtFirstUnderscore | assets/js/misinformation-dashboard.js:175 | with a string pattern only the first underscore becomes a space; the rest of the text is kept |
| Dashboard.ReplaceWithoutUnderscore | assets/js/misinformation-dashboard.js:175 | a text without an underscore is unchanged |
| Dashboard.CapitalizeWords | assets/js/misinformation-dashboard.js:176 | a word character first in the text or after a non-word character is upper-cased; every other character stays |
| Dashboard.CapitalizeIdempotent | assets/js/misinformation-dashboard.js:176 | capitalising twice is capitalising once |
| Dashboard.CapitalizeTwoWords | assets/js/misinformation-dashboard.js:176 | two runs of word characters joined by a space are capitalised at their starts only |
| Dashboard.TwoPartLabel | assets/js/misinformation-dashboard.js:174-176 | a tag of two words joined by its first underscore shows as the two words capitalised, with a space |
| Dashboard.SearchSourceLabel | assets/js/misinformation-dashboard.js:174-176 | "perplexity_search" shows as "Perplexity Search" |
| Dashboard.GoogleSourceLabel | assets/js/misinformation-dashboard.js:174-176 | "google_factcheck" shows as "Google Factcheck" |
| Dashboard.RssSourceLabel | assets/js/misinformation-dashboard.js:174-176 | "full_fact_rss" shows as "Full Fact_rss": its second underscore stays, and the letter after it stays lower-case |
| Dashboard.OrElse | assets/js/misinformation-dashboard.js:158-161 | a set, non-empty value is kept; otherwise the fallback |
| Dashboard.Actions | assets/js/misinformation-dashboard.js:178-210 | generate exactly for pending; dismiss for pending, or for a generated claim with a post; view draft or view post exactly once there is a post, linking to its edit screen; the dismissed label exactly for ignored |
| Dashboard.RenderRow | assets/js/misinformation-dashboard.js:153-253 | the row shows the escaped, cut claim, the field defaults, their labels and rating class, a source link exactly when there is a url, and the actions for its status |
| Dashboard.MissingStatusIsPending | assets/js/misinformation-dashboard.js:161-187 | a claim with no status shows as pending and offers generate and dismiss |
| Dashboard.GeneratedOffersDraft | assets/js/misinformation-dashboard.js:188-198 | after an article is generated for a claim, its row reads "Draft Created", links to the draft's edit screen and can still be dismissed |
| Dashboard.DismissedShowsLabel | assets/js/misinformation-dashboard.js:207-210 | after a claim is dismissed, its row reads "Dismissed" and shows only the dismissed label |

## Behaviour taken from the code

In these places the model follows what the code does, even where the plugin's documented design describes something else.

- `Multistep.IssueOf`: an issue type outside the five known ones is kept as written. It is not turned into "unverified". It gets severity medium and label "Unverified", and it counts in no weighted bucket, so it adds 0 to the score.
- `Perplexity.CallPerplexityApi`: the single-pass analyzer raises an error on a transport failure, a non-200 status or a missing message content. It does not degrade to a report. Its score is `intval`'d (a float truncates) before the clamp; it is not rounded.
- `Multistep.EntriesOf`: report sources drop the `date` field before duplicates are removed. Two citations are therefore duplicates when their title, url and credibility agree.
- `Monitor.Queue.StoreClaim`: the `content_hash` column is UNIQUE. A claim whose hash was stored more than 30 days ago is rejected by the insert, so the 30-day duplicate window is permanent in effect.
- `Monitor.Queue.StoreClaim`: the 14-day similarity candidates are taken in table order (the query has no ORDER BY).
- `Monitor.Query`: a negative limit makes the query invalid, and the result is no rows.
- `Collector.Categorize`: keywords are matched as substrings of the lower-cased text, so "story" contains "tory" and is filed under politics.
- `Core.Site.VerifyPost`: verifying does not check that the report belongs to the given post.
- `Scheduler.SaveReport`: the fact-check score is stored as an integer column.
- `Scheduler.SaveReport`: the reports table's UNIQUE key on post and content hash refuses a report of content that was already reported. The job still completes, with report id 0, the post's last-report meta becomes "0" and its score meta takes the new score, while the table keeps the earlier report.
- `Monitor.Store`: a claim value longer than its column (rating over 50 characters, category or fact checker over 100, source over 255) makes wpdb refuse the insert, and the claim is counted as a duplicate.
- `Monitor.Recent`: category, status and source comparisons in the queue's queries follow the table's `_ci` collation, so "Health" and "health " are the same category.
- `Article.CreatePost`: when the category term cannot be created, the post gets no category.
- `Dashboard.RatingClass`: the dashboard classes a rating by "false", "fake" and "misleading" only, so a rating the collector accepted as "Incorrect" is shown as unverified.

## Left out

- HTTP requests to Perplexity, Google and Full Fact, and the prompt texts, are not modelled. Each reply is an input: a transport error, or a status code with optional decoded content and citations.
- JSON decoding, code-fence stripping, the satire regex, `strip_tags`, RSS parsing, `str_word_count` and the `preg_match_all` counts are given as inputs (decoded values, booleans, counts). They are text machinery outside the logic proved here.
- The JSON encoding of outputs, all HTML markup beyond the dashboard claim row's strings, and DOM handling are left out, because they are presentation only.
- `markdown_to_html` in the article generator is not modelled, because it is formatting only.
- Floating-point numbers are modelled as exact reals. Rounding artefacts of IEEE doubles (such as 3/20*100 evaluating just above 15) are not captured, nor is the number formatting inside messages.
- Style.Flesch: the Flesch formula is computed on exact reals from the given counts, so IEEE double evaluation is not modelled; the rounding of the displayed values to one and two decimals is modelled (`Style.MetricsOf`).
- `similar_text`, `sha256`, the URL host from `parse_url` and `human_time_diff` are parameters, because they are library algorithms outside the plugin.
- `time()`, `current_time` and `strtotime` are integer timestamp inputs; time zones are not modelled.
- The transient time-to-live (one hour), Action Scheduler and WP-Cron enqueueing, the cron schedule and unschedule hooks, `usleep` pacing, the admin menu and asset enqueueing are not modelled, because they are scheduling plumbing and have no logic to state.
- `ajax_start_fact_check`, `ajax_check_status` and `ajax_get_report` are not modelled. They are thin wrappers over `schedule_fact_check`, `get_job_status` and a single row lookup, and those are modelled.
- Nonce and capability checks are left out, except the publish capability the meta box consults.
- In the meta box's detailed report, only the issue-source selection is modelled. The issue texts, the verified facts and the SEO and style lists are plain markup.
- The misinformation queue table's `metadata` JSON column is not modelled.
- The Google collector's `array_rand` choice of query keyword is left out: the query is an input.
- Case mapping is ASCII only (`strtolower` on bytes); `toLowerCase` on non-ASCII characters is not modelled.
- Strings are sequences of characters with one character per byte, as PHP's byte strings are; multi-byte UTF-8 text, and so `mb_strlen` against `strlen` in the column-width checks, is not distinguished.
- Monitor.SameText: only the case-insensitive and space-padding parts of the `_ci` collation are modelled; accent folding and other Unicode equivalences are not, and neither is a site configured with a binary collation. Content hashes are compared exactly, since `sha256` digests are lower-case hex.
- Multistep.IssueOf: PHP's `switch` on `issue_type` compares loosely (`==`); the model compares strings exactly, which differs only for non-string values the reply is not modelled to hold.
- Php.Dedup: `array_unique(..., SORT_REGULAR)` compares elements loosely (`==`), so two sources whose fields differ only as numeric strings ("1" and "01") count as duplicates in PHP; the model compares them structurally.
- Dashboard.Truncate: JavaScript measures `length` and `substring` in UTF-16 code units, and the model counts characters; text outside the Basic Multilingual Plane is cut at a different place. `Dashboard.ClaimOf` hands the stored claim text on as characters, so the rows it builds are cut by characters too.
- Core.Latest: `ORDER BY created_at DESC LIMIT 1` leaves the order of rows with equal creation times to MySQL; the model chooses the first in table order, and its contract only promises a row with the greatest creation time.
- Php.StringIntVal: an exponent is not read. PHP 7.1 and later reads `intval("1e2")` as 100 and `intval("8.5e1")` as 85, where the model reads 1 and 8; this reaches the single-pass score clamp and the options read with `intval`. Without an exponent both agree, since a fraction is dropped either way (`Php.FractionTruncated`). The 64-bit saturation of very long digit strings is not modelled either.
- Perplexity.Normalise: the model follows PHP 7.4, where a null `sources` with citations makes `array_merge` warn and return null; on PHP 8 that call throws an uncaught TypeError instead. A `sources` value of another JSON type (a string, a number) is not represented.
- The dashboard's `currentFilters` UI state, JavaScript prototype keys in its lookup tables, and dates formatted by `toLocaleDateString` are left out.
- Dashboard.RenderRow: the markup inserts category, rating and source without escaping, and the model keeps that as written; only the claim text and the URLs pass through escaping.
- `includes/class-facty-pro-admin.php`, `includes/class-facty-pro-gutenberg.php` and `assets/js/editor.js` are not part of this model. Of `facty-pro-editor.php` only the reports table definition is used (its columns and `UNIQUE KEY post_content`, in `Core.ReportRow` and `Core.ValidReports`); its activation and loading code is not modelled.
