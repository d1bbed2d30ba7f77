/**
 * The misinformation monitor's queue table, held in memory: rows in table
 * order with an auto-increment id and a UNIQUE content hash.  The model covers
 * the duplicate rules of `store_claim`, the 90-day cleanup, the counting of
 * `collect_misinformation`, the filtered and ordered `get_claims` query, the
 * dashboard statistics, and the status updates of dismiss and generate.
 * Times are integer timestamps in seconds; `sha256` and `similar_text` are
 * parameters.
 */
module Monitor {
  import opened Php
  import opened Service
  import Collector
  import Article

  const Day := 86400

  /** One row of `facty_misinformation_queue` (the `metadata` and timestamp columns are not modelled). */
  datatype Row = Row(
    id: nat,
    claimText: string,
    source: string,
    sourceUrl: string,
    category: string,
    rating: string,
    factChecker: string,
    discovered: int,
    region: string,
    status: string,
    contentHash: string,
    postId: Option<nat>)

  /** The table's rows and the next auto-increment value. */
  datatype Table = Table(rows: seq<Row>, nextId: nat)

  /** PRIMARY KEY (id) and UNIQUE (content_hash). */
  predicate DistinctKeys(rows: seq<Row>) {
    forall i, j :: 0 <= i < j < |rows| ==> rows[i].id != rows[j].id && rows[i].contentHash != rows[j].contentHash
  }

  predicate ValidTable(t: Table) {
    t.nextId >= 1 && DistinctKeys(t.rows) && forall r :: r in t.rows ==> 1 <= r.id < t.nextId
  }

  // ---------------------------------------------------------------------------
  // The dedup key: `strtolower(trim(preg_replace('/\s+/', ' ', $text)))`

  /** Text in which every `\s` character is a plain space and no two spaces are adjacent. */
  predicate Collapsed(t: string) {
    (forall i :: 0 <= i < |t| && IsSpace(t[i]) ==> t[i] == ' ') &&
    (forall i :: 0 <= i < |t| - 1 ==> !(t[i] == ' ' && t[i + 1] == ' '))
  }

  /** `preg_replace('/\s+/', ' ', $s)`: every run of whitespace becomes one space. */
  function Collapse(s: string): (r: string)
    ensures |r| > 0 <==> |s| > 0
    ensures |r| > 0 ==> (r[0] == ' ' <==> IsSpace(s[0]))
    ensures Collapsed(r)
    decreases |s|
  {
    if |s| == 0 then ""
    else if IsSpace(s[0]) then
      var rest := Collapse(s[SpaceRun(s)..]);
      assert rest == [] || rest[0] != ' ';
      " " + rest
    else [s[0]] + Collapse(s[1..])
  }

  /** Text already in collapsed form is left as it is. */
  lemma {:induction false} CollapseFixed(t: string)
    requires Collapsed(t)
    ensures Collapse(t) == t
    decreases |t|
  {
    if |t| > 0 {
      assert Collapsed(t[1..]);
      CollapseFixed(t[1..]);
      if IsSpace(t[0]) {
        assert |t| == 1 || !IsSpace(t[1]);
        assert SpaceRun(t) == 1;
      }
      assert t == [t[0]] + t[1..];
    }
  }

  lemma CollapsedSlice(t: string, a: int, b: int)
    requires Collapsed(t) && 0 <= a <= b <= |t|
    ensures Collapsed(t[a..b])
  {
    var u := t[a..b];
    assert forall i :: 0 <= i < |u| ==> u[i] == t[a + i];
  }

  lemma CollapsedLower(t: string)
    requires Collapsed(t)
    ensures Collapsed(Lower(t))
  {
  }

  lemma TrimNoop(s: string)
    requires s == [] || (!IsTrimChar(s[0]) && !IsTrimChar(s[|s| - 1]))
    ensures Trim(s) == s
  {
  }

  /** The normalised text the content hash is taken over. */
  function Normalize(text: string): (r: string)
    ensures forall i :: 0 <= i < |r| ==> !('A' <= r[i] <= 'Z')
  {
    Lower(Trim(Collapse(text)))
  }

  /** Normalising a normalised text changes nothing: the key of a key is the key. */
  lemma NormalizeIdempotent(text: string)
    ensures Normalize(Normalize(text)) == Normalize(text)
  {
    var t := Trim(Collapse(text));
    var n := Lower(t);
    assert Normalize(text) == n;
    TrimmedCollapsed(text);
    CollapsedLower(t);
    CollapseFixed(n);
    assert Collapse(n) == n;
    TrimEnds(Collapse(text));
    LowerKeepsEnds(t);
    TrimNoop(n);
    assert Trim(Collapse(n)) == n;
    LowerTwice(t);
  }

  /** Lowering keeps a text free of trim characters at its ends. */
  lemma LowerKeepsEnds(t: string)
    requires t == [] || (!IsTrimChar(t[0]) && !IsTrimChar(t[|t| - 1]))
    ensures var n := Lower(t); n == [] || (!IsTrimChar(n[0]) && !IsTrimChar(n[|n| - 1]))
  {
  }

  /** Lowering a lowered text changes nothing. */
  lemma LowerTwice(t: string)
    ensures Lower(Lower(t)) == Lower(t)
  {
    var n := Lower(t);
    assert forall i :: 0 <= i < |n| ==> Lower(n)[i] == n[i];
  }

  /** Trimming a collapsed text leaves it collapsed. */
  lemma TrimmedCollapsed(text: string)
    ensures Collapsed(Trim(Collapse(text)))
  {
    var c := Collapse(text);
    var l := TrimLeft(c);
    var t := Trim(c);
    assert t == TrimRight(l);
    TrimLeftSuffix(c);
    TrimRightPrefix(l);
    CollapsedSlice(c, |c| - |l|, |c|);
    CollapsedSlice(l, 0, |t|);
  }

  // ---------------------------------------------------------------------------
  // `calculate_similarity`: `round($percent, 2)`

  /** A percentage is "more than 85% similar" exactly from 85.005 on, because of the rounding. */
  lemma SimilarThreshold(p: real)
    requires p >= 0.0
    ensures RoundTo(p, 100.0) > 85.0 <==> p >= 85.005
  {
    var i := Round(p * 100.0);
    assert RoundTo(p, 100.0) > 85.0 <==> i > 8500;
  }

  // ---------------------------------------------------------------------------
  // Row selections

  /** The text without its trailing spaces. */
  function Unpadded(s: string): (r: string)
    ensures |r| <= |s| && r == s[..|r|]
    ensures r == [] || r[|r| - 1] != ' '
    ensures forall k :: |r| <= k < |s| ==> s[k] == ' '
    decreases |s|
  {
    if |s| > 0 && s[|s| - 1] == ' ' then Unpadded(s[..|s| - 1]) else s
  }

  /**
   * `=` on a text column of the table, which is created with the site's `_ci`
   * collation (`utf8mb4_unicode_520_ci` by default): letter case does not count,
   * and neither do trailing spaces (the collation pads with spaces).
   */
  predicate SameText(a: string, b: string) {
    Lower(Unpadded(a)) == Lower(Unpadded(b))
  }

  /** Texts that differ only in letter case and trailing spaces compare equal. */
  lemma SameTextIff(a: string, b: string)
    ensures SameText(a, b) <==>
      |Unpadded(a)| == |Unpadded(b)| && forall i :: 0 <= i < |Unpadded(a)| ==> LowerChar(a[i]) == LowerChar(b[i])
  {
    var x, y := Unpadded(a), Unpadded(b);
    if |x| == |y| && forall i :: 0 <= i < |x| ==> LowerChar(a[i]) == LowerChar(b[i]) {
      assert forall i :: 0 <= i < |x| ==> x[i] == a[i] && y[i] == b[i];
      assert Lower(x) == Lower(y);
    }
    if SameText(a, b) {
      forall i | 0 <= i < |x| ensures LowerChar(a[i]) == LowerChar(b[i]) {
        assert Lower(x)[i] == Lower(y)[i];
      }
    }
  }

  /** A Perplexity-sourced category "Health " is the category "health" to the table. */
  lemma CategoryCaseIgnored()
    ensures SameText("Health ", "health")
  {
    assert Unpadded("Health ") == "Health" by {
      assert "Health "[..6] == "Health";
    }
    SameTextIff("Health ", "health");
  }

  /** The row selections the queries make. */
  datatype Criterion =
    | Survives(now: int)                                    // not deleted by cleanup_old_claims
    | RecentIn(category: string, since: int)                // the fuzzy-match candidates
    | Matches(status: string, category: string, source: string)  // get_claims' WHERE
    | HasStatus(wanted: string)                             // get_stats' counts

  /** `discovered_date < now - 90 days AND status IN ('pending', 'ignored')`. */
  predicate Expired(r: Row, now: int) {
    r.discovered < now - 90 * Day && (SameText(r.status, "pending") || SameText(r.status, "ignored"))
  }

  predicate Holds(c: Criterion, r: Row) {
    match c
    case Survives(now) => !Expired(r, now)
    case RecentIn(category, since) => r.discovered > since && SameText(r.category, category)
    case Matches(status, category, source) =>
      (Empty(status) || SameText(r.status, status)) && (Empty(category) || SameText(r.category, category)) &&
      (Empty(source) || SameText(r.source, source))
    case HasStatus(wanted) => SameText(r.status, wanted)
  }

  /** The rows that meet a criterion, in table order. */
  function Filter(rows: seq<Row>, c: Criterion): (r: seq<Row>)
    ensures |r| <= |rows|
    ensures forall x :: x in r ==> x in rows && Holds(c, x)
    decreases |rows|
  {
    if |rows| == 0 then []
    else
      var init := Filter(rows[..|rows| - 1], c);
      if Holds(c, rows[|rows| - 1]) then init + [rows[|rows| - 1]] else init
  }

  /** No row that meets the criterion is left out. */
  lemma {:induction false} FilterComplete(rows: seq<Row>, c: Criterion, x: Row)
    requires x in rows && Holds(c, x)
    ensures x in Filter(rows, c)
    decreases |rows|
  {
    if x != rows[|rows| - 1] {
      assert rows == rows[..|rows| - 1] + [rows[|rows| - 1]];
      FilterComplete(rows[..|rows| - 1], c, x);
    }
  }

  /** A selection of a table with distinct keys has distinct keys. */
  lemma {:induction false} FilterDistinct(rows: seq<Row>, c: Criterion)
    requires DistinctKeys(rows)
    ensures DistinctKeys(Filter(rows, c))
    decreases |rows|
  {
    if |rows| > 0 {
      var init := rows[..|rows| - 1];
      var last := rows[|rows| - 1];
      assert DistinctKeys(init);
      FilterDistinct(init, c);
      if Holds(c, last) {
        var f := Filter(init, c);
        forall x | x in f
          ensures x.id != last.id && x.contentHash != last.contentHash
        {
          var j :| 0 <= j < |init| && init[j] == x;
          assert rows[j] == x;
        }
        var g := f + [last];
        forall i, j | 0 <= i < j < |g|
          ensures g[i].id != g[j].id && g[i].contentHash != g[j].contentHash
        {
          if j == |g| - 1 {
            assert g[i] in f;
          } else {
            assert g[i] == f[i] && g[j] == f[j];
          }
        }
      }
    }
  }

  // ---------------------------------------------------------------------------
  // `store_claim`

  /** A row with this hash discovered after `since` (the 30-day exact-duplicate query). */
  predicate HashSince(rows: seq<Row>, h: string, since: int) {
    exists i :: 0 <= i < |rows| && rows[i].contentHash == h && rows[i].discovered > since
  }

  /** A row with this hash at all: the UNIQUE index then refuses the insert. */
  predicate HashTaken(rows: seq<Row>, h: string) {
    exists i :: 0 <= i < |rows| && rows[i].contentHash == h
  }

  /** The candidates of the fuzzy check: at most 50 same-category rows from after `since`, in table order. */
  function Recent(rows: seq<Row>, category: string, since: int): (r: seq<Row>)
    ensures |r| <= 50
    ensures forall x :: x in r ==> x in rows && SameText(x.category, category) && x.discovered > since
  {
    Take(Filter(rows, RecentIn(category, since)), 50)
  }

  /** Whether some candidate is more than 85% similar to the normalised claim. */
  predicate SimilarAmong(norm: string, recent: seq<Row>, similarity: (string, string) -> real) {
    exists i :: 0 <= i < |recent| && RoundTo(similarity(norm, Lower(recent[i].claimText)), 100.0) > 85.0
  }

  /** The loop of `store_claim` over the fuzzy-match candidates: whether one is more than 85% similar. */
  method AnySimilar(norm: string, recent: seq<Row>, similarity: (string, string) -> real) returns (found: bool)
    ensures found == SimilarAmong(norm, recent, similarity)
  {
    var k := 0;
    while k < |recent|
      invariant 0 <= k <= |recent|
      invariant forall j :: 0 <= j < k ==> RoundTo(similarity(norm, Lower(recent[j].claimText)), 100.0) <= 85.0
    {
      if RoundTo(similarity(norm, Lower(recent[k].claimText)), 100.0) > 85.0 {
        return true;
      }
      k := k + 1;
    }
    return false;
  }

  /**
   * The claim's values fit their columns: `claim_text` and `source_url` are TEXT
   * (65535 bytes), `source` VARCHAR(255), `category` and `fact_checker`
   * VARCHAR(100), `rating` VARCHAR(50). wpdb refuses an insert with a longer
   * value, and `store_claim` then reports the claim as not stored.
   */
  predicate FitsColumns(c: Collector.CollectedClaim) {
    |c.claimText| <= 65535 && |c.sourceUrl| <= 65535 && |c.source| <= 255 &&
    |c.category| <= 100 && |c.factChecker| <= 100 && |c.rating| <= 50
  }

  /** The row inserted for an accepted claim: discovered now, region UK, status pending, no post. */
  function NewRow(id: nat, c: Collector.CollectedClaim, now: int, h: string): Row {
    Row(id, c.claimText, c.source, c.sourceUrl, c.category, c.rating, c.factChecker, now, "UK", "pending", h, None)
  }

  /**
   * `store_claim`: the new table and whether the claim was stored. A claim is
   * refused when its hash is in the table (within 30 days by the query, at any
   * age by the UNIQUE index), when a recent same-category row is too similar, or
   * when one of its values is too long for its column.
   */
  function Store(t: Table, c: Collector.CollectedClaim, now: int, hash: string -> string,
                 similarity: (string, string) -> real): (res: (Table, bool))
    ensures var norm := Normalize(c.claimText);
      res.1 <==> !HashTaken(t.rows, hash(norm)) &&
                 !SimilarAmong(norm, Recent(t.rows, c.category, now - 14 * Day), similarity) &&
                 FitsColumns(c)
    ensures res.1 ==> res.0 == Table(t.rows + [NewRow(t.nextId, c, now, hash(Normalize(c.claimText)))], t.nextId + 1)
    ensures !res.1 ==> res.0 == t
  {
    var norm := Normalize(c.claimText);
    var h := hash(norm);
    if HashSince(t.rows, h, now - 30 * Day) then (t, false)
    else if SimilarAmong(norm, Recent(t.rows, c.category, now - 14 * Day), similarity) then (t, false)
    else if HashTaken(t.rows, h) || !FitsColumns(c) then (t, false)
    else
      (Table(t.rows + [NewRow(t.nextId, c, now, h)], t.nextId + 1), true)
  }

  /** Appending a row with a fresh id and an unused hash keeps the keys distinct. */
  lemma AppendRowValid(t: Table, row: Row)
    requires ValidTable(t) && row.id == t.nextId && !HashTaken(t.rows, row.contentHash)
    ensures ValidTable(Table(t.rows + [row], t.nextId + 1))
  {
    var rows := t.rows + [row];
    forall i, j | 0 <= i < j < |rows|
      ensures rows[i].id != rows[j].id && rows[i].contentHash != rows[j].contentHash
    {
      assert rows[i] == t.rows[i] && t.rows[i] in t.rows;
      if j < |t.rows| {
        assert rows[j] == t.rows[j];
      }
    }
    forall x | x in rows ensures 1 <= x.id < t.nextId + 1 {
      if x != row {
        assert x in t.rows;
      }
    }
  }

  /** Storing keeps the table's keys distinct. */
  lemma StoreValid(t: Table, c: Collector.CollectedClaim, now: int, hash: string -> string,
                   similarity: (string, string) -> real)
    requires ValidTable(t)
    ensures ValidTable(Store(t, c, now, hash, similarity).0)
  {
    var res := Store(t, c, now, hash, similarity);
    if res.1 {
      AppendRowValid(t, NewRow(t.nextId, c, now, hash(Normalize(c.claimText))));
    }
  }

  /** An exact duplicate older than 30 days is still refused while its row is in the table. */
  lemma OldDuplicateRefused(t: Table, c: Collector.CollectedClaim, now: int, hash: string -> string,
                            similarity: (string, string) -> real, i: int)
    requires 0 <= i < |t.rows| && t.rows[i].contentHash == hash(Normalize(c.claimText))
    requires t.rows[i].discovered <= now - 30 * Day
    ensures !Store(t, c, now, hash, similarity).1
    ensures Store(t, c, now, hash, similarity).0 == t
  {
  }

  /** A claim whose rating is longer than its 50-character column is never stored, however new it is. */
  lemma LongRatingRefused(t: Table, c: Collector.CollectedClaim, now: int, hash: string -> string,
                          similarity: (string, string) -> real)
    requires |c.rating| > 50
    ensures !Store(t, c, now, hash, similarity).1
    ensures Store(t, c, now, hash, similarity).0 == t
  {
  }

  // ---------------------------------------------------------------------------
  // `collect_misinformation`

  /** The counters of one collection run. */
  datatype Tally = Tally(stored: nat, duplicates: nat, google: nat, fullFact: nat, perplexity: nat)

  /** One turn of the storing loop: a stored claim counts once, and in its source's bucket. */
  function Counted(t: Tally, c: Collector.CollectedClaim, stored: bool): Tally {
    if !stored then t.(duplicates := t.duplicates + 1)
    else if c.source == "google_factcheck" then t.(stored := t.stored + 1, google := t.google + 1)
    else if c.source == "full_fact_rss" then t.(stored := t.stored + 1, fullFact := t.fullFact + 1)
    else if c.source == "perplexity_search" then t.(stored := t.stored + 1, perplexity := t.perplexity + 1)
    else t.(stored := t.stored + 1)
  }

  /** The counter updates of one turn of `collect_misinformation`'s loop. */
  method CountClaim(stored: nat, duplicates: nat, google: nat, fullFact: nat, perplexity: nat,
                    c: Collector.CollectedClaim, ok: bool)
    returns (stored': nat, duplicates': nat, google': nat, fullFact': nat, perplexity': nat)
    ensures Tally(stored', duplicates', google', fullFact', perplexity') ==
      Counted(Tally(stored, duplicates, google, fullFact, perplexity), c, ok)
  {
    stored', duplicates', google', fullFact', perplexity' := stored, duplicates, google, fullFact, perplexity;
    if ok {
      stored' := stored' + 1;
      if c.source == "google_factcheck" {
        google' := google' + 1;
      } else if c.source == "full_fact_rss" {
        fullFact' := fullFact' + 1;
      } else if c.source == "perplexity_search" {
        perplexity' := perplexity' + 1;
      }
    } else {
      duplicates' := duplicates' + 1;
    }
  }

  /** One storing step: the new table and whether the claim was stored. */
  type StepFn = (Table, Collector.CollectedClaim) -> (Table, bool)

  /** Running a storing step over the claims one after another, with the counters. */
  function Run(t0: Table, cs: seq<Collector.CollectedClaim>, step: StepFn): (Table, Tally)
    decreases |cs|
  {
    if |cs| == 0 then (t0, Tally(0, 0, 0, 0, 0))
    else
      var prev := Run(t0, cs[..|cs| - 1], step);
      var res := step(prev.0, cs[|cs| - 1]);
      (res.0, Counted(prev.1, cs[|cs| - 1], res.1))
  }

  lemma RunStep(t0: Table, cs: seq<Collector.CollectedClaim>, k: int, step: StepFn)
    requires 0 <= k < |cs|
    ensures var prev := Run(t0, cs[..k], step);
      var res := step(prev.0, cs[k]);
      Run(t0, cs[..k + 1], step) == (res.0, Counted(prev.1, cs[k], res.1))
  {
    assert cs[..k + 1][..k] == cs[..k];
  }

  /** `store_claim` as a step, for a fixed clock, hash and similarity. */
  function StoreStep(now: int, hash: string -> string, similarity: (string, string) -> real): StepFn {
    (t, c) => Store(t, c, now, hash, similarity)
  }

  /** One more claim through `store_claim`: the run grows by that step. */
  lemma RunNext(t0: Table, cs: seq<Collector.CollectedClaim>, k: int, now: int, hash: string -> string,
                similarity: (string, string) -> real, after: Table, ok: bool)
    requires 0 <= k < |cs|
    requires (after, ok) == Store(Run(t0, cs[..k], StoreStep(now, hash, similarity)).0, cs[k], now, hash, similarity)
    ensures Run(t0, cs[..k + 1], StoreStep(now, hash, similarity)) ==
      (after, Counted(Run(t0, cs[..k], StoreStep(now, hash, similarity)).1, cs[k], ok))
  {
    RunStep(t0, cs, k, StoreStep(now, hash, similarity));
  }

  /** `collect_misinformation`'s loop: storing the collected claims one after another. */
  function StoreAll(t0: Table, cs: seq<Collector.CollectedClaim>, now: int, hash: string -> string,
                    similarity: (string, string) -> real): (Table, Tally)
  {
    Run(t0, cs, StoreStep(now, hash, similarity))
  }

  /**
   * Every collected claim is either stored or counted as a duplicate; the
   * per-source buckets never exceed the stored count, and add up to it when
   * every claim comes from one of the three collectors.
   */
  lemma {:induction false} RunTally(t0: Table, cs: seq<Collector.CollectedClaim>, step: StepFn)
    ensures var tally := Run(t0, cs, step).1;
      tally.stored + tally.duplicates == |cs| &&
      tally.google + tally.fullFact + tally.perplexity <= tally.stored &&
      ((forall c :: c in cs ==> Collector.WellSourced(c)) ==>
        tally.google + tally.fullFact + tally.perplexity == tally.stored)
    decreases |cs|
  {
    if |cs| > 0 {
      var init := cs[..|cs| - 1];
      assert forall c :: c in init ==> c in cs;
      assert cs[|cs| - 1] in cs;
      RunTally(t0, init, step);
    }
  }

  /** A step that keeps a table valid and either appends one row or changes nothing. */
  ghost predicate GoodStep(step: StepFn) {
    forall t, c :: ValidTable(t) ==>
      var res := step(t, c);
      ValidTable(res.0) &&
      (res.1 ==> |res.0.rows| == |t.rows| + 1 && res.0.rows[..|t.rows|] == t.rows && res.0.nextId == t.nextId + 1) &&
      (!res.1 ==> res.0 == t)
  }

  lemma StoreStepGood(now: int, hash: string -> string, similarity: (string, string) -> real)
    ensures GoodStep(StoreStep(now, hash, similarity))
  {
    forall t, c | ValidTable(t) ensures
      var res := StoreStep(now, hash, similarity)(t, c);
      ValidTable(res.0) &&
      (res.1 ==> |res.0.rows| == |t.rows| + 1 && res.0.rows[..|t.rows|] == t.rows && res.0.nextId == t.nextId + 1) &&
      (!res.1 ==> res.0 == t)
    {
      StoreValid(t, c, now, hash, similarity);
      var res := Store(t, c, now, hash, similarity);
      if res.1 {
        assert res.0.rows[..|t.rows|] == t.rows;
      }
    }
  }

  /** The old rows stay first, one row is added per stored claim, and the table stays valid. */
  lemma {:induction false} RunTable(t0: Table, cs: seq<Collector.CollectedClaim>, step: StepFn)
    requires ValidTable(t0) && GoodStep(step)
    ensures var after := Run(t0, cs, step);
      |after.0.rows| == |t0.rows| + after.1.stored && after.0.rows[..|t0.rows|] == t0.rows &&
      after.0.nextId == t0.nextId + after.1.stored && ValidTable(after.0)
    decreases |cs|
  {
    if |cs| > 0 {
      var init := cs[..|cs| - 1];
      RunTable(t0, init, step);
      var before := Run(t0, init, step);
      var res := step(before.0, cs[|cs| - 1]);
      if res.1 {
        assert res.0.rows[..|t0.rows|] == before.0.rows[..|t0.rows|];
      }
    }
  }

  /** The properties of the storing loop, for `store_claim` itself. */
  lemma StoreAllSpec(t0: Table, cs: seq<Collector.CollectedClaim>, now: int, hash: string -> string,
                     similarity: (string, string) -> real)
    requires ValidTable(t0)
    ensures var after := StoreAll(t0, cs, now, hash, similarity);
      after.1.stored + after.1.duplicates == |cs| &&
      ((forall c :: c in cs ==> Collector.WellSourced(c)) ==>
        after.1.google + after.1.fullFact + after.1.perplexity == after.1.stored) &&
      |after.0.rows| == |t0.rows| + after.1.stored && after.0.rows[..|t0.rows|] == t0.rows &&
      ValidTable(after.0)
  {
    RunTally(t0, cs, StoreStep(now, hash, similarity));
    StoreStepGood(now, hash, similarity);
    RunTable(t0, cs, StoreStep(now, hash, similarity));
  }

  /** What `update_option('facty_pro_last_collection', ...)` holds for the refresh handler. */
  datatype LastCollection = NoRecord | Failed(error: string) | Collected(found: nat, tally: Tally)

  /** The message of `ajax_refresh_claims`. */
  function RefreshMessage(last: LastCollection): string {
    match last
    case NoRecord => "Collection completed"
    case Failed(e) => "Collection failed: " + e
    case Collected(found, tally) =>
      "Found " + NatToString(tally.stored) + " new claims" +
      (if tally.stored == 0 && found > 0 then " (all duplicates)" else "")
  }

  /** The message ends in "(all duplicates)" exactly when claims were found and none stored. */
  lemma AllDuplicatesMessage(found: nat, tally: Tally)
    ensures var m := RefreshMessage(Collected(found, tally));
      |m| > 0 && (m[|m| - 1] == ')' <==> tally.stored == 0 && found > 0)
  {
  }

  // ---------------------------------------------------------------------------
  // `get_claims` and `get_stats`

  /** Newest first by `discovered_date`. */
  predicate NewestFirst(s: seq<Row>) {
    forall i, j :: 0 <= i < j < |s| ==> s[i].discovered >= s[j].discovered
  }

  function Insert(x: Row, s: seq<Row>): (r: seq<Row>)
    decreases |s|
  {
    if |s| == 0 || x.discovered >= s[0].discovered then [x] + s else [s[0]] + Insert(x, s[1..])
  }

  lemma {:induction false} InsertPerm(x: Row, s: seq<Row>)
    ensures multiset(Insert(x, s)) == multiset(s) + multiset{x}
    ensures |Insert(x, s)| == |s| + 1
    decreases |s|
  {
    if |s| > 0 && x.discovered < s[0].discovered {
      InsertPerm(x, s[1..]);
      assert s == [s[0]] + s[1..];
    }
  }

  lemma {:induction false} InsertSorted(x: Row, s: seq<Row>)
    requires NewestFirst(s)
    ensures NewestFirst(Insert(x, s))
    decreases |s|
  {
    if |s| > 0 && x.discovered < s[0].discovered {
      var t := s[1..];
      var r := Insert(x, t);
      InsertSorted(x, t);
      forall k | 0 <= k < |t| ensures t[k].discovered <= s[0].discovered {
        assert t[k] == s[k + 1];
      }
      InsertBelow(x, t, s[0].discovered);
      var g := [s[0]] + r;
      assert Insert(x, s) == g;
      forall i, j | 0 <= i < j < |g| ensures g[i].discovered >= g[j].discovered {
        assert g[j] == r[j - 1];
        if i > 0 {
          assert g[i] == r[i - 1];
        }
      }
    }
  }

  /** Inserting a row no newer than a bound into rows no newer than it gives rows no newer than it. */
  lemma {:induction false} InsertBelow(x: Row, s: seq<Row>, d: int)
    requires x.discovered <= d
    requires forall k :: 0 <= k < |s| ==> s[k].discovered <= d
    ensures forall k :: 0 <= k < |Insert(x, s)| ==> Insert(x, s)[k].discovered <= d
    decreases |s|
  {
    if |s| > 0 && x.discovered < s[0].discovered {
      var t := s[1..];
      forall k | 0 <= k < |t| ensures t[k].discovered <= d {
        assert t[k] == s[k + 1];
      }
      InsertBelow(x, t, d);
      assert Insert(x, s) == [s[0]] + Insert(x, t);
    }
  }

  /** `ORDER BY discovered_date DESC`, with rows of the same date in table order. */
  function SortNewest(s: seq<Row>): seq<Row>
    decreases |s|
  {
    if |s| == 0 then [] else Insert(s[0], SortNewest(s[1..]))
  }

  lemma {:induction false} SortNewestSpec(s: seq<Row>)
    ensures NewestFirst(SortNewest(s))
    ensures multiset(SortNewest(s)) == multiset(s)
    decreases |s|
  {
    if |s| > 0 {
      SortNewestSpec(s[1..]);
      InsertSorted(s[0], SortNewest(s[1..]));
      InsertPerm(s[0], SortNewest(s[1..]));
      assert s == [s[0]] + s[1..];
    }
  }

  /** `get_claims`' filters; a limit that is not set is 50. */
  datatype ClaimFilter = ClaimFilter(status: string, category: string, source: string, limit: Option<int>)

  /** The rows `get_claims` returns; a negative LIMIT is a rejected query and returns no rows. */
  function Query(rows: seq<Row>, f: ClaimFilter): (r: seq<Row>)
    ensures f.limit.None? ==> |r| <= 50
    ensures f.limit.Some? ==> |r| <= if f.limit.value < 0 then 0 else f.limit.value
  {
    var limit := match f.limit case Some(n) => n case None => 50;
    if limit < 0 then [] else Take(SortNewest(Filter(rows, Matches(f.status, f.category, f.source))), limit)
  }

  /**
   * The query returns matching rows of the table only, newest first, as many as
   * the limit allows; a matching row that is left out is no newer than any row returned.
   */
  lemma QuerySpec(rows: seq<Row>, f: ClaimFilter)
    requires f.limit.None? || f.limit.value >= 0
    ensures var r := Query(rows, f);
      var matching := Filter(rows, Matches(f.status, f.category, f.source));
      var limit := match f.limit case Some(n) => n case None => 50;
      NewestFirst(r) &&
      (forall x :: x in r ==> x in rows && Holds(Matches(f.status, f.category, f.source), x)) &&
      |r| == (if |matching| <= limit then |matching| else limit) &&
      (forall x, y :: x in matching && x !in r && y in r ==> y.discovered >= x.discovered)
  {
    var matching := Filter(rows, Matches(f.status, f.category, f.source));
    var sorted := SortNewest(matching);
    SortNewestSpec(matching);
    var limit := match f.limit case Some(n) => n case None => 50;
    TakeNewest(sorted, limit);
    assert |sorted| == |matching| by {
      assert |multiset(sorted)| == |multiset(matching)|;
    }
    forall x | x in sorted ensures x in matching {
      assert x in multiset(sorted);
    }
    forall x | x in matching ensures x in sorted {
      assert x in multiset(matching);
    }
  }

  /** A prefix of a newest-first sequence is newest first and no older than what it leaves out. */
  lemma TakeNewest(sorted: seq<Row>, n: nat)
    requires NewestFirst(sorted)
    ensures var r := Take(sorted, n);
      NewestFirst(r) && (forall x :: x in r ==> x in sorted) &&
      (forall x, y :: x in sorted && x !in r && y in r ==> y.discovered >= x.discovered)
  {
    var r := Take(sorted, n);
    forall x, y | x in sorted && x !in r && y in r ensures y.discovered >= x.discovered {
      var j :| 0 <= j < |sorted| && sorted[j] == x;
      var i :| 0 <= i < |r| && r[i] == y;
      assert sorted[i] == y;
    }
  }

  /** `ajax_get_claims`: any filter but `status`, `category` and `source` is at its default, and the limit is 50. */
  lemma DashboardQueryBounded(rows: seq<Row>, status: string, category: string, source: string)
    ensures |Query(rows, ClaimFilter(status, category, source, Some(50)))| <= 50
    ensures Empty(status) && Empty(category) && Empty(source) ==>
      |Query(rows, ClaimFilter(status, category, source, Some(50)))| == (if |rows| <= 50 then |rows| else 50)
  {
    QuerySpec(rows, ClaimFilter(status, category, source, Some(50)));
    if Empty(status) && Empty(category) && Empty(source) {
      forall x | x in rows ensures x in Filter(rows, Matches(status, category, source)) {
        FilterComplete(rows, Matches(status, category, source), x);
      }
      FilterAll(rows, Matches(status, category, source));
    }
  }

  /** A criterion every row meets selects the whole table. */
  lemma {:induction false} FilterAll(rows: seq<Row>, c: Criterion)
    requires forall x :: x in rows ==> Holds(c, x)
    ensures Filter(rows, c) == rows
    decreases |rows|
  {
    if |rows| > 0 {
      var init, last := rows[..|rows| - 1], rows[|rows| - 1];
      assert rows == init + [last];
      forall x | x in init ensures Holds(c, x) {
        assert x in rows;
      }
      FilterAll(init, c);
      assert last in rows;
      FilterKeepsLast(init, last, c);
    }
  }

  /** A row that meets the criterion, put after the others, ends the selection. */
  lemma FilterKeepsLast(init: seq<Row>, last: Row, c: Criterion)
    requires Holds(c, last)
    ensures Filter(init + [last], c) == Filter(init, c) + [last]
  {
    assert (init + [last])[..|init|] == init;
  }

  datatype Stats = Stats(pending: nat, generated: nat, published: nat, total: nat)

  function StatsOf(rows: seq<Row>): Stats {
    Stats(|Filter(rows, HasStatus("pending"))|, |Filter(rows, HasStatus("article_generated"))|,
          |Filter(rows, HasStatus("published"))|, |rows|)
  }

  /** The three status counts are disjoint parts of the total. */
  lemma {:induction false} StatsPartition(rows: seq<Row>)
    ensures var s := StatsOf(rows); s.pending + s.generated + s.published <= s.total
    decreases |rows|
  {
    if |rows| > 0 {
      StatsPartition(rows[..|rows| - 1]);
    }
  }

  // ---------------------------------------------------------------------------
  // Status updates

  /** `UPDATE ... SET status = <status> WHERE id = <id>`. */
  function SetStatus(rows: seq<Row>, id: int, status: string): (r: seq<Row>)
    ensures |r| == |rows|
  {
    seq(|rows|, i requires 0 <= i < |rows| => if rows[i].id == id then rows[i].(status := status) else rows[i])
  }

  /** `UPDATE ... SET status = 'article_generated', post_id = <post> WHERE id = <id>`. */
  function SetGenerated(rows: seq<Row>, id: int, post: nat): (r: seq<Row>)
    ensures |r| == |rows|
  {
    seq(|rows|, i requires 0 <= i < |rows| =>
      if rows[i].id == id then rows[i].(status := "article_generated", postId := Some(post)) else rows[i])
  }

  /** The update touches the row with that id and only the named columns; the keys stay distinct. */
  lemma UpdatesTouchOnlyTarget(rows: seq<Row>, id: int, status: string, post: nat)
    requires DistinctKeys(rows)
    ensures DistinctKeys(SetStatus(rows, id, status)) && DistinctKeys(SetGenerated(rows, id, post))
    ensures forall i :: 0 <= i < |rows| && rows[i].id != id ==>
      SetStatus(rows, id, status)[i] == rows[i] && SetGenerated(rows, id, post)[i] == rows[i]
    ensures forall i :: 0 <= i < |rows| && rows[i].id == id ==>
      SetStatus(rows, id, status)[i] == rows[i].(status := status) &&
      SetGenerated(rows, id, post)[i] == rows[i].(status := "article_generated", postId := Some(post))
    ensures forall i, j :: 0 <= i < j < |rows| && rows[i].id == id ==> rows[j].id != id
  {
  }

  /** A dismissed claim becomes eligible for cleanup; a claim with an article never is. */
  lemma CleanupByStatus(r: Row, now: int)
    requires r.discovered < now - 90 * Day
    ensures !Holds(Survives(now), r.(status := "ignored"))
    ensures Holds(Survives(now), r.(status := "article_generated"))
    ensures Holds(Survives(now), r.(status := "published"))
  {
  }

  /** The first row with that id. */
  function Find(rows: seq<Row>, id: int): (r: Option<Row>)
    ensures r.Some? ==> r.value in rows && r.value.id == id
    ensures r.None? ==> forall x :: x in rows ==> x.id != id
    decreases |rows|
  {
    if |rows| == 0 then None else if rows[0].id == id then Some(rows[0]) else Find(rows[1..], id)
  }

  /** The generator's view of a row. */
  function ToClaim(r: Row): Article.Claim {
    Article.Claim(r.id, r.claimText, r.source, r.sourceUrl, r.category, r.rating)
  }

  // ---------------------------------------------------------------------------
  // The queue

  class Queue {
    var rows: seq<Row>
    var nextId: nat

    ghost predicate Valid()
      reads this
    {
      ValidTable(Table(rows, nextId))
    }

    constructor ()
      ensures Valid() && rows == [] && nextId == 1
    {
      rows := [];
      nextId := 1;
    }

    /** `store_claim`, with its loop over the fuzzy-match candidates. */
    method StoreClaim(c: Collector.CollectedClaim, now: int, hash: string -> string,
                      similarity: (string, string) -> real) returns (stored: bool)
      requires Valid()
      modifies this
      ensures Valid()
      ensures (Table(rows, nextId), stored) == Store(Table(old(rows), old(nextId)), c, now, hash, similarity)
    {
      ghost var t := Table(rows, nextId);
      StoreValid(t, c, now, hash, similarity);
      var norm := Normalize(c.claimText);
      var h := hash(norm);
      if HashSince(rows, h, now - 30 * Day) {
        return false;
      }
      var recent := Recent(rows, c.category, now - 14 * Day);
      var similar := AnySimilar(norm, recent, similarity);
      if similar {
        return false;
      }
      if HashTaken(rows, h) || !FitsColumns(c) {
        return false;
      }
      rows := rows + [NewRow(nextId, c, now, h)];
      nextId := nextId + 1;
      stored := true;
    }

    /** `cleanup_old_claims`: deletes the expired rows and returns how many. */
    method CleanupOldClaims(now: int) returns (deleted: nat)
      requires Valid()
      modifies this
      ensures Valid()
      ensures rows == Filter(old(rows), Survives(now)) && nextId == old(nextId)
      ensures deleted == |old(rows)| - |rows|
    {
      var kept := Filter(rows, Survives(now));
      FilterDistinct(rows, Survives(now));
      deleted := |rows| - |kept|;
      rows := kept;
    }

    /** `collect_misinformation`: cleanup, then store every collected claim and count. */
    method CollectMisinformation(inp: Collector.Inputs, stripTags: string -> string, now: int,
                                 hash: string -> string, similarity: (string, string) -> real)
      returns (last: LastCollection)
      requires Valid()
      modifies this
      ensures Valid()
      ensures var results := Collector.CollectAll(inp, stripTags);
        var after := StoreAll(Table(Filter(old(rows), Survives(now)), old(nextId)), results, now, hash, similarity);
        Table(rows, nextId) == after.0 && last == Collected(|results|, after.1)
    {
      var _ := CleanupOldClaims(now);
      var results := Collector.CollectAll(inp, stripTags);
      var tally := StoreCollected(results, now, hash, similarity);
      last := Collected(|results|, tally);
    }

    /** `collect_misinformation`'s loop: each claim is stored or counted as a duplicate. */
    method StoreCollected(results: seq<Collector.CollectedClaim>, now: int,
                          hash: string -> string, similarity: (string, string) -> real)
      returns (tally: Tally)
      requires Valid()
      modifies this
      ensures Valid()
      ensures (Table(rows, nextId), tally) == StoreAll(old(Table(rows, nextId)), results, now, hash, similarity)
    {
      ghost var t0 := Table(rows, nextId);
      var stored, duplicates, google, fullFact, perplexity := 0, 0, 0, 0, 0;
      var k := 0;
      while k < |results|
        invariant 0 <= k <= |results|
        invariant Valid()
        invariant Table(rows, nextId) == Run(t0, results[..k], StoreStep(now, hash, similarity)).0
        invariant Tally(stored, duplicates, google, fullFact, perplexity) ==
          Run(t0, results[..k], StoreStep(now, hash, similarity)).1
      {
        var c := results[k];
        var ok := StoreClaim(c, now, hash, similarity);
        RunNext(t0, results, k, now, hash, similarity, Table(rows, nextId), ok);
        stored, duplicates, google, fullFact, perplexity := CountClaim(stored, duplicates, google, fullFact, perplexity, c, ok);
        k := k + 1;
      }
      assert results[..|results|] == results;
      tally := Tally(stored, duplicates, google, fullFact, perplexity);
    }

    /** `ajax_refresh_claims`: collect, then report what the collection recorded. */
    method RefreshClaims(inp: Collector.Inputs, stripTags: string -> string, now: int,
                         hash: string -> string, similarity: (string, string) -> real)
      returns (message: string)
      requires Valid()
      modifies this
      ensures Valid()
      ensures var results := Collector.CollectAll(inp, stripTags);
        var after := StoreAll(Table(Filter(old(rows), Survives(now)), old(nextId)), results, now, hash, similarity);
        Table(rows, nextId) == after.0 && message == RefreshMessage(Collected(|results|, after.1))
    {
      var last := CollectMisinformation(inp, stripTags, now, hash, similarity);
      message := RefreshMessage(last);
    }

    /** `get_claims`. */
    function Claims(f: ClaimFilter): seq<Row>
      reads this
    {
      Query(rows, f)
    }

    /** `get_stats`. */
    function CurrentStats(): Stats
      reads this
    {
      StatsOf(rows)
    }

    /** `ajax_dismiss_claim`: succeeds whether or not a row has that id. */
    method DismissClaim(claimId: int) returns (r: Result<string, string>)
      requires Valid()
      modifies this
      ensures Valid()
      ensures rows == SetStatus(old(rows), claimId, "ignored") && nextId == old(nextId)
      ensures r == Ok("Claim dismissed")
    {
      UpdatesTouchOnlyTarget(rows, claimId, "ignored", 0);
      rows := SetStatus(rows, claimId, "ignored");
      forall x | x in rows ensures 1 <= x.id < nextId {
        var i :| 0 <= i < |rows| && rows[i] == x;
        assert old(rows)[i] in old(rows);
      }
      r := Ok("Claim dismissed");
    }

    /** `ajax_generate_article`: look the claim up, generate, then mark the row. */
    method GenerateArticleFor(claimId: int, apiKey: string, research: Reply<Completion<()>>,
                              article: Reply<Completion<()>>, site: Article.Site,
                              host: string -> Option<string>, stripTags: string -> string)
      returns (r: Result<nat, string>)
      requires Valid()
      modifies this
      ensures Valid() && nextId == old(nextId)
      ensures Find(old(rows), claimId).None? ==> r == Err("Claim not found") && rows == old(rows)
      ensures Find(old(rows), claimId).Some? ==>
        var g := Article.Generated(apiKey, ToClaim(Find(old(rows), claimId).value), research, article, site, host, stripTags);
        (g.Err? ==> r == Err(g.error) && rows == old(rows)) &&
        (g.Ok? ==> r == Ok(g.value.id) && rows == SetGenerated(old(rows), claimId, g.value.id))
    {
      var found := Find(rows, claimId);
      if found.None? {
        return Err("Claim not found");
      }
      var g := Article.GenerateArticle(apiKey, ToClaim(found.value), research, article, site, host, stripTags);
      if g.Err? {
        return Err(g.error);
      }
      MarkGenerated(claimId, g.value.id);
      r := Ok(g.value.id);
    }

    /** The claim's row records the generated post and the status "article_generated". */
    method MarkGenerated(claimId: int, postId: nat)
      requires Valid()
      modifies this
      ensures Valid() && nextId == old(nextId)
      ensures rows == SetGenerated(old(rows), claimId, postId)
    {
      UpdatesTouchOnlyTarget(rows, claimId, "article_generated", postId);
      ghost var before := rows;
      rows := SetGenerated(rows, claimId, postId);
      forall x | x in rows ensures 1 <= x.id < nextId {
        var i :| 0 <= i < |rows| && rows[i] == x;
        assert before[i] in before;
      }
    }
  }
}
