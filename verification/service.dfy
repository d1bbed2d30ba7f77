/**
 * The shapes of the HTTP replies the plugin reads from the Perplexity chat
 * completions endpoint (and, generically, from any endpoint), as the plugin
 * sees them after `json_decode`.  Requests and transport are not modelled:
 * every operation that calls out takes the reply it would get as a parameter.
 */
module Service {
  import opened Php

  /** `wp_remote_post`/`wp_remote_get`: a `WP_Error` or an HTTP status code with a decoded body. */
  datatype Reply<+B> = TransportError(message: string) | Http(code: int, body: B)

  /**
   * `json_decode($text, true)` of the assistant's message, after the code fences are
   * stripped: anything that is not an array, an empty array (falsy in PHP), or a
   * non-empty array whose modelled keys are `fields`.
   */
  datatype Decoded<+T> = NotArray | EmptyArray | Array(fields: T)

  /** The text of `choices[0].message.content` and what it decodes to. */
  datatype Message<+T> = Message(text: string, decoded: Decoded<T>)

  /** A progress update of a background job or task: percentage, stage and message. */
  datatype Progress = Progress(percent: real, stage: string, message: string)

  /** One element of the reply's `citations` list; a bare URL string has neither key. */
  datatype Citation = Citation(title: Field<string>, url: Field<string>)

  /**
   * A decoded chat-completions body. A body that is not JSON is the completion
   * with every key absent, which every caller treats the same way.
   */
  datatype Completion<+T> = Completion(
    message: Field<Message<T>>,           // isset($data['choices'][0]['message']['content'])
    citations: Option<seq<Citation>>,     // isset($data['citations']) && is_array(...)
    errorMessage: Field<string>)          // $data['error']['message']

  /** A source entry of a report: every key may be missing. */
  datatype Source = Source(title: Field<string>, url: Field<string>, credibility: Field<string>, date: Field<string>)

  /** The citations that carry a URL, in reply order. */
  function WithUrl(cs: seq<Citation>): (r: seq<Citation>)
    ensures |r| <= |cs|
    ensures forall c :: c in r ==> c in cs && c.url.Val?
    ensures forall k :: 0 <= k < |r| ==> r[k].url.Val?
    decreases |cs|
  {
    if |cs| == 0 then []
    else
      var init := WithUrl(cs[..|cs| - 1]);
      if cs[|cs| - 1].url.Val? then init + [cs[|cs| - 1]] else init
  }

  /** The entry `extract_citations` makes of a citation with a URL; `host` is `parse_url(..., PHP_URL_HOST)`. */
  function CitationSource(c: Citation, host: string -> Option<string>): (s: Source)
    requires c.url.Val?
    ensures s.url == c.url && s.credibility == Val("high") && s.date.Absent?
    ensures c.title.Val? ==> s.title == c.title
    ensures !c.title.Val? ==> s.title == match host(c.url.v) case Some(h) => Val(h) case None => Null
  {
    var title := if c.title.Val? then c.title else
      match host(c.url.v) case Some(h) => Val(h) case None => Null;
    Source(title, c.url, Val("high"), Absent)
  }

  /** The citations of a reply that carry a URL, as source entries, in reply order. */
  function Citations(cs: seq<Citation>, host: string -> Option<string>): (r: seq<Source>)
    ensures |r| <= |cs|
    ensures forall s :: s in r ==> s.url.Val? && s.credibility == Val("high")
    decreases |cs|
  {
    if |cs| == 0 then []
    else
      var init := Citations(cs[..|cs| - 1], host);
      var c := cs[|cs| - 1];
      if c.url.Val? then init + [CitationSource(c, host)] else init
  }

  /** The entries follow the citations with a URL one for one, in reply order. */
  lemma {:induction false} CitationsInOrder(cs: seq<Citation>, host: string -> Option<string>)
    ensures var r := Citations(cs, host);
      |r| == |WithUrl(cs)| && forall k :: 0 <= k < |r| ==> r[k] == CitationSource(WithUrl(cs)[k], host)
    decreases |cs|
  {
    if |cs| > 0 {
      CitationsInOrder(cs[..|cs| - 1], host);
    }
  }

  /** A citation with a URL contributes its entry; the result has one entry per such citation. */
  lemma {:induction false} CitationsKeepsEveryUrl(cs: seq<Citation>, host: string -> Option<string>, i: int)
    requires 0 <= i < |cs| && cs[i].url.Val?
    ensures CitationSource(cs[i], host) in Citations(cs, host)
    decreases |cs|
  {
    if i < |cs| - 1 {
      CitationsKeepsEveryUrl(cs[..|cs| - 1], host, i);
    }
  }

  /** One more citation adds its entry exactly when it has a URL. */
  lemma CitationsSnoc(cs: seq<Citation>, c: Citation, host: string -> Option<string>)
    ensures Citations(cs + [c], host) == Citations(cs, host) + (if c.url.Val? then [CitationSource(c, host)] else [])
  {
    assert (cs + [c])[..|cs|] == cs;
  }

  /** `extract_citations`: the loop over the reply's `citations`. */
  method ExtractCitations<T>(data: Completion<T>, host: string -> Option<string>) returns (sources: seq<Source>)
    ensures sources == CitationsOf(data, host)
  {
    sources := [];
    if data.citations.Some? {
      var cs := data.citations.value;
      var i := 0;
      while i < |cs|
        invariant 0 <= i <= |cs|
        invariant sources == Citations(cs[..i], host)
      {
        assert cs[..i + 1] == cs[..i] + [cs[i]];
        CitationsSnoc(cs[..i], cs[i], host);
        if cs[i].url.Val? {
          sources := sources + [CitationSource(cs[i], host)];
        }
        i := i + 1;
      }
      assert cs[..|cs|] == cs;
    }
  }

  /** What the reply's citations give a caller: `extract_citations($data)`. */
  function CitationsOf<T>(data: Completion<T>, host: string -> Option<string>): seq<Source> {
    match data.citations
    case None => []
    case Some(cs) => Citations(cs, host)
  }
}
