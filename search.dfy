/** The corpus-search decisions: when the two search buttons are disabled,
    when a query is actually sent, which query the page restores after a
    reload, and how search results are paired with their row heights. */
module Search {
  import opened Common
  import opened Tokens

  /** The number of nearest neighbours every corpus search asks for. */
  const K: int := 50

  /** Whether the token widgets have an entry for the side: there is one
      for "left" and one for "right". Any other side, another string or a
      number, looks up no token widget, and calling `getEmbedding` on what it
      finds raises a TypeError before any request is made. */
  predicate KnownSide(side: JsValue)
  {
    side == Str("left") || side == Str("right")
  }

  /** The search a button click (or the restore after a reload) issues:
      nothing when the saved token is null, nothing when its side has no
      token widget (the vector lookup throws), otherwise a search for that
      token's vector at the current layer and head set. Neither check looks
      at the head set. */
  function Query(conf: UiConfig, kind: SearchKind): (r: Option<SearchRequest>)
    ensures r.Some? <==> KnownSide(conf.token.side) && HasValue(conf.token.ind)
    ensures r.Some? ==> r.value.kind == kind && r.value.token == conf.token && r.value.k == K
    ensures r.Some? ==> r.value.model == conf.model && r.value.corpus == conf.corpus
    ensures r.Some? ==> r.value.layer == conf.layer && r.value.heads == conf.heads
  {
    if IsNullToken(conf.token) then None
    else if !KnownSide(conf.token.side) then None
    else Some(SearchRequest(kind, conf.model, conf.corpus, conf.token, conf.layer, conf.heads, K))
  }

  /** Whether both search buttons are disabled: when no head is selected or
      the saved token is null. With heads selected and a side that has a
      token widget, the buttons are enabled exactly when a click would send
      a query; the side itself is not checked. */
  predicate SearchingDisabled(conf: UiConfig)
    ensures conf.heads == {} ==> SearchingDisabled(conf)
    ensures conf.heads != {} && KnownSide(conf.token.side) ==>
              (SearchingDisabled(conf) <==> Query(conf, SearchContexts).None?)
    ensures !SearchingDisabled(conf) ==>
              (Query(conf, SearchContexts).Some? <==> KnownSide(conf.token.side)) &&
              (Query(conf, SearchEmbeddings).Some? <==> KnownSide(conf.token.side))
  {
    |conf.heads| == 0 || IsNullToken(conf.token)
  }

  /** A side with no token widget passes the null test, so the buttons are
      enabled while a click on either sends nothing. */
  lemma EnabledWithoutQuery(conf: UiConfig)
    requires conf.heads != {} && conf.token.ind.Num?
    requires conf.token.side.Str? && conf.token.side.s != "null" && !KnownSide(conf.token.side)
    ensures !SearchingDisabled(conf)
    ensures Query(conf, SearchContexts).None? && Query(conf, SearchEmbeddings).None?
  {
  }

  /** The query the page re-issues once a fresh attention response has been
      displayed: the search matching the inspector mode that was showing, if
      any, subject to the same null-token guard and side lookup. */
  function RestoreInspector(conf: UiConfig): (r: Option<SearchRequest>)
    ensures r.Some? <==>
              conf.displayInspector != NoInspector && !IsNullToken(conf.token) && KnownSide(conf.token.side)
    ensures r.Some? ==> (r.value.kind == SearchContexts <==> conf.displayInspector == Context)
  {
    match conf.displayInspector
    case Context => Query(conf, SearchContexts)
    case Embeddings => Query(conf, SearchEmbeddings)
    case NoInspector => None
  }

  /** An empty head set disables the buttons but not the guard: a restored
      inspector still searches with no heads. */
  lemma RestoreIgnoresHeads(conf: UiConfig)
    requires conf.heads == {} && conf.displayInspector == Embeddings
    requires !IsNullToken(conf.token) && KnownSide(conf.token.side)
    ensures SearchingDisabled(conf)
    ensures RestoreInspector(conf) == Some(SearchRequest(SearchEmbeddings, conf.model, conf.corpus, conf.token, conf.layer, {}, K))
  {
  }

  /** A search result paired with the measured height of its display row;
      `None` is the `undefined` height of a result with no row. */
  datatype Row<R, H> = Row(result: R, height: Option<H>)

  /** `_wrapResults`: the i-th result gets the i-th measured height. */
  function WrapResults<R, H>(results: seq<R>, heights: seq<H>): (rows: seq<Row<R, H>>)
    ensures |rows| == |results|
    ensures forall i :: 0 <= i < |rows| ==> rows[i].result == results[i]
    ensures forall i :: 0 <= i < |rows| ==>
              rows[i].height == if i < |heights| then Some(heights[i]) else None
  {
    seq(|results|, i requires 0 <= i < |results| =>
      Row(results[i], if i < |heights| then Some(heights[i]) else None))
  }

  function ResultsOf<R, H>(rows: seq<Row<R, H>>): (rs: seq<R>)
  {
    if rows == [] then [] else [rows[0].result] + ResultsOf(rows[1..])
  }

  function HeightsOf<R, H>(rows: seq<Row<R, H>>): (hs: seq<Option<H>>)
  {
    if rows == [] then [] else [rows[0].height] + HeightsOf(rows[1..])
  }

  function Present<H>(hs: seq<H>): (r: seq<Option<H>>)
  {
    if hs == [] then [] else [Some(hs[0])] + Present(hs[1..])
  }

  /** Wrapping loses nothing and keeps the order: the results read back from
      the rows are the input, and when there is a height for every result
      the heights read back are those heights. */
  lemma {:induction false} WrapUnzip<R, H>(results: seq<R>, heights: seq<H>)
    ensures ResultsOf(WrapResults(results, heights)) == results
    ensures |heights| == |results| ==> HeightsOf(WrapResults(results, heights)) == Present(heights)
  {
    if results != [] {
      var rows := WrapResults(results, heights);
      var tail := if heights == [] then [] else heights[1..];
      assert rows[1..] == WrapResults(results[1..], tail);
      WrapUnzip(results[1..], tail);
    }
  }
}
