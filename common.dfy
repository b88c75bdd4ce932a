/** Shared vocabulary of the attention-visualisation orchestrator: the optional
    value JavaScript reads as `undefined`, the model kinds, the analysis state
    held by the configuration object, the requests the orchestrator hands to its
    network client, and the contracts of the two collaborators whose toggles the
    event handlers call (the configuration's head toggle and the token wrapper's
    mask toggle). */
module Common {

  datatype Option<+T> = None | Some(value: T)

  /** A value as JavaScript sees it when a token event arrives: from a widget
      the index is a number, from a URL query string it may be any string,
      including the literal "null". */
  datatype JsValue = Undefined | Null | Str(s: string) | Num(n: int)

  /** A token event or the saved token selection: a side and an index. */
  datatype TokenEvent = TokenEvent(side: JsValue, ind: JsValue)

  /** The sentinel the configuration holds when no token is selected. */
  const NoToken: TokenEvent := TokenEvent(Null, Null)

  datatype ModelKind = Bidirectional | Autoregressive

  /** What the corpus inspector was showing when the page was last left. */
  datatype InspectorMode = NoInspector | Context | Embeddings

  /** The two results the configuration's head toggle reports. */
  datatype Toggled = Added | Removed

  /** Which token list of the token wrapper an event addresses. */
  datatype Letter = A | B

  /** The analysis state of the configuration object, as far as the
      orchestrator's decisions read or write it. `modelKind` is `None` when the
      model name was not in the selection table (the lookup gives `undefined`);
      `heads` is the set of selected head indices. */
  datatype UiConfig = UiConfig(
    model: string,
    modelKind: Option<ModelKind>,
    corpus: string,
    sentence: string,
    layer: int,
    nLayers: int,
    nHeads: int,
    heads: set<int>,
    token: TokenEvent,
    displayInspector: InspectorMode)

  /** A request to the attention server: a model's layer and head counts,
      or the attention of a sentence. */
  datatype AttentionRequest =
    | ModelDetails(model: string)
    | MetaAttentions(model: string, sentence: string, layer: int)
    | MaskedAttentions(model: string, mask: seq<bool>, sentence: string, layer: int)

  datatype SearchKind = SearchContexts | SearchEmbeddings

  /** A nearest-neighbour corpus search; the query vector is the one the token
      widget holds for `token`, so the request records the token. */
  datatype SearchRequest = SearchRequest(
    kind: SearchKind, model: string, corpus: string, token: TokenEvent,
    layer: int, heads: set<int>, k: int)

  /** The configuration's head toggle: adds an absent head and reports
      `Added`, removes a present head and reports `Removed`. */
  function ToggleHead(heads: set<int>, h: int): (r: (set<int>, Toggled))
    ensures h in r.0 <==> h !in heads
    ensures forall g :: g != h ==> (g in r.0 <==> g in heads)
    ensures r.1 == Added <==> h in r.0
  {
    if h in heads then (heads - {h}, Removed) else (heads + {h}, Added)
  }

  /** The configuration's "all heads" set: the heads 0..n-1. */
  function AllHeads(n: int): (r: set<int>)
    ensures forall h :: h in r <==> 0 <= h < n
    decreases n
  {
    if n <= 0 then {} else AllHeads(n - 1) + {n - 1}
  }

  /** Toggling the same head twice gives back the original head set. */
  lemma ToggleHeadTwice(heads: set<int>, h: int)
    ensures ToggleHead(ToggleHead(heads, h).0, h).0 == heads
  {
  }

  /** The token wrapper's mask toggle: flips the mask flag of token `i`; an
      index outside the token list leaves the mask as it is. */
  function ToggleMask(mask: seq<bool>, i: int): (r: seq<bool>)
    ensures |r| == |mask|
    ensures forall j :: 0 <= j < |mask| ==> r[j] == (if j == i then !mask[j] else mask[j])
  {
    if 0 <= i < |mask| then mask[i := !mask[i]] else mask
  }

  /** Toggling the same token twice restores its mask flag. */
  lemma ToggleMaskTwice(mask: seq<bool>, i: int)
    ensures ToggleMask(ToggleMask(mask, i), i) == mask
  {
  }
}
