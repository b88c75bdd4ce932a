# exBERT orchestrator decisions, modelled in Dafny

exBERT shows the attention of a transformer model over a sentence: token
lists, per-head attention boxes, an attention graph and a corpus inspector
with nearest-neighbour search results. Its orchestrator, `MainGraphic` in
`client/src/ts/vis/myMain.ts`, owns the configuration object (model, model
kind, sentence, layer, layer and head counts, selected heads, selected
token, inspector mode) and the token wrapper's mask flags. It binds the
widgets' events to changes of that state.

This project models the decisions the orchestrator takes, separated from
rendering and networking:

- `Common` holds the shared values: JavaScript values a token field can hold,
  the configuration record `UiConfig`, the model kinds, and the requests
  handed to the network client. It also states the contracts of the
  collaborator toggles the handlers call, the configuration's head toggle
  and the token wrapper's mask toggle. Those collaborators are not part of
  this model, so their contracts are stated as the handlers rely on them:
  a head toggle adds or removes the head and says which it did, and a mask
  toggle flips one flag and does nothing for an index out of range.
- `Tokens` holds the null-token test, written with JavaScript's loose
  equality made explicit.
- `Search` holds when the search buttons are disabled, when a context or
  embedding query is sent, which query is replayed after a reload, and how
  search results are paired with their measured row heights.
- `Sentence` holds the '#' stripping of a submitted sentence, the non-empty
  guard and the Enter-key filter.
- `ModelTable` holds the table of selectable models and Ramda's `zipObj`,
  from which the name-to-kind map is built.
- `Orchestrator.MainGraphic` is a class for the handlers that change state
  in place. Its fields are the configuration record, the two token lists'
  mask flags, and the marks that rendering leaves: which layer checkbox is
  active, which head's rectangles are selected, and whether the search
  buttons are disabled. Its methods are the layer-picking pass of
  `initLayers`, the head-mark loop of `renderAttHead`, the head-box click,
  the token double-click, the select-all and select-none head buttons, the
  model switch, and storing the model details on (re)load.

Three behaviours of the code that a reader might not expect, all modelled
as written:

- `_wrapResults` does not check that there are as many heights as results.
  A result without a row gets an `undefined` height. `Search.WrapResults`
  models that as `None`, not as an error.
- The only clamp of the layer in this file is the pass in `initLayers`. It
  also resets a layer below 1 to the last layer. The setters of `UIConfig`
  are defined outside `myMain.ts` and are modelled as plain stores.
- The layer checkboxes and the heads of `renderAttHead` come from lodash's
  `_.range`, which counts down when the end lies below the start. The model
  keeps that: a negative layer count draws the checkboxes 1, 0, ..., and a
  negative head count visits heads 0, -1, .... A model never reports such
  counts, so the contracts state the non-negative case in plain terms.

## Model

| member | source | states |
|---|---|---|
| `Tokens.IsNullToken` | client/src/ts/vis/myMain.ts:26-33 | a token is not null exactly when both its side and its index carry a real value (a number, or a string other than "null"); one null, undefined or "null" field makes it null |
| `Tokens.SentinelIsNull` | client/src/ts/vis/myMain.ts:26-33 | the null/null sentinel and its "null"/"null" string form are null tokens |
| `Tokens.PartialNullIsNull` | client/src/ts/vis/myMain.ts:27-31 | replacing either field of any token by null, undefined or "null" makes it null |
| `Tokens.RealTokensAreNotNull` | client/src/ts/vis/myMain.ts:27-31 | a real side with index 0, or with index "0", is not null: the test is not truthiness |
| `Search.Query` | client/src/ts/vis/myMain.ts:581-668 | a context or embedding query is sent exactly when the saved token's index carries a value and its side is "left" or "right", the two sides that have a token widget (lines 144-147); a null token is turned away by the guard, and any other side makes the vector lookup throw before a request is made; the query asks for 50 neighbours of that token at the current model, corpus, layer and head set |
| `Search.SearchingDisabled` | client/src/ts/vis/myMain.ts:670-672 | an empty head set disables searching; with heads selected and a side that has a token widget, searching is disabled exactly when a query would not be sent; when enabled, both queries are sent exactly when the side has a token widget |
| `Search.EnabledWithoutQuery` | client/src/ts/vis/myMain.ts:581-590 | with heads selected, a numeric index and a side string other than "null", "left" and "right", the buttons are enabled but neither query is sent |
| `Search.RestoreInspector` | client/src/ts/vis/myMain.ts:170-181 | after a reload the inspector's query is replayed exactly when a mode was showing, the token is not null and its side has a token widget, as a context search exactly when the mode was context |
| `Search.RestoreIgnoresHeads` | client/src/ts/vis/myMain.ts:173-179 | with no heads selected the buttons are disabled, yet a restored embedding inspector still sends a search with the empty head set |
| `Search.WrapResults` | client/src/ts/vis/myMain.ts:697-710 | one row per result in input order; row i carries result i and height i, or an undefined height when there is no i-th row height |
| `Search.WrapUnzip` | client/src/ts/vis/myMain.ts:704-706 | reading the results back from the rows gives the input; with one height per result, reading the heights back gives the heights |
| `Sentence.StripHash` | client/src/ts/vis/myMain.ts:546 | the sanitised sentence has no '#', keeps every other character of the input, and is shorter by the number of '#' |
| `Sentence.StripHashAppend` | client/src/ts/vis/myMain.ts:546 | stripping distributes over concatenation, so the kept characters stay in order |
| `Sentence.StripHashNoHash` | client/src/ts/vis/myMain.ts:546 | an input without '#' is left unchanged |
| `Sentence.StripHashIdempotent` | client/src/ts/vis/myMain.ts:546 | sanitising twice equals sanitising once |
| `Sentence.AllHashIsEmpty` | client/src/ts/vis/myMain.ts:546-549 | an input of '#' only sanitises to the empty sentence, so nothing is submitted |
| `Sentence.Submit` | client/src/ts/vis/myMain.ts:544-562 | a request is sent exactly when the sanitised sentence is non-empty; it asks for that sentence, which holds no '#', at the current model and layer |
| `Sentence.OnKeypress` | client/src/ts/vis/myMain.ts:565-578 | only key code 13 (Enter) submits; any other key sends nothing |
| `ModelTable.ZipObj` | client/src/ts/vis/myMain.ts:369-371 | the keys of the zipped map are exactly the names up to the shorter of the two lists |
| `ModelTable.ZipObjAt` | client/src/ts/vis/myMain.ts:369-371 | with distinct names each name maps to the kind at its own position |
| `ModelTable.LastWriteWins` | client/src/ts/vis/myMain.ts:371 | a name written again later in the zipped lists keeps the later kind |
| `ModelTable.KindOf` | client/src/ts/vis/myMain.ts:358-371 | a name has a kind exactly when it is one of the eight listed models; for any other name the selector could offer the lookup gives undefined |
| `ModelTable.KindOfListed` | client/src/ts/vis/myMain.ts:358-371 | each listed name maps to the kind listed beside it |
| `ModelTable.KindTable` | client/src/ts/vis/myMain.ts:358-366 | gpt2, gpt2-medium and distilgpt2 are autoregressive; the three BERT and two RoBERTa names are bidirectional |
| `Common.ToggleHead` | client/src/ts/vis/myMain.ts:290-295 | the head toggle the click handler relies on flips the clicked head's membership, leaves the other heads alone, and reports Added exactly when the head is now selected |
| `Common.ToggleHeadTwice` | client/src/ts/vis/myMain.ts:290 | toggling the same head twice restores the head set |
| `Common.AllHeads` | client/src/ts/vis/myMain.ts:786-791 | the all-heads set is exactly the heads 0..nHeads-1 |
| `Common.ToggleMask` | client/src/ts/vis/myMain.ts:220 | the mask toggle flips the clicked token's flag alone, keeps the length, and ignores an index out of range |
| `Common.ToggleMaskTwice` | client/src/ts/vis/myMain.ts:215-242 | two double-clicks on the same token restore the mask |
| `Orchestrator.SetMark` | client/src/ts/vis/myMain.ts:56-64 | selecting or unselecting head h changes the mark of head h alone, and nothing when no rectangle of h is drawn |
| `Orchestrator.LodashRange` | client/src/ts/vis/myMain.ts:717-718 | `_.range(start, end)` has one value per step from start towards end, counting up when start ≤ end and down otherwise, end excluded |
| `Orchestrator.LodashRangeMembers` | client/src/ts/vis/myMain.ts:818 | the values a range visits are exactly those between its ends, start included and end excluded, in either direction |
| `Orchestrator.MainGraphic.SearchDisabler` | client/src/ts/vis/myMain.ts:674-676 | the search buttons' disabled mark equals the search-disable rule on the current state; nothing else changes |
| `Orchestrator.MainGraphic.InitLayers` | client/src/ts/vis/myMain.ts:712-735 | a checkbox is drawn for each value of `_.range(1, n + 1)` and is active exactly when it shows the resulting layer; with n ≥ 1 layers the checkboxes are 1..n and exactly one is active, that of the current layer, which lies in 1..n; a layer already in range is kept, any other is set to n; with n < 1 the layer is unchanged |
| `Orchestrator.MainGraphic.RenderAttHead` | client/src/ts/vis/myMain.ts:817-834 | every head visited by `_.range(0, nHeads)` is marked selected exactly when it is in the head set; marks of other heads are untouched; the visited heads with rectangles are those below nHeads, plus head 0 when nHeads is negative |
| `Orchestrator.MainGraphic.BoxClick` | client/src/ts/vis/myMain.ts:289-300 | the clicked head's membership flips, its mark becomes selected when added and unselected when removed, no other mark or head changes, marks that agreed with the head set still agree, and the search buttons are refreshed |
| `Orchestrator.MainGraphic.SelectAllHeads` | client/src/ts/vis/myMain.ts:786-791 | the head set becomes 0..nHeads-1, every drawn head below nHeads is marked selected, every head the loop visits is marked by its membership (so with a negative nHeads head 0 is unmarked), marks of heads the loop does not visit are unchanged, and searching is disabled only for a null token or no heads |
| `Orchestrator.MainGraphic.SelectNoHeads` | client/src/ts/vis/myMain.ts:793-799 | the head set becomes empty, searching is disabled, every head the loop visits is marked unselected, and marks of the other heads are unchanged |
| `Orchestrator.MainGraphic.TokenDblClick` | client/src/ts/vis/myMain.ts:215-242 | only a bidirectional model flips the clicked token's mask flag, in the addressed list alone, and requests masked attention with the first list's mask; other kinds change nothing and send nothing |
| `Orchestrator.MainGraphic.SelectModel` | client/src/ts/vis/myMain.ts:383-389 | a model switch stores the new name and the kind the table gives it (none for an unlisted name), resets nothing else, keeps the search buttons in step, and asks for the new model's details (line 162) |
| `Orchestrator.MainGraphic.ApplyModelDetails` | client/src/ts/vis/myMain.ts:162-166 | storing the model's layer and head counts runs the layer pass with all of its guarantees: with nLayers ≥ 1 there are nLayers checkboxes and exactly one is active, and the layer lies in 1..nLayers, kept when it was in range and nLayers otherwise; attention is requested at that layer; masks, head marks and the search buttons are unchanged |

## Left out

- DOM effects: d3 selections, classes, attributes, styles and the busy cursor. They appear only as the marks kept in `MainGraphic`. The "masked-token" class a double-click toggles is the mask flag itself.
- The curve and token highlighting of `showBySide`, `chooseShowBySide`, `chooseShowAll` and `_toggleTokenSel`. Their decisions are the null-token test and, in `showBySide`, the choice of the source-index or target-index attribute by whether the side is "left". `_toggleTokenSel` ends by calling `_searchDisabler`, which is `Orchestrator.MainGraphic.SearchDisabler`.
- Network calls and their continuations: the `then` blocks of `mainInit`, `submitNewSentence`, the double-click and the search functions, and the rxjs layer-change pipeline. Handlers that start a request return it instead: the double-click, the model switch, the details step of a (re)load and the sentence submission. The search functions are represented by the request `Search.Query` says they send. Response ordering is a concurrency concern and is not modelled.
- The collaborators `UIConfig`, `TokenWrapper`, `AttentionWrapper` and `FaissSearchResultWrapper` are not part of this model. Of them, only the head toggle, the all-heads set and the mask toggle are stated, in `Common`, and `UIConfig.selectNoHeads`, which `Orchestrator.MainGraphic.SelectNoHeads` writes as a store of the empty head set. The token-click handler (lines 253-263) is left out. Its state change is made by `UIConfig.toggleToken`, which is defined in `uiConfig` and is not modelled here. It also refreshes the search buttons through `_toggleTokenSel`, and for an autoregressive model it toggles the "masked-token" class of the right-hand token after the clicked one; neither is modelled. The head-box hover handlers (lines 274-287) are left out: they render `AttentionWrapper` slices and re-apply `showBySide`. The token hover handlers (lines 245-251) are the curve highlighting listed above. The corpus-matrix hover handlers (lines 314-324) only toggle a CSS class. The histograms are defined in `CorpusHistogram` and are not modelled here.
- The setters of `UIConfig` (`layer`, `nLayers`, `nHeads`, `model`, `modelKind`) are defined in `uiConfig`, outside `myMain.ts`. They are modelled as plain stores, so any clamping they might do is not part of this model.
- `Tokens.IsNullToken`: takes a present token record. The source compares the record with null but reads its fields regardless, so a missing record raises a TypeError. That exception path is not modelled.
- `Orchestrator.MainGraphic.TokenDblClick`: `sideToLetter` is not part of this model, so the token list addressed is a parameter.
- The threshold slider, row heights measured by `getBoundingClientRect`, `_.throttle`, `window.onresize`, `console.log` and the corpus-offset buttons. These are floating point, layout and browser plumbing. Heights are opaque values in `Search.WrapResults`.
- The corpus selector and the meta selectors. They only copy a widget value into the configuration or into a widget.
- The hide-special-tokens toggle (lines 803-815). It stores the flag and calls `AttentionWrapper.zeroed`, which is not part of this model. It then re-renders the attention graph and the head boxes. The head-mark loop it re-runs is `Orchestrator.MainGraphic.RenderAttHead`.
- The token wrapper's embedding and context vectors. A search request records the selected token instead of the vector read for it.
- `Search.Query`: `getEmbedding` is not part of this model, so the query takes it to return a vector for any index; what it does with an index outside its token list is not modelled.
