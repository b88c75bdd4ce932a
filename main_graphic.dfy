/** The orchestrator's in-place state changes: the layer checkboxes' pass that
    picks the active layer, the head-selection sync after the head boxes are
    drawn, and the event handlers for a head-box click, a token double-click
    and a model switch. Rendering is reduced to the marks it leaves: which
    layer checkbox is active, which head's rectangles are selected (not
    classed "unselected"), and whether the search buttons are disabled. */
module Orchestrator {
  import opened Common
  import opened Tokens
  import opened Search
  import ModelTable

  /** lodash's `_.range(start, end)` without a step: counts up from `start`
      when `start < end` and down otherwise, stopping before `end`. */
  function LodashRange(start: int, end: int): (r: seq<int>)
    ensures |r| == if start <= end then end - start else start - end
    ensures forall i :: 0 <= i < |r| ==> r[i] == if start <= end then start + i else start - i
  {
    if start <= end then seq(end - start, i => start + i)
    else seq(start - end, i => start - i)
  }

  /** The values a range visits lie between its ends: `start` included,
      `end` excluded, in either direction. */
  lemma LodashRangeMembers(start: int, end: int, x: int)
    ensures x in LodashRange(start, end) <==> (start <= x < end || end < x <= start)
  {
    var r := LodashRange(start, end);
    if start <= x < end {
      assert r[x - start] == x;
    } else if end < x <= start {
      assert r[start - x] == x;
    }
  }

  /** The layer checkboxes `initLayers` draws: `_.range(1, nLayers + 1)`. */
  function LayerRange(n: int): seq<int> { LodashRange(1, n + 1) }

  /** The heads `renderAttHead` visits: `_.range(0, nHeads)`. */
  function HeadRange(n: int): seq<int> { LodashRange(0, n) }

  /** Marks agree with the head set on the heads `0..nHeads-1` that are drawn. */
  ghost predicate MarksAgree(marks: seq<bool>, heads: set<int>, nHeads: int)
  {
    forall h :: 0 <= h < |marks| && h < nHeads ==> marks[h] == (h in heads)
  }

  /** `selectHead` / `unselectHead`: marks every rectangle of head `h`; a head
      with no rectangles selects nothing and changes nothing. */
  function SetMark(marks: seq<bool>, h: int, selected: bool): (r: seq<bool>)
    ensures |r| == |marks|
    ensures forall g :: 0 <= g < |marks| ==> r[g] == (if g == h then selected else marks[g])
  {
    if 0 <= h < |marks| then marks[h := selected] else marks
  }

  class MainGraphic {
    /** The configuration object. */
    var conf: UiConfig
    /** Mask flags of the token wrapper's two token lists. */
    var maskA: seq<bool>
    var maskB: seq<bool>
    /** Active mark of the layer checkbox for layer d, at index d - 1. */
    var layerActive: seq<bool>
    /** Selected mark of the rectangles of head h, at index h. */
    var headMarks: seq<bool>
    /** The disabled attribute of the context and embedding search buttons. */
    var searchDisabled: bool

    /** The search buttons are in step with the configuration: every handler
        that changes the head set or the token refreshes them. */
    ghost predicate Valid()
      reads this
    {
      searchDisabled == SearchingDisabled(conf)
    }

    /** Not a step of the source: it sets up an orchestrator whose
        configuration, token masks and drawn head marks are given, with no
        layer checkbox drawn yet and the search buttons in step with the
        configuration. */
    constructor (c: UiConfig, a: seq<bool>, b: seq<bool>, marks: seq<bool>)
      ensures conf == c && maskA == a && maskB == b
      ensures layerActive == [] && headMarks == marks && searchDisabled == SearchingDisabled(c)
      ensures Valid()
    {
      conf, maskA, maskB := c, a, b;
      layerActive := [];
      headMarks := marks;
      searchDisabled := SearchingDisabled(c);
    }

    /** `_searchDisabler`. */
    method SearchDisabler()
      modifies this
      ensures searchDisabled == SearchingDisabled(conf) && Valid()
      ensures conf == old(conf) && maskA == old(maskA) && maskB == old(maskB)
      ensures layerActive == old(layerActive) && headMarks == old(headMarks)
    {
      searchDisabled := SearchingDisabled(conf);
    }

    /** The pass of `initLayers` over the checkboxes `_.range(1, n + 1)`:
        a checkbox is active when it shows the current layer; when none did
        by the time the checkbox of layer n is reached, n becomes the current
        layer and its checkbox the active one. With n >= 1 the checkboxes are
        1..n and exactly one ends up active: the current layer's when it was
        in range, otherwise layer n's. A negative n makes lodash count down
        from 1, so the checkboxes are 1, 0, ..., n + 2 and the layer stays. */
    method InitLayers(n: int)
      modifies this
      ensures old(Valid()) ==> Valid()
      ensures |layerActive| == |LayerRange(n)|
      ensures forall i :: 0 <= i < |layerActive| ==> (layerActive[i] <==> LayerRange(n)[i] == conf.layer)
      ensures n >= 1 ==> |layerActive| == n
      ensures n >= 1 ==> 1 <= conf.layer <= n && layerActive[conf.layer - 1]
      ensures n >= 1 ==> forall i :: 0 <= i < n ==> (layerActive[i] <==> i + 1 == conf.layer)
      ensures 1 <= old(conf.layer) <= n ==> conf.layer == old(conf.layer)
      ensures !(1 <= old(conf.layer) <= n) && n >= 1 ==> conf.layer == n
      ensures n < 1 ==> conf.layer == old(conf.layer)
      ensures conf == old(conf).(layer := conf.layer)
      ensures maskA == old(maskA) && maskB == old(maskB)
      ensures headMarks == old(headMarks) && searchDisabled == old(searchDisabled)
    {
      var checkboxes := LayerRange(n);
      var hasActive := false;
      layerActive := [];
      var k := 0;
      while k < |checkboxes|
        invariant 0 <= k <= |checkboxes|
        invariant |layerActive| == k
        invariant hasActive <==> conf.layer in checkboxes[..k]
        invariant forall i :: 0 <= i < k ==> (layerActive[i] <==> checkboxes[i] == conf.layer)
        invariant conf == old(conf).(layer := conf.layer)
        invariant conf.layer != old(conf.layer) ==> 1 <= n && conf.layer == n && k == |checkboxes|
        invariant 1 <= n && k == |checkboxes| ==> hasActive
        invariant conf.layer != old(conf.layer) ==> !(1 <= old(conf.layer) <= n)
        invariant maskA == old(maskA) && maskB == old(maskB)
        invariant headMarks == old(headMarks) && searchDisabled == old(searchDisabled)
      {
        var d := checkboxes[k];
        assert checkboxes[..k + 1] == checkboxes[..k] + [d];
        var active := false;
        if d == conf.layer {
          hasActive := true;
          active := true;
        } else if !hasActive && d == n {
          assert checkboxes[..k] == LodashRange(1, k + 1);
          LodashRangeMembers(1, k + 1, conf.layer);
          conf := conf.(layer := d);
          hasActive := true;
          active := true;
        }
        layerActive := layerActive + [active];
        k := k + 1;
      }
      assert checkboxes[..k] == checkboxes;
      LodashRangeMembers(1, n + 1, old(conf.layer));
    }

    /** The loop closing `renderAttHead` over the heads `_.range(0, nHeads)`:
        every visited head is marked selected exactly when it is in the head
        set, and marks of other heads are left alone. With nHeads >= 0 the
        visited heads are 0..nHeads-1; a negative nHeads makes lodash count
        down from 0, and of the heads visited only head 0 has rectangles. */
    method RenderAttHead()
      modifies this
      ensures old(Valid()) ==> Valid()
      ensures |headMarks| == |old(headMarks)|
      ensures forall h :: 0 <= h < |headMarks| ==>
                headMarks[h] == if h in HeadRange(conf.nHeads) then h in conf.heads else old(headMarks[h])
      ensures forall h :: 0 <= h < |headMarks| ==>
                (h in HeadRange(conf.nHeads) <==> h < conf.nHeads || (conf.nHeads < 0 && h == 0))
      ensures MarksAgree(headMarks, conf.heads, conf.nHeads)
      ensures conf == old(conf) && maskA == old(maskA) && maskB == old(maskB)
      ensures layerActive == old(layerActive) && searchDisabled == old(searchDisabled)
    {
      var heads := HeadRange(conf.nHeads);
      var k := 0;
      while k < |heads|
        invariant 0 <= k <= |heads|
        invariant |headMarks| == |old(headMarks)|
        invariant forall g :: 0 <= g < |headMarks| ==>
                    headMarks[g] == if g in heads[..k] then g in conf.heads else old(headMarks[g])
        invariant conf == old(conf) && maskA == old(maskA) && maskB == old(maskB)
        invariant layerActive == old(layerActive) && searchDisabled == old(searchDisabled)
      {
        var h := heads[k];
        assert heads[..k + 1] == heads[..k] + [h];
        if h in conf.heads {
          headMarks := SetMark(headMarks, h, true);
        } else {
          headMarks := SetMark(headMarks, h, false);
        }
        k := k + 1;
      }
      assert heads[..k] == heads;
      forall h | 0 <= h < |headMarks|
        ensures h in heads <==> h < conf.nHeads || (conf.nHeads < 0 && h == 0)
      {
        LodashRangeMembers(0, conf.nHeads, h);
      }
    }

    /** The head-box click handler: toggles head `h` in the head set, marks
        exactly that head selected when it was added and unselected when it
        was removed, and refreshes the search buttons. A view that agreed
        with the head set still agrees after the click. */
    method BoxClick(h: int)
      modifies this
      ensures Valid()
      ensures h in conf.heads <==> h !in old(conf.heads)
      ensures forall g :: g != h ==> (g in conf.heads <==> g in old(conf.heads))
      ensures conf == old(conf).(heads := conf.heads)
      ensures |headMarks| == |old(headMarks)|
      ensures 0 <= h < |headMarks| ==> headMarks[h] == (h in conf.heads)
      ensures forall g :: 0 <= g < |headMarks| && g != h ==> headMarks[g] == old(headMarks[g])
      ensures old(MarksAgree(headMarks, conf.heads, conf.nHeads)) ==>
                MarksAgree(headMarks, conf.heads, conf.nHeads)
      ensures searchDisabled == SearchingDisabled(conf)
      ensures maskA == old(maskA) && maskB == old(maskB) && layerActive == old(layerActive)
    {
      var (heads, result) := ToggleHead(conf.heads, h);
      conf := conf.(heads := heads);
      if result == Added {
        headMarks := SetMark(headMarks, h, true);
      } else if result == Removed {
        headMarks := SetMark(headMarks, h, false);
      }
      SearchDisabler();
    }

    /** The "select all heads" button: every head 0..nHeads-1 becomes
        selected, the search buttons are refreshed and the head marks
        redrawn, so every drawn head ends up marked selected. */
    method SelectAllHeads()
      modifies this
      ensures Valid()
      ensures conf == old(conf).(heads := conf.heads)
      ensures forall h :: h in conf.heads <==> 0 <= h < conf.nHeads
      ensures searchDisabled <==> IsNullToken(conf.token) || conf.nHeads <= 0
      ensures forall h :: 0 <= h < |headMarks| && h < conf.nHeads ==> headMarks[h]
      ensures forall h :: 0 <= h < |headMarks| && h in HeadRange(conf.nHeads) ==>
                headMarks[h] == (h in conf.heads)
      ensures MarksAgree(headMarks, conf.heads, conf.nHeads)
      ensures |headMarks| == |old(headMarks)|
      ensures forall h :: 0 <= h < |headMarks| && h !in HeadRange(conf.nHeads) ==>
                headMarks[h] == old(headMarks[h])
      ensures maskA == old(maskA) && maskB == old(maskB) && layerActive == old(layerActive)
    {
      conf := conf.(heads := AllHeads(conf.nHeads));
      SearchDisabler();
      RenderAttHead();
    }

    /** The "select no heads" button: the head set is emptied, which disables
        searching, and every drawn head is marked unselected. */
    method SelectNoHeads()
      modifies this
      ensures Valid()
      ensures conf == old(conf).(heads := {})
      ensures searchDisabled
      ensures forall h :: 0 <= h < |headMarks| && h in HeadRange(conf.nHeads) ==> !headMarks[h]
      ensures forall h :: 0 <= h < |headMarks| && h < conf.nHeads ==> !headMarks[h]
      ensures |headMarks| == |old(headMarks)|
      ensures forall h :: 0 <= h < |headMarks| && h !in HeadRange(conf.nHeads) ==>
                headMarks[h] == old(headMarks[h])
      ensures maskA == old(maskA) && maskB == old(maskB) && layerActive == old(layerActive)
    {
      conf := conf.(heads := {});
      SearchDisabler();
      RenderAttHead();
    }

    /** The token double-click handler: a bidirectional model flips the mask
        flag of the clicked token in the token list `letter` addresses and
        asks for the attention recomputed under the first list's mask; an
        autoregressive model, or a model of no known kind, changes nothing. */
    method TokenDblClick(letter: Letter, ind: int) returns (req: Option<AttentionRequest>)
      modifies this
      ensures old(Valid()) ==> Valid()
      ensures old(conf.modelKind) == Some(Bidirectional) ==>
                maskA == (if letter == A then ToggleMask(old(maskA), ind) else old(maskA)) &&
                maskB == (if letter == B then ToggleMask(old(maskB), ind) else old(maskB)) &&
                req == Some(MaskedAttentions(conf.model, maskA, conf.sentence, conf.layer))
      ensures old(conf.modelKind) != Some(Bidirectional) ==>
                maskA == old(maskA) && maskB == old(maskB) && req.None?
      ensures conf == old(conf) && layerActive == old(layerActive)
      ensures headMarks == old(headMarks) && searchDisabled == old(searchDisabled)
    {
      match conf.modelKind {
        case Some(Bidirectional) =>
          if letter == A {
            maskA := ToggleMask(maskA, ind);
          } else {
            maskB := ToggleMask(maskB, ind);
          }
          req := Some(MaskedAttentions(conf.model, maskA, conf.sentence, conf.layer));
        case Some(Autoregressive) =>
          req := None;
        case None =>
          req := None;
      }
    }

    /** The model selector's change handler: stores the new model name and
        the kind the table gives it, then starts the reload by asking for
        that model's details. The layer, heads, mask and token are not reset
        here; the reload re-runs `InitLayers` once the details arrive. */
    method SelectModel(name: string) returns (req: AttentionRequest)
      modifies this
      ensures old(Valid()) ==> Valid()
      ensures req == ModelDetails(name)
      ensures conf == old(conf).(model := name, modelKind := ModelTable.KindOf(name))
      ensures maskA == old(maskA) && maskB == old(maskB) && layerActive == old(layerActive)
      ensures headMarks == old(headMarks) && searchDisabled == old(searchDisabled)
    {
      conf := conf.(model := name, modelKind := ModelTable.KindOf(name));
      req := ModelDetails(conf.model);
    }

    /** The first step of a (re)load once the model's details arrive: store
        the layer and head counts, run the layer pass, and ask for the
        attention of the current sentence at the resulting layer. With at
        least one layer, exactly one checkbox is active and the layer lies
        in 1..nLayers: kept when it was in range, nLayers otherwise. */
    method ApplyModelDetails(nLayers: int, nHeads: int) returns (req: AttentionRequest)
      modifies this
      ensures old(Valid()) ==> Valid()
      ensures conf.nLayers == nLayers && conf.nHeads == nHeads
      ensures conf == old(conf).(nLayers := nLayers, nHeads := nHeads, layer := conf.layer)
      ensures |layerActive| == |LayerRange(nLayers)|
      ensures forall i :: 0 <= i < |layerActive| ==> (layerActive[i] <==> LayerRange(nLayers)[i] == conf.layer)
      ensures nLayers >= 1 ==> |layerActive| == nLayers
      ensures nLayers >= 1 ==> 1 <= conf.layer <= nLayers && layerActive[conf.layer - 1]
      ensures nLayers >= 1 ==> forall i :: 0 <= i < nLayers ==> (layerActive[i] <==> i + 1 == conf.layer)
      ensures 1 <= old(conf.layer) <= nLayers ==> conf.layer == old(conf.layer)
      ensures !(1 <= old(conf.layer) <= nLayers) && nLayers >= 1 ==> conf.layer == nLayers
      ensures nLayers < 1 ==> conf.layer == old(conf.layer)
      ensures req == MetaAttentions(conf.model, conf.sentence, conf.layer)
      ensures maskA == old(maskA) && maskB == old(maskB)
      ensures headMarks == old(headMarks) && searchDisabled == old(searchDisabled)
    {
      conf := conf.(nLayers := nLayers, nHeads := nHeads);
      InitLayers(conf.nLayers);
      req := MetaAttentions(conf.model, conf.sentence, conf.layer);
    }
  }
}
