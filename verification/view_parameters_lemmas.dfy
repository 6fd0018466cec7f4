/**
Properties of the view parameters that relate several operations: the layer
predicates, undoing a setter, the period of the two switch actions, the
persisted/session split, and the two start-up scenarios of the viewer.
*/
module ViewParametersLemmas {
  import opened ViewParameters

  /**
  The two layer predicates describe the layer completely: something is always
  painted, both predicates hold only for the union layer, and the pair of
  answers determines the layer.
  */
  lemma LayerPredicates(s: ViewParams, s': ViewParams)
    ensures IsInputPainting(s) || IsOutputPainting(s)
    ensures IsInputPainting(s) && IsOutputPainting(s) <==> s.paintingLayer == InputOutput
    ensures IsInputPainting(s) == IsInputPainting(s') && IsOutputPainting(s) == IsOutputPainting(s')
            ==> s.paintingLayer == s'.paintingLayer
  {
  }

  /** Two states whose getters all agree are the same state: the getters observe everything. */
  lemma GettersDetermineState(s: ViewParams, t: ViewParams)
    requires forall p: Param :: Get(s, p) == Get(t, p)
    ensures s == t
  {
    PersistedGettersDetermineConstants(s, t);
    assert Get(s, Voice) == Get(t, Voice);
    assert Get(s, Error) == Get(t, Error);
    assert Get(s, Layer) == Get(t, Layer);
    assert Get(s, Selection) == Get(t, Selection);
    assert Get(s, StaffLine) == Get(t, StaffLine);
    assert Get(s, StaffPeak) == Get(t, StaffPeak);
  }

  /** Two states whose persisted getters agree hold the same constants. */
  lemma PersistedGettersDetermineConstants(s: ViewParams, t: ViewParams)
    requires forall p: Param :: PersistenceOf(p) == Persisted ==> Get(s, p) == Get(t, p)
    ensures s.constants == t.constants
  {
    assert Get(s, Annotation) == Get(t, Annotation);
    assert Get(s, Slot) == Get(t, Slot);
    assert Get(s, Mark) == Get(t, Mark);
    assert Get(s, InvalidSheet) == Get(t, InvalidSheet);
    assert Get(s, LetterBox) == Get(t, LetterBox);
    assert Get(s, Line) == Get(t, Line);
    assert Get(s, Attachment) == Get(t, Attachment);
    assert Get(s, Translation) == Get(t, Translation);
    assert Get(s, Sentence) == Get(t, Sentence);
    ConstantsFromGetters(s, t);
  }

  /** The nine persisted getters, one by one, observe every field of the constants. */
  lemma ConstantsFromGetters(s: ViewParams, t: ViewParams)
    requires Get(s, Annotation) == Get(t, Annotation)
    requires Get(s, Slot) == Get(t, Slot)
    requires Get(s, Mark) == Get(t, Mark)
    requires Get(s, InvalidSheet) == Get(t, InvalidSheet)
    requires Get(s, LetterBox) == Get(t, LetterBox)
    requires Get(s, Line) == Get(t, Line)
    requires Get(s, Attachment) == Get(t, Attachment)
    requires Get(s, Translation) == Get(t, Translation)
    requires Get(s, Sentence) == Get(t, Sentence)
    ensures s.constants == t.constants
  {
  }

  /**
  A setter's promise pins down the resulting state: two results that both
  keep it for the same parameter and value are equal.
  */
  lemma UpdatedIsDeterministic(s: ViewParams, p: Param, v: Value, r1: Transition, r2: Transition)
    requires Updated(s, p, v, r1) && Updated(s, p, v, r2)
    ensures r1 == r2
  {
    forall q: Param
      ensures Get(r1.state, q) == Get(r2.state, q)
    {
    }
    GettersDetermineState(r1.state, r2.state);
  }

  /** Setting a parameter back to the value it had before restores the whole state. */
  lemma UndoRestores(s: ViewParams, p: Param, v: Value, r1: Transition, r2: Transition)
    requires Updated(s, p, v, r1)
    requires Updated(r1.state, p, Get(s, p), r2)
    ensures r2.state == s
    ensures r2.event == ChangeEvent(Name(p), v, Get(s, p))
  {
    forall q: Param
      ensures Get(r2.state, q) == Get(s, q)
    {
    }
    GettersDetermineState(r2.state, s);
  }

  /** Every event a setter fires names exactly the parameter it changed. */
  lemma EventIdentifiesParam(s: ViewParams, p: Param, v: Value, r: Transition)
    requires Updated(s, p, v, r)
    ensures ParamNamed(r.event.name) == Some(p)
    ensures forall q: Param :: Name(q) == r.event.name ==> q == p
  {
    ParamNamedRoundTrip(p);
    forall q: Param | Name(q) == r.event.name
      ensures q == p
    {
      NamesDistinct(p, q);
    }
  }

  /**
  Session-only parameters are untouched by whatever the persisted constants
  hold, and persisted parameters are read from the constants alone.
  */
  lemma PersistenceTiers(s: ViewParams, t: ViewParams, p: Param)
    ensures PersistenceOf(p) == SessionOnly ==> Get(s.(constants := t.constants), p) == Get(s, p)
    ensures PersistenceOf(p) == Persisted && s.constants == t.constants ==> Get(s, p) == Get(t, p)
  {
  }

  /**
  `switchLayers` goes Input, InputOutput, Output and back: three switches
  restore the state, the three layers on the way are pairwise distinct, and
  every switch fires one `layerPainting` event.
  */
  lemma SwitchLayersCycle(s: ViewParams)
    ensures var r1 := SwitchLayers(s);
            var r2 := SwitchLayers(r1.state);
            var r3 := SwitchLayers(r2.state);
            && r3.state == s
            && s.paintingLayer != r1.state.paintingLayer
            && r1.state.paintingLayer != r2.state.paintingLayer
            && s.paintingLayer != r2.state.paintingLayer
            && r1.event.name == r2.event.name == r3.event.name == "layerPainting"
  {
  }

  /**
  `switchSelections` goes ModeGlyph, ModeInter, ModeSection and back: three
  switches restore the state, the three modes on the way are pairwise
  distinct, and every switch fires one `selectionMode` event.
  */
  lemma SwitchSelectionsCycle(s: ViewParams)
    ensures var r1 := SwitchSelections(s);
            var r2 := SwitchSelections(r1.state);
            var r3 := SwitchSelections(r2.state);
            && r3.state == s
            && s.selectionMode != r1.state.selectionMode
            && r1.state.selectionMode != r2.state.selectionMode
            && s.selectionMode != r2.state.selectionMode
            && r1.event.name == r2.event.name == r3.event.name == "selectionMode"
  {
  }

  /** The state after `k` successive `switchLayers` actions. */
  function SwitchLayersTimes(s: ViewParams, k: nat): (t: ViewParams)
    ensures t.(paintingLayer := s.paintingLayer) == s
  {
    if k == 0 then s else SwitchLayers(SwitchLayersTimes(s, k - 1)).state
  }

  /** The state after `k` successive `switchSelections` actions. */
  function SwitchSelectionsTimes(s: ViewParams, k: nat): (t: ViewParams)
    ensures t.(selectionMode := s.selectionMode) == s
  {
    if k == 0 then s else SwitchSelections(SwitchSelectionsTimes(s, k - 1)).state
  }

  /**
  One more `switchLayers` is one more step of the generic "next value" rule:
  if the first `j` switches follow it, so do the first `j + 1`.
  */
  lemma SwitchLayersStep(s: ViewParams, j: nat)
    requires s.paintingLayer in LayerValues
    requires SwitchLayersTimes(s, j).paintingLayer == Cyclic.Iterate(LayerValues, s.paintingLayer, j)
    ensures SwitchLayersTimes(s, j + 1).paintingLayer == Cyclic.Iterate(LayerValues, s.paintingLayer, j + 1)
  {
    var t := SwitchLayersTimes(s, j);
    assert SwitchLayersTimes(s, j + 1) == SwitchLayers(t).state;
    assert Get(SwitchLayers(t).state, Layer) == LayerValue(NextLayer(t.paintingLayer));
    assert Cyclic.Iterate(LayerValues, s.paintingLayer, j + 1) == Cyclic.Next(LayerValues, t.paintingLayer);
  }

  /**
  One more `switchSelections` is one more step of the generic "next value" rule:
  if the first `j` switches follow it, so do the first `j + 1`.
  */
  lemma SwitchSelectionsStep(s: ViewParams, j: nat)
    requires s.selectionMode in ModeValues
    requires SwitchSelectionsTimes(s, j).selectionMode == Cyclic.Iterate(ModeValues, s.selectionMode, j)
    ensures SwitchSelectionsTimes(s, j + 1).selectionMode == Cyclic.Iterate(ModeValues, s.selectionMode, j + 1)
  {
    var t := SwitchSelectionsTimes(s, j);
    assert SwitchSelectionsTimes(s, j + 1) == SwitchSelections(t).state;
    assert Get(SwitchSelections(t).state, Selection) == ModeValue(NextMode(t.selectionMode));
    assert Cyclic.Iterate(ModeValues, s.selectionMode, j + 1) == Cyclic.Next(ModeValues, t.selectionMode);
  }

  /** `k` successive `switchLayers` follow the generic "next value" rule over `PaintingLayer.values()` `k` times. */
  lemma {:induction false} SwitchLayersIterate(s: ViewParams, k: nat)
    ensures s.paintingLayer in LayerValues
    ensures SwitchLayersTimes(s, k).paintingLayer == Cyclic.Iterate(LayerValues, s.paintingLayer, k)
  {
    LayerValuesComplete(s.paintingLayer);
    if k > 0 {
      var j: nat := k - 1;
      SwitchLayersIterate(s, j);
      SwitchLayersStep(s, j);
    }
  }

  /** `k` successive `switchSelections` follow the generic "next value" rule over `SelectionMode.values()` `k` times. */
  lemma {:induction false} SwitchSelectionsIterate(s: ViewParams, k: nat)
    ensures s.selectionMode in ModeValues
    ensures SwitchSelectionsTimes(s, k).selectionMode == Cyclic.Iterate(ModeValues, s.selectionMode, k)
  {
    ModeValuesComplete(s.selectionMode);
    if k > 0 {
      var j: nat := k - 1;
      SwitchSelectionsIterate(s, j);
      SwitchSelectionsStep(s, j);
    }
  }

  /** `switchLayers` has period three: as many switches as there are layers restore the whole state. */
  lemma SwitchLayersPeriod(s: ViewParams)
    ensures SwitchLayersTimes(s, |LayerValues|) == s
  {
    LayerValuesDistinct();
    SwitchLayersIterate(s, |LayerValues|);
    Cyclic.CyclePeriod(LayerValues, s.paintingLayer);
  }

  /** Fewer `switchLayers` than there are layers never show the same layer twice. */
  lemma SwitchLayersVisitOnce(s: ViewParams, j: nat, k: nat)
    requires j < k < |LayerValues|
    ensures SwitchLayersTimes(s, j).paintingLayer != SwitchLayersTimes(s, k).paintingLayer
  {
    LayerValuesDistinct();
    SwitchLayersIterate(s, j);
    SwitchLayersIterate(s, k);
    Cyclic.CycleVisitsOnce(LayerValues, s.paintingLayer, j, k);
  }

  /** Every layer shows up after fewer `switchLayers` than there are layers. */
  lemma SwitchLayersVisitAll(s: ViewParams, l: PaintingLayer)
    ensures exists n: nat :: n < |LayerValues| && SwitchLayersTimes(s, n).paintingLayer == l
  {
    LayerValuesComplete(l);
    LayerValuesDistinct();
    LayerValuesComplete(s.paintingLayer);
    Cyclic.CycleVisitsAll(LayerValues, s.paintingLayer, l);
    var n: nat :| n < |LayerValues| && Cyclic.Iterate(LayerValues, s.paintingLayer, n) == l;
    SwitchLayersIterate(s, n);
  }

  /** `switchSelections` has period three: as many switches as there are modes restore the whole state. */
  lemma SwitchSelectionsPeriod(s: ViewParams)
    ensures SwitchSelectionsTimes(s, |ModeValues|) == s
  {
    ModeValuesDistinct();
    SwitchSelectionsIterate(s, |ModeValues|);
    Cyclic.CyclePeriod(ModeValues, s.selectionMode);
  }

  /** Fewer `switchSelections` than there are modes never show the same mode twice. */
  lemma SwitchSelectionsVisitOnce(s: ViewParams, j: nat, k: nat)
    requires j < k < |ModeValues|
    ensures SwitchSelectionsTimes(s, j).selectionMode != SwitchSelectionsTimes(s, k).selectionMode
  {
    ModeValuesDistinct();
    SwitchSelectionsIterate(s, j);
    SwitchSelectionsIterate(s, k);
    Cyclic.CycleVisitsOnce(ModeValues, s.selectionMode, j, k);
  }

  /** Every mode shows up after fewer `switchSelections` than there are modes. */
  lemma SwitchSelectionsVisitAll(s: ViewParams, m: SelectionMode)
    ensures exists n: nat :: n < |ModeValues| && SwitchSelectionsTimes(s, n).selectionMode == m
  {
    ModeValuesComplete(m);
    ModeValuesDistinct();
    ModeValuesComplete(s.selectionMode);
    Cyclic.CycleVisitsAll(ModeValues, s.selectionMode, m);
    var n: nat :| n < |ModeValues| && Cyclic.Iterate(ModeValues, s.selectionMode, n) == m;
    SwitchSelectionsIterate(s, n);
  }

  /**
  Turning error painting off on a fresh instance fires
  `("errorPainting", true, false)` once, and the getter then answers false.
  */
  lemma ErrorPaintingScenario()
    ensures var r := SetErrorPainting(Initial(), false);
            && r.event == ChangeEvent("errorPainting", BoolValue(true), BoolValue(false))
            && !r.state.errorPainting
  {
  }

  /** From a fresh instance, three layer switches show InputOutput, then Output, then Input. */
  lemma LayerSwitchScenario()
    ensures var r1 := SwitchLayers(Initial());
            var r2 := SwitchLayers(r1.state);
            var r3 := SwitchLayers(r2.state);
            && r1.state.paintingLayer == InputOutput
            && r2.state.paintingLayer == Output
            && r3.state.paintingLayer == Input
  {
  }
}
