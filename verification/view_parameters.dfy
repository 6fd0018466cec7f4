/**
The view parameters of the music-score viewer: fifteen named display toggles
(thirteen booleans, a painting layer and a selection mode), each setter
returning the new parameter state together with the property-change event
`(propertyName, oldValue, newValue)` it fires.

Nine booleans are backed by persisted constants, the other six parameters
live only for the session; persistence is represented by a tag only.
*/
module ViewParameters {
  import Cyclic

  //------------------------------------------------------------------------
  // Enumerations
  //------------------------------------------------------------------------

  /** Layers to be painted: the input image or glyphs, the output score entities, or both. */
  datatype PaintingLayer = Input | InputOutput | Output

  /** Kind of entity the user selects. */
  datatype SelectionMode = ModeGlyph | ModeInter | ModeSection

  /** `PaintingLayer.values()`, in declaration order. */
  const LayerValues: seq<PaintingLayer> := [Input, InputOutput, Output]

  /** `SelectionMode.values()`, in declaration order. */
  const ModeValues: seq<SelectionMode> := [ModeGlyph, ModeInter, ModeSection]

  /** `values()` lists every layer. */
  lemma LayerValuesComplete(l: PaintingLayer)
    ensures l in LayerValues
  {
  }

  /** `values()` lists no layer twice. */
  lemma LayerValuesDistinct()
    ensures Cyclic.Distinct(LayerValues)
  {
  }

  /** `values()` lists every selection mode. */
  lemma ModeValuesComplete(m: SelectionMode)
    ensures m in ModeValues
  {
  }

  /** `values()` lists no selection mode twice. */
  lemma ModeValuesDistinct()
    ensures Cyclic.Distinct(ModeValues)
  {
  }

  /** Java's `ordinal()` of a layer: its position in `values()`. */
  function LayerOrdinal(l: PaintingLayer): (i: nat)
    ensures i < |LayerValues| && LayerValues[i] == l
  {
    LayerValuesComplete(l);
    Cyclic.IndexOf(LayerValues, l)
  }

  /** Java's `ordinal()` of a selection mode: its position in `values()`. */
  function ModeOrdinal(m: SelectionMode): (i: nat)
    ensures i < |ModeValues| && ModeValues[i] == m
  {
    ModeValuesComplete(m);
    Cyclic.IndexOf(ModeValues, m)
  }

  /** The layer `switchLayers` moves to: `values()[(ordinal + 1) % length]`. */
  function NextLayer(l: PaintingLayer): (r: PaintingLayer)
    ensures l == Input ==> r == InputOutput
    ensures l == InputOutput ==> r == Output
    ensures l == Output ==> r == Input
  {
    LayerValuesComplete(l);
    LayerValuesDistinct();
    Cyclic.IndexOfDistinct(LayerValues, LayerOrdinal(l));
    Cyclic.Next(LayerValues, l)
  }

  /** The mode `switchSelections` moves to: `values()[(ordinal + 1) % length]`. */
  function NextMode(m: SelectionMode): (r: SelectionMode)
    ensures m == ModeGlyph ==> r == ModeInter
    ensures m == ModeInter ==> r == ModeSection
    ensures m == ModeSection ==> r == ModeGlyph
  {
    ModeValuesComplete(m);
    ModeValuesDistinct();
    Cyclic.IndexOfDistinct(ModeValues, ModeOrdinal(m));
    Cyclic.Next(ModeValues, m)
  }

  //------------------------------------------------------------------------
  // Parameters and their registration data
  //------------------------------------------------------------------------

  /** The fifteen view parameters. */
  datatype Param =
    | Annotation | Mark | Slot | Layer | Selection | Voice | Error | InvalidSheet
    | LetterBox | StaffLine | StaffPeak | Line | Attachment | Translation | Sentence

  const AllParams: seq<Param> :=
    [Annotation, Mark, Slot, Layer, Selection, Voice, Error, InvalidSheet,
     LetterBox, StaffLine, StaffPeak, Line, Attachment, Translation, Sentence]

  lemma AllParamsListed()
    ensures forall p: Param :: p in AllParams
  {
    forall p: Param
      ensures p in AllParams
    {
      match p
      case Annotation => assert AllParams[0] == p;
      case Mark => assert AllParams[1] == p;
      case Slot => assert AllParams[2] == p;
      case Layer => assert AllParams[3] == p;
      case Selection => assert AllParams[4] == p;
      case Voice => assert AllParams[5] == p;
      case Error => assert AllParams[6] == p;
      case InvalidSheet => assert AllParams[7] == p;
      case LetterBox => assert AllParams[8] == p;
      case StaffLine => assert AllParams[9] == p;
      case StaffPeak => assert AllParams[10] == p;
      case Line => assert AllParams[11] == p;
      case Attachment => assert AllParams[12] == p;
      case Translation => assert AllParams[13] == p;
      case Sentence => assert AllParams[14] == p;
    }
  }

  /** The property name under which a parameter's change events are fired. */
  function Name(p: Param): string {
    match p
    case Annotation => "annotationPainting"
    case Mark => "markPainting"
    case Slot => "slotPainting"
    case Layer => "layerPainting"
    case Selection => "selectionMode"
    case Voice => "voicePainting"
    case Error => "errorPainting"
    case InvalidSheet => "invalidSheetDisplay"
    case LetterBox => "letterBoxPainting"
    case StaffLine => "staffLinePainting"
    case StaffPeak => "staffPeakPainting"
    case Line => "linePainting"
    case Attachment => "attachmentPainting"
    case Translation => "translationPainting"
    case Sentence => "sentencePainting"
  }

  datatype Option<T> = None | Some(value: T)

  /** The parameter a property name denotes, if any: the first in `AllParams` carrying it. */
  function ParamNamed(name: string): (r: Option<Param>)
    ensures r.Some? ==> Name(r.value) == name
    ensures r.None? ==> forall p: Param :: Name(p) != name
  {
    AllParamsListed();
    FirstNamed(AllParams, name)
  }

  function FirstNamed(ps: seq<Param>, name: string): (r: Option<Param>)
    ensures r.Some? ==> r.value in ps && Name(r.value) == name
    ensures r.None? ==> forall p | p in ps :: Name(p) != name
  {
    if ps == [] then None
    else if Name(ps[0]) == name then Some(ps[0])
    else
      assert ps == [ps[0]] + ps[1..];
      FirstNamed(ps[1..], name)
  }

  datatype Kind = BooleanKind | LayerKind | ModeKind

  /** Declared type of each parameter. */
  function KindOf(p: Param): Kind {
    match p
    case Layer => LayerKind
    case Selection => ModeKind
    case _ => BooleanKind
  }

  datatype Persistence = Persisted | SessionOnly

  /** Which parameters are backed by a persisted constant and which live only for the session. */
  function PersistenceOf(p: Param): (r: Persistence)
    ensures r == Persisted ==> KindOf(p) == BooleanKind
  {
    match p
    case Annotation | Slot | Mark | InvalidSheet | LetterBox
      | Line | Attachment | Translation | Sentence => Persisted
    case Voice | Error | Layer | Selection | StaffLine | StaffPeak => SessionOnly
  }

  datatype Value = BoolValue(b: bool) | LayerValue(layer: PaintingLayer) | ModeValue(mode: SelectionMode)

  function KindOfValue(v: Value): Kind {
    match v
    case BoolValue(_) => BooleanKind
    case LayerValue(_) => LayerKind
    case ModeValue(_) => ModeKind
  }

  /** Value each parameter holds when the application starts (the constant's default for persisted ones). */
  function Default(p: Param): (v: Value)
    ensures KindOfValue(v) == KindOf(p)
  {
    match p
    case Voice => BoolValue(false)
    case Error => BoolValue(true)
    case Layer => LayerValue(Input)
    case Selection => ModeValue(ModeGlyph)
    case StaffLine => BoolValue(true)
    case StaffPeak => BoolValue(false)
    case Annotation => BoolValue(true)
    case Slot => BoolValue(true)
    case Mark => BoolValue(true)
    case InvalidSheet => BoolValue(true)
    case LetterBox => BoolValue(true)
    case Line => BoolValue(false)
    case Attachment => BoolValue(false)
    case Translation => BoolValue(true)
    case Sentence => BoolValue(true)
  }

  /** The property names are pairwise distinct, so an event names a single parameter. */
  lemma NamesDistinct(p: Param, q: Param)
    ensures Name(p) == Name(q) ==> p == q
  {
  }

  /** Every parameter is registered once, and its name leads back to it. */
  lemma {:induction false} ParamNamedRoundTrip(p: Param)
    ensures p in AllParams
    ensures ParamNamed(Name(p)) == Some(p)
  {
    var r := ParamNamed(Name(p));
    assert r.Some?;
    NamesDistinct(p, r.value);
  }

  /** Only booleans are persisted: both enumerated parameters are session-only. */
  lemma PersistedAreBooleans(p: Param)
    ensures KindOf(p) != BooleanKind ==> PersistenceOf(p) == SessionOnly
  {
  }

  //------------------------------------------------------------------------
  // Parameter state, accessors, setters
  //------------------------------------------------------------------------

  /** The persisted booleans, each backed by a `Constant.Boolean` of the `Constants` set. */
  datatype Constants = Constants(
    annotationPainting: bool,
    slotPainting: bool,
    markPainting: bool,
    invalidSheetDisplay: bool,
    letterBoxPainting: bool,
    linePainting: bool,
    attachmentPainting: bool,
    translationPainting: bool,
    sentencePainting: bool)

  /** Current value of every parameter: the persisted constants and the session-only fields. */
  datatype ViewParams = ViewParams(
    constants: Constants,
    voicePainting: bool,
    errorPainting: bool,
    paintingLayer: PaintingLayer,
    selectionMode: SelectionMode,
    staffLinePainting: bool,
    staffPeakPainting: bool)

  /**
  `isInputPainting()`: whether the input (image or glyphs) is painted, that is
  whether the layer is one of the first two in declaration order.
  */
  function IsInputPainting(s: ViewParams): (b: bool)
    ensures b <==> LayerOrdinal(s.paintingLayer) <= 1
  {
    s.paintingLayer == Input || s.paintingLayer == InputOutput
  }

  /**
  `isOutputPainting()`: whether the output (score entities) is painted, that
  is whether the layer is one of the last two in declaration order.
  */
  function IsOutputPainting(s: ViewParams): (b: bool)
    ensures b <==> LayerOrdinal(s.paintingLayer) >= 1
  {
    s.paintingLayer == InputOutput || s.paintingLayer == Output
  }

  /** A property-change notification `(propertyName, oldValue, newValue)`. */
  datatype ChangeEvent = ChangeEvent(name: string, oldValue: Value, newValue: Value)

  /** The state after an operation and the event the operation fires. */
  datatype Transition = Transition(state: ViewParams, event: ChangeEvent)

  /** Reads parameter `p` through its getter (`isX()` or `getX()`). */
  function Get(s: ViewParams, p: Param): (v: Value)
    ensures KindOfValue(v) == KindOf(p)
  {
    match p
    case Annotation => BoolValue(s.constants.annotationPainting)
    case Mark => BoolValue(s.constants.markPainting)
    case Slot => BoolValue(s.constants.slotPainting)
    case Layer => LayerValue(s.paintingLayer)
    case Selection => ModeValue(s.selectionMode)
    case Voice => BoolValue(s.voicePainting)
    case Error => BoolValue(s.errorPainting)
    case InvalidSheet => BoolValue(s.constants.invalidSheetDisplay)
    case LetterBox => BoolValue(s.constants.letterBoxPainting)
    case StaffLine => BoolValue(s.staffLinePainting)
    case StaffPeak => BoolValue(s.staffPeakPainting)
    case Line => BoolValue(s.constants.linePainting)
    case Attachment => BoolValue(s.constants.attachmentPainting)
    case Translation => BoolValue(s.constants.translationPainting)
    case Sentence => BoolValue(s.constants.sentencePainting)
  }

  /**
  The declared defaults of the persisted constants: what the shared constant
  set holds while no user value has been stored or written.
  */
  function DeclaredConstants(): (c: Constants)
    ensures forall p: Param | PersistenceOf(p) == Persisted :: Get(NewInstance(c), p) == Default(p)
  {
    Constants(
      annotationPainting := true,
      slotPainting := true,
      markPainting := true,
      invalidSheetDisplay := true,
      letterBoxPainting := true,
      linePainting := false,
      attachmentPainting := false,
      translationPainting := true,
      sentencePainting := true)
  }

  /**
  A newly constructed instance. The persisted parameters are read from the
  constant set `c`, which every instance shares; the session-only fields start
  at their initializers.
  */
  function NewInstance(c: Constants): (s: ViewParams)
    ensures s.constants == c
    ensures forall p: Param | PersistenceOf(p) == SessionOnly :: Get(s, p) == Default(p)
  {
    ViewParams(
      constants := c,
      voicePainting := false,
      errorPainting := true,
      paintingLayer := Input,
      selectionMode := ModeGlyph,
      staffLinePainting := true,
      staffPeakPainting := false)
  }

  /** A new instance while the constant set still holds its declared defaults. */
  function Initial(): (s: ViewParams)
    ensures forall p: Param :: Get(s, p) == Default(p)
  {
    NewInstance(DeclaredConstants())
  }

  /**
  The promise every setter keeps: the getter of `p` now returns `v`, the event
  is `(name of p, previous value, v)`, and every other parameter is unchanged.
  */
  predicate Updated(s: ViewParams, p: Param, v: Value, r: Transition) {
    && Get(r.state, p) == v
    && r.event == ChangeEvent(Name(p), Get(s, p), v)
    && OthersUnchanged(s, r.state, p)
  }

  /** Every parameter other than `p` reads the same in `t` as in `s`. */
  predicate OthersUnchanged(s: ViewParams, t: ViewParams, p: Param) {
    forall q: Param :: q != p ==> Get(t, q) == Get(s, q)
  }

  /** Writes `v` into the field backing parameter `p` (the body of `p`'s setter). */
  function Put(s: ViewParams, p: Param, v: Value): (t: ViewParams)
    requires KindOfValue(v) == KindOf(p)
    ensures PersistenceOf(p) == SessionOnly ==> t.constants == s.constants
    ensures PersistenceOf(p) == Persisted ==> t.(constants := s.constants) == s
  {
    var c := s.constants;
    match p
    case Annotation => s.(constants := c.(annotationPainting := v.b))
    case Slot => s.(constants := c.(slotPainting := v.b))
    case Mark => s.(constants := c.(markPainting := v.b))
    case InvalidSheet => s.(constants := c.(invalidSheetDisplay := v.b))
    case LetterBox => s.(constants := c.(letterBoxPainting := v.b))
    case Line => s.(constants := c.(linePainting := v.b))
    case Attachment => s.(constants := c.(attachmentPainting := v.b))
    case Translation => s.(constants := c.(translationPainting := v.b))
    case Sentence => s.(constants := c.(sentencePainting := v.b))
    case Voice => s.(voicePainting := v.b)
    case Error => s.(errorPainting := v.b)
    case Layer => s.(paintingLayer := v.layer)
    case Selection => s.(selectionMode := v.mode)
    case StaffLine => s.(staffLinePainting := v.b)
    case StaffPeak => s.(staffPeakPainting := v.b)
  }

  /** Reading any parameter after a write: the written one yields the new value, all others their old one. */
  lemma GetPut(s: ViewParams, p: Param, v: Value, q: Param)
    requires KindOfValue(v) == KindOf(p)
    ensures Get(Put(s, p, v), q) == if q == p then v else Get(s, q)
  {
  }

  /** A write keeps the setter promise for the state: set-then-get, and nothing else changes. */
  lemma PutFrame(s: ViewParams, p: Param, v: Value)
    requires KindOfValue(v) == KindOf(p)
    ensures Get(Put(s, p, v), p) == v
    ensures OthersUnchanged(s, Put(s, p, v), p)
  {
    GetPut(s, p, v, p);
    forall q: Param | q != p
      ensures Get(Put(s, p, v), q) == Get(s, q)
    {
      GetPut(s, p, v, q);
    }
  }

  // The fifteen setters `setX(value)`: each writes its own field and fires
  // `(X_NAME, previous value, value)`.

  function SetAnnotationPainting(s: ViewParams, value: bool): (r: Transition)
    ensures Updated(s, Annotation, BoolValue(value), r)
  {
    var v := BoolValue(value);
    PutFrame(s, Annotation, v);
    Transition(Put(s, Annotation, v), ChangeEvent(Name(Annotation), BoolValue(s.constants.annotationPainting), v))
  }

  function SetAttachmentPainting(s: ViewParams, value: bool): (r: Transition)
    ensures Updated(s, Attachment, BoolValue(value), r)
  {
    var v := BoolValue(value);
    PutFrame(s, Attachment, v);
    Transition(Put(s, Attachment, v), ChangeEvent(Name(Attachment), BoolValue(s.constants.attachmentPainting), v))
  }

  function SetErrorPainting(s: ViewParams, value: bool): (r: Transition)
    ensures Updated(s, Error, BoolValue(value), r)
  {
    var v := BoolValue(value);
    PutFrame(s, Error, v);
    Transition(Put(s, Error, v), ChangeEvent(Name(Error), BoolValue(s.errorPainting), v))
  }

  function SetInvalidSheetDisplay(s: ViewParams, value: bool): (r: Transition)
    ensures Updated(s, InvalidSheet, BoolValue(value), r)
  {
    var v := BoolValue(value);
    PutFrame(s, InvalidSheet, v);
    Transition(Put(s, InvalidSheet, v), ChangeEvent(Name(InvalidSheet), BoolValue(s.constants.invalidSheetDisplay), v))
  }

  function SetLetterBoxPainting(s: ViewParams, value: bool): (r: Transition)
    ensures Updated(s, LetterBox, BoolValue(value), r)
  {
    var v := BoolValue(value);
    PutFrame(s, LetterBox, v);
    Transition(Put(s, LetterBox, v), ChangeEvent(Name(LetterBox), BoolValue(s.constants.letterBoxPainting), v))
  }

  function SetLinePainting(s: ViewParams, value: bool): (r: Transition)
    ensures Updated(s, Line, BoolValue(value), r)
  {
    var v := BoolValue(value);
    PutFrame(s, Line, v);
    Transition(Put(s, Line, v), ChangeEvent(Name(Line), BoolValue(s.constants.linePainting), v))
  }

  function SetMarkPainting(s: ViewParams, value: bool): (r: Transition)
    ensures Updated(s, Mark, BoolValue(value), r)
  {
    var v := BoolValue(value);
    PutFrame(s, Mark, v);
    Transition(Put(s, Mark, v), ChangeEvent(Name(Mark), BoolValue(s.constants.markPainting), v))
  }

  function SetPaintingLayer(s: ViewParams, value: PaintingLayer): (r: Transition)
    ensures Updated(s, Layer, LayerValue(value), r)
  {
    var v := LayerValue(value);
    PutFrame(s, Layer, v);
    Transition(Put(s, Layer, v), ChangeEvent(Name(Layer), LayerValue(s.paintingLayer), v))
  }

  function SetSelectionMode(s: ViewParams, value: SelectionMode): (r: Transition)
    ensures Updated(s, Selection, ModeValue(value), r)
  {
    var v := ModeValue(value);
    PutFrame(s, Selection, v);
    Transition(Put(s, Selection, v), ChangeEvent(Name(Selection), ModeValue(s.selectionMode), v))
  }

  function SetSentencePainting(s: ViewParams, value: bool): (r: Transition)
    ensures Updated(s, Sentence, BoolValue(value), r)
  {
    var v := BoolValue(value);
    PutFrame(s, Sentence, v);
    Transition(Put(s, Sentence, v), ChangeEvent(Name(Sentence), BoolValue(s.constants.sentencePainting), v))
  }

  function SetSlotPainting(s: ViewParams, value: bool): (r: Transition)
    ensures Updated(s, Slot, BoolValue(value), r)
  {
    var v := BoolValue(value);
    PutFrame(s, Slot, v);
    Transition(Put(s, Slot, v), ChangeEvent(Name(Slot), BoolValue(s.constants.slotPainting), v))
  }

  function SetStaffLinePainting(s: ViewParams, value: bool): (r: Transition)
    ensures Updated(s, StaffLine, BoolValue(value), r)
  {
    var v := BoolValue(value);
    PutFrame(s, StaffLine, v);
    Transition(Put(s, StaffLine, v), ChangeEvent(Name(StaffLine), BoolValue(s.staffLinePainting), v))
  }

  function SetStaffPeakPainting(s: ViewParams, value: bool): (r: Transition)
    ensures Updated(s, StaffPeak, BoolValue(value), r)
  {
    var v := BoolValue(value);
    PutFrame(s, StaffPeak, v);
    Transition(Put(s, StaffPeak, v), ChangeEvent(Name(StaffPeak), BoolValue(s.staffPeakPainting), v))
  }

  function SetTranslationPainting(s: ViewParams, value: bool): (r: Transition)
    ensures Updated(s, Translation, BoolValue(value), r)
  {
    var v := BoolValue(value);
    PutFrame(s, Translation, v);
    Transition(Put(s, Translation, v), ChangeEvent(Name(Translation), BoolValue(s.constants.translationPainting), v))
  }

  function SetVoicePainting(s: ViewParams, value: bool): (r: Transition)
    ensures Updated(s, Voice, BoolValue(value), r)
  {
    var v := BoolValue(value);
    PutFrame(s, Voice, v);
    Transition(Put(s, Voice, v), ChangeEvent(Name(Voice), BoolValue(s.voicePainting), v))
  }

  /** Moves the painting layer one step along Input, InputOutput, Output and back to Input. */
  function SwitchLayers(s: ViewParams): (r: Transition)
    ensures Updated(s, Layer, LayerValue(NextLayer(s.paintingLayer)), r)
    ensures LayerOrdinal(r.state.paintingLayer) == (LayerOrdinal(s.paintingLayer) + 1) % |LayerValues|
  {
    SetPaintingLayer(s, NextLayer(s.paintingLayer))
  }

  /** Moves the selection mode one step along ModeGlyph, ModeInter, ModeSection and back to ModeGlyph. */
  function SwitchSelections(s: ViewParams): (r: Transition)
    ensures Updated(s, Selection, ModeValue(NextMode(s.selectionMode)), r)
    ensures ModeOrdinal(r.state.selectionMode) == (ModeOrdinal(s.selectionMode) + 1) % |ModeValues|
  {
    SetSelectionMode(s, NextMode(s.selectionMode))
  }
}
