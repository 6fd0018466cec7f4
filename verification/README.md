# View parameters of the Audiveris score viewer, in Dafny

This project models `ViewParameters`, the shared set of display toggles of the
Audiveris user interface. It has fifteen named parameters:

- thirteen booleans, such as `errorPainting`, `markPainting` and `staffLinePainting`;
- the painting layer, one of `INPUT`, `INPUT_OUTPUT` and `OUTPUT`;
- the selection mode, one of `MODE_GLYPH`, `MODE_INTER` and `MODE_SECTION`.

Nine booleans are backed by persisted `Constant.Boolean` entries of the
`Constants` set. The other six parameters are plain session-only fields.
Every setter writes its parameter and fires a property-change event
`(propertyName, oldValue, newValue)`. Two actions, `switchLayers` and
`switchSelections`, move an enumerated parameter to the next value in
declaration order, wrapping around.

Files:

- `cyclic.dfy`, module `Cyclic`: the generic "next value" rule
  `values()[(ordinal + 1) % length]` over any ordered list of variants without
  repetitions, and its cycle properties. Switching `length` times returns to
  the start, and on the way every variant is visited exactly once.
- `view_parameters.dfy`, module `ViewParameters`: the two enumerations, the
  parameter names, kinds, defaults and persistence tags, and the state record.
  It also holds the getters, the fifteen setters and the two switch actions.
  The state record `ViewParams` keeps the persisted booleans in a nested
  `Constants` record. In the source these live in one static `ConstantSet`
  shared by every instance; the model holds the single instance's view of it,
  and `NewInstance(c)` builds an instance over whatever the set `c` holds.
- `view_parameters_lemmas.dfy`, module `ViewParametersLemmas`: properties that
  relate several operations. These are the layer predicates, undoing a setter,
  the period of the switches, the persistence split and two start-up scenarios.

Modelling choices:

- A setter is a pure function. It returns a `Transition`: the new state and
  the `ChangeEvent` it fires.
- The promise shared by all setters is the predicate `Updated(s, p, v, r)`.
  It says three things. The getter of `p` now returns `v`. The event is
  `(Name(p), previous value, v)`. Every other getter returns what it returned
  before.
- Persistence is only a tag, `PersistenceOf`, together with the placement of
  the field in `Constants`.

Facts about the code that shape the model:

- There are fifteen typed setters and two dedicated switch actions. No setter
  checks or rejects its argument, so the model has no error results
  (ViewParameters.java:352-497, 507-555).
- Every setter calls `firePropertyChange` unconditionally, also when the new
  value equals the old one (ViewParameters.java:352-497).
- Thirteen of the fifteen parameters are booleans; nine of them are persisted
  constants (ViewParameters.java:186-202, 741-781).

## Model

| member | source | states |
|---|---|---|
| Cyclic.IndexOf | src/main/org/audiveris/omr/ui/ViewParameters.java:511 | The ordinal of a variant is a valid position holding that variant, and no earlier position holds it. |
| Cyclic.SuccIndex | src/main/org/audiveris/omr/ui/ViewParameters.java:512 | The next ordinal `(ordinal + 1) % length` is one more, or 0 after the last variant. |
| Cyclic.Next | src/main/org/audiveris/omr/ui/ViewParameters.java:511-513 | The next value is in the list. It is the variant one position further on, or the first variant when the current one is the last. |
| Cyclic.Iterate | src/main/org/audiveris/omr/ui/ViewParameters.java:511-513 | The value after k successive switches is still a variant of the list. |
| Cyclic.NextAt | src/main/org/audiveris/omr/ui/ViewParameters.java:511-513 | In a list without repetitions, the successor of position j is position j+1, or position 0 after the last. |
| Cyclic.IterateIndex | src/main/org/audiveris/omr/ui/ViewParameters.java:511-513 | After k switches, with k at most the length, the value is the one k positions further on, wrapping once. |
| Cyclic.CyclePeriod | src/main/org/audiveris/omr/ui/ViewParameters.java:511-513 | Switching as many times as there are variants returns to the starting variant. |
| Cyclic.CycleVisitsOnce | src/main/org/audiveris/omr/ui/ViewParameters.java:511-513 | Fewer switches than the number of variants never reach the same variant twice. |
| Cyclic.CycleVisitsAll | src/main/org/audiveris/omr/ui/ViewParameters.java:511-513 | Every variant is reached after fewer switches than the number of variants. |
| ViewParameters.LayerValuesComplete | src/main/org/audiveris/omr/ui/ViewParameters.java:108-117 | `PaintingLayer.values()` lists every layer. |
| ViewParameters.LayerValuesDistinct | src/main/org/audiveris/omr/ui/ViewParameters.java:108-117 | `PaintingLayer.values()` lists no layer twice. |
| ViewParameters.ModeValuesComplete | src/main/org/audiveris/omr/ui/ViewParameters.java:147-153 | `SelectionMode.values()` lists every selection mode. |
| ViewParameters.ModeValuesDistinct | src/main/org/audiveris/omr/ui/ViewParameters.java:147-153 | `SelectionMode.values()` lists no selection mode twice. |
| ViewParameters.LayerOrdinal | src/main/org/audiveris/omr/ui/ViewParameters.java:108-117 | A layer's ordinal is its position in INPUT, INPUT_OUTPUT, OUTPUT. |
| ViewParameters.ModeOrdinal | src/main/org/audiveris/omr/ui/ViewParameters.java:147-153 | A mode's ordinal is its position in MODE_GLYPH, MODE_INTER, MODE_SECTION. |
| ViewParameters.NextLayer | src/main/org/audiveris/omr/ui/ViewParameters.java:511-513 | The ordinal rule gives INPUT to INPUT_OUTPUT, INPUT_OUTPUT to OUTPUT, and OUTPUT back to INPUT. |
| ViewParameters.NextMode | src/main/org/audiveris/omr/ui/ViewParameters.java:540-542 | The ordinal rule gives MODE_GLYPH to MODE_INTER, MODE_INTER to MODE_SECTION, and MODE_SECTION back to MODE_GLYPH. |
| ViewParameters.NamesDistinct | src/main/org/audiveris/omr/ui/ViewParameters.java:59-102 | The fifteen property-name strings are pairwise distinct. |
| ViewParameters.ParamNamed | src/main/org/audiveris/omr/ui/ViewParameters.java:59-102 | A name maps to a parameter carrying that name, or to nothing when no parameter carries it. |
| ViewParameters.ParamNamedRoundTrip | src/main/org/audiveris/omr/ui/ViewParameters.java:59-102 | Every parameter is registered, and looking up its property name yields that parameter back. |
| ViewParameters.Default | src/main/org/audiveris/omr/ui/ViewParameters.java:746-780 | The table of declared defaults, the constants' defaults here and the session fields' initializers at lines 186-202; each has the parameter's type. |
| ViewParameters.Name | src/main/org/audiveris/omr/ui/ViewParameters.java:59-102 | The table of the fifteen property-name constants. NamesDistinct and ParamNamedRoundTrip state what it guarantees. |
| ViewParameters.PersistenceOf | src/main/org/audiveris/omr/ui/ViewParameters.java:186-202 | Which parameters are the session-only fields declared here and which are the persisted `Constants` entries of lines 741-781; a persisted parameter is a boolean. |
| ViewParameters.PersistedAreBooleans | src/main/org/audiveris/omr/ui/ViewParameters.java:186-202 | A parameter that is not a boolean, that is the layer or the selection mode, is session-only. |
| ViewParameters.Get | src/main/org/audiveris/omr/ui/ViewParameters.java:216-347 | Every getter returns a value of its parameter's declared type. |
| ViewParameters.DeclaredConstants | src/main/org/audiveris/omr/ui/ViewParameters.java:741-781 | While the constant set holds its declared defaults, every persisted getter returns its registered default. |
| ViewParameters.NewInstance | src/main/org/audiveris/omr/ui/ViewParameters.java:186-202 | A new instance reads the shared constants unchanged, and each session-only getter returns its initializer: voice false, error true, layer INPUT, mode MODE_GLYPH, staff line true, staff peak false. |
| ViewParameters.Initial | src/main/org/audiveris/omr/ui/ViewParameters.java:186-202 | A new instance over the declared constants answers every getter with its registered default. |
| ViewParameters.IsInputPainting | src/main/org/audiveris/omr/ui/ViewParameters.java:256-259 | Input is painted exactly when the layer is one of the first two in declaration order (ordinal at most 1). |
| ViewParameters.IsOutputPainting | src/main/org/audiveris/omr/ui/ViewParameters.java:296-299 | Output is painted exactly when the layer is one of the last two in declaration order (ordinal at least 1). |
| ViewParameters.Put | src/main/org/audiveris/omr/ui/ViewParameters.java:352-497 | The field write of a setter. Writing a session-only parameter leaves the constants alone; writing a persisted one changes only the constants. |
| ViewParameters.GetPut | src/main/org/audiveris/omr/ui/ViewParameters.java:352-497 | After a field write, the written parameter reads the new value and every other parameter reads its old value. |
| ViewParameters.PutFrame | src/main/org/audiveris/omr/ui/ViewParameters.java:352-497 | A field write gives set-then-get, and every other parameter is unchanged. |
| ViewParameters.SetAnnotationPainting | src/main/org/audiveris/omr/ui/ViewParameters.java:352-357 | `isAnnotationPainting` returns the value. The event is ("annotationPainting", old, value). Nothing else changes. |
| ViewParameters.SetAttachmentPainting | src/main/org/audiveris/omr/ui/ViewParameters.java:362-367 | `isAttachmentPainting` returns the value. The event is ("attachmentPainting", old, value). Nothing else changes. |
| ViewParameters.SetErrorPainting | src/main/org/audiveris/omr/ui/ViewParameters.java:372-377 | `isErrorPainting` returns the value. The event is ("errorPainting", old, value). Nothing else changes. |
| ViewParameters.SetInvalidSheetDisplay | src/main/org/audiveris/omr/ui/ViewParameters.java:382-387 | `isInvalidSheetDisplay` returns the value. The event is ("invalidSheetDisplay", old, value). Nothing else changes. |
| ViewParameters.SetLetterBoxPainting | src/main/org/audiveris/omr/ui/ViewParameters.java:392-397 | `isLetterBoxPainting` returns the value. The event is ("letterBoxPainting", old, value). Nothing else changes. |
| ViewParameters.SetLinePainting | src/main/org/audiveris/omr/ui/ViewParameters.java:402-407 | `isLinePainting` returns the value. The event is ("linePainting", old, value). Nothing else changes. |
| ViewParameters.SetMarkPainting | src/main/org/audiveris/omr/ui/ViewParameters.java:412-417 | `isMarkPainting` returns the value. The event is ("markPainting", old, value). Nothing else changes. |
| ViewParameters.SetPaintingLayer | src/main/org/audiveris/omr/ui/ViewParameters.java:422-427 | `getPaintingLayer` returns the value. The event is ("layerPainting", old, value). Nothing else changes. |
| ViewParameters.SetSelectionMode | src/main/org/audiveris/omr/ui/ViewParameters.java:432-437 | `getSelectionMode` returns the value. The event is ("selectionMode", old, value). Nothing else changes. |
| ViewParameters.SetSentencePainting | src/main/org/audiveris/omr/ui/ViewParameters.java:442-447 | `isSentencePainting` returns the value. The event is ("sentencePainting", old, value). Nothing else changes. |
| ViewParameters.SetSlotPainting | src/main/org/audiveris/omr/ui/ViewParameters.java:452-457 | `isSlotPainting` returns the value. The event is ("slotPainting", old, value). Nothing else changes. |
| ViewParameters.SetStaffLinePainting | src/main/org/audiveris/omr/ui/ViewParameters.java:462-467 | `isStaffLinePainting` returns the value. The event is ("staffLinePainting", old, value). Nothing else changes. |
| ViewParameters.SetStaffPeakPainting | src/main/org/audiveris/omr/ui/ViewParameters.java:472-477 | `isStaffPeakPainting` returns the value. The event is ("staffPeakPainting", old, value). Nothing else changes. |
| ViewParameters.SetTranslationPainting | src/main/org/audiveris/omr/ui/ViewParameters.java:482-487 | `isTranslationPainting` returns the value. The event is ("translationPainting", old, value). Nothing else changes. |
| ViewParameters.SetVoicePainting | src/main/org/audiveris/omr/ui/ViewParameters.java:492-497 | `isVoicePainting` returns the value. The event is ("voicePainting", old, value). Nothing else changes. |
| ViewParameters.SwitchLayers | src/main/org/audiveris/omr/ui/ViewParameters.java:507-526 | Only the layer changes, to its successor, whose ordinal is (old ordinal + 1) mod 3. One "layerPainting" event is fired. |
| ViewParameters.SwitchSelections | src/main/org/audiveris/omr/ui/ViewParameters.java:536-555 | Only the selection mode changes, to its successor, whose ordinal is (old ordinal + 1) mod 3. One "selectionMode" event is fired. |
| ViewParametersLemmas.LayerPredicates | src/main/org/audiveris/omr/ui/ViewParameters.java:256-299 | Input or output painting always holds, and both hold exactly for INPUT_OUTPUT. The two answers determine the layer. |
| ViewParametersLemmas.PersistedGettersDetermineConstants | src/main/org/audiveris/omr/ui/ViewParameters.java:741-781 | The nine persisted getters observe the whole `Constants` set. |
| ViewParametersLemmas.GettersDetermineState | src/main/org/audiveris/omr/ui/ViewParameters.java:216-347 | Two states with equal getters are equal, so the getters observe the whole state. |
| ViewParametersLemmas.UpdatedIsDeterministic | src/main/org/audiveris/omr/ui/ViewParameters.java:352-497 | The setter promise fixes the resulting state and event uniquely. |
| ViewParametersLemmas.UndoRestores | src/main/org/audiveris/omr/ui/ViewParameters.java:352-497 | Setting a parameter and then setting it back to its old value restores the whole state. The second event reverses the first. |
| ViewParametersLemmas.EventIdentifiesParam | src/main/org/audiveris/omr/ui/ViewParameters.java:60-102 | The name in a setter's event denotes exactly the parameter that changed, and no other. |
| ViewParametersLemmas.PersistenceTiers | src/main/org/audiveris/omr/ui/ViewParameters.java:186-202 | Session-only parameters do not depend on the persisted constants. Persisted parameters depend on the constants alone. |
| ViewParametersLemmas.SwitchLayersCycle | src/main/org/audiveris/omr/ui/ViewParameters.java:507-526 | Three `switchLayers` restore the state and pass through three distinct layers. Each fires a "layerPainting" event. |
| ViewParametersLemmas.SwitchSelectionsCycle | src/main/org/audiveris/omr/ui/ViewParameters.java:536-555 | Three `switchSelections` restore the state and pass through three distinct modes. Each fires a "selectionMode" event. |
| ViewParametersLemmas.SwitchLayersTimes | src/main/org/audiveris/omr/ui/ViewParameters.java:507-526 | Repeated `switchLayers` changes nothing but the layer. |
| ViewParametersLemmas.SwitchSelectionsTimes | src/main/org/audiveris/omr/ui/ViewParameters.java:536-555 | Repeated `switchSelections` changes nothing but the selection mode. |
| ViewParametersLemmas.SwitchLayersStep | src/main/org/audiveris/omr/ui/ViewParameters.java:511-525 | If the first j layer switches follow the generic ordinal rule, so does switch j+1. |
| ViewParametersLemmas.SwitchSelectionsStep | src/main/org/audiveris/omr/ui/ViewParameters.java:540-554 | If the first j selection switches follow the generic ordinal rule, so does switch j+1. |
| ViewParametersLemmas.SwitchLayersIterate | src/main/org/audiveris/omr/ui/ViewParameters.java:511-525 | k layer switches move the layer k times by the generic ordinal rule over `PaintingLayer.values()`. |
| ViewParametersLemmas.SwitchSelectionsIterate | src/main/org/audiveris/omr/ui/ViewParameters.java:540-554 | k selection switches move the mode k times by the generic ordinal rule over `SelectionMode.values()`. |
| ViewParametersLemmas.SwitchLayersPeriod | src/main/org/audiveris/omr/ui/ViewParameters.java:507-526 | Three `switchLayers` restore the whole state. |
| ViewParametersLemmas.SwitchLayersVisitOnce | src/main/org/audiveris/omr/ui/ViewParameters.java:507-526 | Fewer than three `switchLayers` never show the same layer twice. |
| ViewParametersLemmas.SwitchLayersVisitAll | src/main/org/audiveris/omr/ui/ViewParameters.java:507-526 | Every layer shows up within fewer than three `switchLayers`. |
| ViewParametersLemmas.SwitchSelectionsPeriod | src/main/org/audiveris/omr/ui/ViewParameters.java:536-555 | Three `switchSelections` restore the whole state. |
| ViewParametersLemmas.SwitchSelectionsVisitOnce | src/main/org/audiveris/omr/ui/ViewParameters.java:536-555 | Fewer than three `switchSelections` never show the same mode twice. |
| ViewParametersLemmas.SwitchSelectionsVisitAll | src/main/org/audiveris/omr/ui/ViewParameters.java:536-555 | Every mode shows up within fewer than three `switchSelections`. |
| ViewParametersLemmas.ErrorPaintingScenario | src/main/org/audiveris/omr/ui/ViewParameters.java:372-377 | On a fresh instance, `setErrorPainting(false)` fires ("errorPainting", true, false), and the getter then returns false. |
| ViewParametersLemmas.LayerSwitchScenario | src/main/org/audiveris/omr/ui/ViewParameters.java:511-525 | From a fresh instance, three layer switches give INPUT_OUTPUT, then OUTPUT, then INPUT. |

## Left out

- ViewParametersLemmas.LayerPredicates: Java enum references may be `null`, and the model's layers cannot. After `setPaintingLayer(null)` both `isInputPainting` and `isOutputPainting` return false, so "input or output is always painted" holds only for the non-null layers the model has.
- ViewParameters.SetPaintingLayer, ViewParameters.SetSelectionMode: a `null` argument is accepted by the source and stored; the next `switchLayers` or `switchSelections` then fails with a `NullPointerException` when it asks for the ordinal. The model's arguments are always one of the three variants, so this failure is not represented.
- ViewParameters.Initial: it assumes the shared constant set still holds its declared defaults. In the source the persisted values come from the backing store, which may hold user values, and the set is static, so an earlier instance's writes are visible to a new one. `NewInstance(c)` covers the general case for any constants `c`.
- Icons: `PaintingLayer.getIcon` and `SelectionMode.getIcon` load and cache Swing icons through resource maps. These are UI resources outside the parameter state; how a failure to load them affects the switch actions is stated under `ViewParameters.SwitchLayers` below.
- ViewParameters.SwitchLayers, ViewParameters.SwitchSelections: before calling the setter (ViewParameters.java:525 and 554), each action looks up its `ApplicationAction` through `ActionManager` and puts the new value's icon on it (516-522 and 545-551). Any of these steps can throw: `getIcon` needs a running application and the icon resource, and a null action makes `putValue` throw. The action then stops with the layer or mode unchanged and no event fired. The model assumes these lookups succeed, so its switches always move and always fire. The `ActionEvent` argument is unused by the code.
- The `toggleX` actions are left out. They are annotated with `selectedProperty` and have empty bodies, so their behaviour lies in the application framework.
- Listener registration and event delivery are left out. `firePropertyChange` comes from the inherited `AbstractBean`, which is not part of this model. The model returns the event a setter fires. It says nothing about suppressing events whose old and new values are equal, or about listener order.
- Persistence is left out except as a tag. Reading, writing and durability of the `Constant.Boolean` backing store belong to `ConstantSet`, which is not part of this model. For the same reason, a value written to a constant is assumed to read back unchanged. Some setters build the event from the re-read constant rather than from their argument (annotation, mark and slot). The model takes both to be the written value.
- The `Holder` singleton, the logger and any concurrency are left out. The model is one value passed explicitly.
