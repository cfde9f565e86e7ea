# monaco-vue: shared-model ledger and editor synchronization channels

This project models two small pieces of state-keeping logic that sit around the Monaco editor engine in monaco-vue. It then proves properties of that model in Dafny.

- **Shared-model reference ledger** (`model_tracker.dfy`, module `ModelTracking`). The module-wide `modelUsage` map counts, per model id, how many `ModelTracker`s use that model. It is modelled by class `Ledger`, one object shared by every tracker. Each `ModelTracker` keeps its own set of model objects. `add` registers a model once per tracker. `disposeModels` unregisters every model in the set and disposes a model when its entry is gone. The set is keyed by object (`usedModels: seq<Model>`, duplicate-free, in insertion order, as a JavaScript `Set` iterates). The ledger is keyed by `Model.id`. The engine's `model.dispose()` is recorded in the counter `Model.disposeCalls`. The pure functions `Registered`, `Unregistered`, `CanDispose`, `Added`, `Release` and `ReleaseInOrder` specify the class methods. The lemmas about those functions carry the properties that span several calls and several trackers.
- **Editor synchronization channels** (`engine.dfy`, `value_binding.dfy`, `language_binding.dfy`, `theme_binding.dfy`, `marker_binding.dfy`). Each `use*` function becomes a class. The class holds the function's cell (`valueRef`, `languageRef`, `markersRef`), the editor its listeners are open on, and ghost logs:
  - the listeners opened and disposed;
  - the engine writes (`setEditorValue`, `setModelLanguage`, `setTheme`);
  - the callback invocations.

  Each watch callback and each engine listener is one method. The method receives the values the callback sees: whether the engine handle is present, the editor handle, the external value, and the editor's text or model. `Engine.Live` replays a listener log. The value, language and marker channels keep the invariant `Live(listeners) == Listed(listening)`: at most one listener set is open, and only on the current editor.

## Model

| member | source | states |
|---|---|---|
| `ModelTracking.Registered` | packages/monaco-vue/src/model_tracker.ts:33-36 | the id's count becomes its previous count plus one (one if absent); every other id keeps its count; stored counts stay at least 1 |
| `ModelTracking.Unregistered` | packages/monaco-vue/src/model_tracker.ts:41-50 | a count above 1 is stored minus one; a count of 1 or an absent entry leaves the id with no entry; other ids are untouched; no key is added; stored counts stay at least 1 |
| `ModelTracking.CanDispose` | packages/monaco-vue/src/model_tracker.ts:52-55 | on a ledger whose stored counts are all at least 1, true exactly when the id has no entry |
| `ModelTracking.Ledger.constructor` | packages/monaco-vue/src/model_tracker.ts:5-6 | the module-wide ledger starts empty and valid |
| `ModelTracking.Ledger.Register` | packages/monaco-vue/src/model_tracker.ts:33-36 | `registerModel` leaves the ledger as `Registered` says and keeps it valid |
| `ModelTracking.Ledger.Unregister` | packages/monaco-vue/src/model_tracker.ts:41-50 | `unregisterModel` leaves the ledger as `Unregistered` says and keeps it valid |
| `ModelTracking.Ledger.CanDisposeModel` | packages/monaco-vue/src/model_tracker.ts:52-55 | true exactly when the model's id has no ledger entry |
| `ModelTracking.Added` | packages/monaco-vue/src/model_tracker.ts:16-20 | after `add` the model is in the set and the set gains nothing else; the set stays duplicate-free; the id's count rises by one only if the model was not already held; other ids keep their counts |
| `ModelTracking.ModelTracker.constructor` | packages/monaco-vue/src/model_tracker.ts:14 | a tracker starts with an empty set on the shared ledger |
| `ModelTracking.ModelTracker.Add` | packages/monaco-vue/src/model_tracker.ts:16-20 | the new ledger and set are exactly `Added` of the old ones, so a second `add` of the same model changes nothing |
| `ModelTracking.ModelTracker.DisposeModels` | packages/monaco-vue/src/model_tracker.ts:22-27 | the ledger becomes `Release` of the old ledger over the set, in iteration order; each model of the set is disposed once if `Release` disposes it, otherwise not at all; the set is left as it was |
| `ModelTracking.Model.Dispose` | packages/monaco-vue/src/model_tracker.ts:25 | the engine's `model.dispose()`: the model's count of dispose calls rises by one |
| `ModelTracking.Release` | packages/monaco-vue/src/model_tracker.ts:22-27 | the loop of `disposeModels` as a function: it disposes only models of the set, no more of them than the set holds, and adds no ledger entry |
| `ModelTracking.ReleaseInOrder` | packages/monaco-vue/src/model_tracker.ts:22-27 | successive `disposeModels` calls of several trackers on one ledger: one list of disposed models per call |
| `ModelTracking.SharedDocumentScenario` | packages/monaco-vue/src/model_tracker.ts:16-27 | two trackers add "doc1" (one of them twice): the first `disposeModels` leaves it undisposed, the second disposes it exactly once |
| `ModelTracking.ReleaseCounts` | packages/monaco-vue/src/model_tracker.ts:22-27 | one release lowers each id's count by the number of the set's models with that id, never below zero, and keeps stored counts at least 1 |
| `ModelTracking.ReleaseDisposes` | packages/monaco-vue/src/model_tracker.ts:22-27 | when the set's ids are distinct, a release disposes a model of the set exactly when its count was at most 1, disposes each at most once, and disposes nothing outside the set |
| `ModelTracking.AddKeepsAccounted` | packages/monaco-vue/src/model_tracker.ts:16-20 | if each id's count equals the number of (tracker, model) registrations with that id, an `add` on any tracker keeps this so |
| `ModelTracking.CountIsHolders` | packages/monaco-vue/src/model_tracker.ts:5-6 | in such an accounted ledger, when no tracker holds two models with one id, an id's count is the number of trackers holding a model with that id |
| `ModelTracking.LastReleaseDisposes` | packages/monaco-vue/src/model_tracker.ts:5-27 | trackers whose holders of a shared model equal its count, released one after another in any order: the model is disposed by the release of the last tracker that holds it and by no other; its count ends at zero |
| `ModelTracking.RepeatedReleaseDisposesSharedModel` | packages/monaco-vue/src/model_tracker.ts:22-27 | `disposeModels` does not empty the set: a tracker that releases twice disposes a model another tracker still holds, and that tracker's release disposes it again |
| `Engine.HandoverKeepsOneListener` | packages/monaco-vue/src/bindings.ts:14-26 | a watch run disposes the previous run's listener before opening one on a present editor, so the only open listener is on the current editor |
| `ValueBinding.ValueChannel.constructor` | packages/monaco-vue/src/bindings.ts:12 | `valueRef` starts as the empty string; nothing is open, written or reported |
| `ValueBinding.ValueChannel.EditorChanged` | packages/monaco-vue/src/bindings.ts:14-26 | the old content listener is disposed; a present editor gets a new one; the cell, writes and reports are untouched |
| `ValueBinding.ValueChannel.ContentChanged` | packages/monaco-vue/src/bindings.ts:17-23 | text equal to `valueRef`, or an event from a disposed listener: nothing changes and nothing is reported; otherwise `valueRef` becomes the text and the event is reported once |
| `ValueBinding.ValueChannel.InputsChanged` | packages/monaco-vue/src/bindings.ts:28-36 | an absent engine or editor handle, or a value equal to `valueRef`: nothing written and `valueRef` unchanged; otherwise `valueRef` takes the value and exactly one `setEditorValue` is issued |
| `ValueBinding.ValueChannel.Dispose` | packages/monaco-vue/src/bindings.ts:25 | the open content listener is disposed when the channel's scope ends |
| `ValueBinding.OwnWriteIsNotEchoed` | packages/monaco-vue/src/bindings.ts:17-35 | after an external write of a value, a content-change event whose text is that value reports nothing |
| `ValueBinding.ValueWrittenOnMount` | packages/monaco-vue/src/bindings.ts:28-36 | any number of values set while both handles are absent write nothing and leave `valueRef` as it was; when both handles are present, the current value is written exactly once if it differs from that `valueRef`, and not at all if it equals it |
| `LanguageBinding.LanguageChannel.constructor` | packages/monaco-vue/src/bindings.ts:50 | `languageRef` starts as the getter's value at setup |
| `LanguageBinding.LanguageChannel.InputsChanged` | packages/monaco-vue/src/bindings.ts:52-57 | `languageRef` always takes the external language; `setModelLanguage` is issued once exactly when both handles are present |
| `LanguageBinding.LanguageChannel.HandlesChanged` | packages/monaco-vue/src/bindings.ts:59-78 | the previous listener pair is disposed; a new pair is opened only when both handles are present |
| `LanguageBinding.LanguageChannel.ModelChanged` | packages/monaco-vue/src/bindings.ts:62-68 | an absent new model: nothing changes and nothing is reported; otherwise `languageRef` becomes the new model's own language id and that id is reported with the event |
| `LanguageBinding.LanguageChannel.LanguageChanged` | packages/monaco-vue/src/bindings.ts:69-72 | `languageRef` becomes the event's new language, which is reported with the event |
| `LanguageBinding.LanguageChannel.Dispose` | packages/monaco-vue/src/bindings.ts:74-77 | the open listener pair is disposed when the channel's scope ends |
| `LanguageBinding.LanguageAppliedWhenEngineArrives` | packages/monaco-vue/src/bindings.ts:52-68 | a language set while the engine is absent is applied once when it arrives; a later model replacement reports the new model's language, not the applied one |
| `ThemeBinding.ThemeChannel.Run` | packages/monaco-vue/src/bindings.ts:83-89 | `setTheme` is issued with the current theme exactly when the engine handle is present |
| `MarkerBinding.HasMarkerChanges` | packages/monaco-vue/src/bindings.ts:103 | true exactly when some changed URI has the same path as the editor's model URI |
| `MarkerBinding.MarkerChannel.constructor` | packages/monaco-vue/src/bindings.ts:92 | the snapshot starts empty |
| `MarkerBinding.MarkerChannel.HandlesChanged` | packages/monaco-vue/src/bindings.ts:94-111 | the previous marker listener is disposed; a new one is opened only when both handles are present; the snapshot is untouched |
| `MarkerBinding.MarkerChannel.MarkersChanged` | packages/monaco-vue/src/bindings.ts:99-108 | no model URI, or no changed URI with the model's path: the snapshot is unchanged; otherwise it is replaced wholesale by the engine's markers for the model URI |
| `MarkerBinding.MarkerChannel.Dispose` | packages/monaco-vue/src/bindings.ts:110 | the open marker listener is disposed when the channel's scope ends |

## Behaviour of the code worth knowing

- The value watch observes only the engine handle, the editor handle and the value (packages/monaco-vue/src/bindings.ts:28). The change callback gets the event, not the text (line 10).
- `disposeModels` has no try/catch around `dispose` (packages/monaco-vue/src/model_tracker.ts:23-26).
- `disposeModels` never clears the tracker's set, so a second call releases every model again. `RepeatedReleaseDisposesSharedModel` shows the effect. Callers must release a tracker once, on unmount.

## Left out

- Vue scheduling: the batching and timing of `watch`, `watchEffect` and `onCleanup`. `watch` does not run at setup; `watchEffect` does. Several source changes in one tick give one run. Each run is an explicit method call with the values it sees. Which calls happen in which order is up to the caller of the model.
- `setEditorValue` lives in `./monaco`, which is not part of this model. `setModelLanguage`, `setTheme`, `getModelMarkers` and `model.dispose()` are calls into the engine. The first three are recorded in ghost logs. `getModelMarkers` is the function parameter `markersOf`. `dispose` increments the counter `Model.disposeCalls`.
- Synchronous re-entrancy of the engine: `setEditorValue` can fire the content listener before it returns. The model has the listener run as a separate call after the write (`OwnWriteIsNotEchoed`). It also has no reaction of the engine to `setModelLanguage`.
- The engine's events and markers are plain values. `Marker` and the event datatypes carry a few fields that the code passes through untouched.
- LanguageBinding.LanguageChannel.InputsChanged: `editor.getModel()!` at packages/monaco-vue/src/bindings.ts:56 is not modelled. The write is recorded against the editor, and what the engine does with a missing model is not captured.
- MarkerBinding.MarkerChannel.MarkersChanged: the snapshot is a value. The shallow reference that observers compare by identity is not modelled.
- An exception thrown by `dispose` would abort the rest of the loop in `disposeModels`. The model assumes `dispose` returns.
- Engine model ids are taken to be unique per model object. `ReleaseDisposes`, `CountIsHolders` and `LastReleaseDisposes` state this in their requires clauses (distinct ids within a tracker's set, one object per id).
- Counts are unbounded integers. JavaScript numbers hold any count that can occur here exactly.
- packages/monaco-vue/src/context.ts and model_context.ts (Vue provide/inject wrappers that throw on missing context), index.ts (re-exports) and vite.config.ts (build configuration) are not part of this model.
