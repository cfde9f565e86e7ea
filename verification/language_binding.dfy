/** The language channel, `useEditorLanguage` (packages/monaco-vue/src/bindings.ts):
    an external language is applied to the editor's model, and the engine's
    model replacements and language changes are reported upward. */
module LanguageBinding {
  import opened Engine

  /** The engine's "model replaced" event. */
  datatype ModelChange = ModelChange(oldModelUrl: Option<Uri>, newModelUrl: Option<Uri>)

  /** The engine's "model language changed" event. */
  datatype LanguageChange = LanguageChange(oldLanguage: string, newLanguage: string)

  /** One call of `onChangeEvent(language, event)`. */
  datatype LanguageReport =
    | ModelReplaced(language: string, modelEvent: ModelChange)
    | LanguageReplaced(language: string, languageEvent: LanguageChange)

  /** One call of `setModelLanguage` on the model of `editor`. */
  datatype LanguageWrite = LanguageWrite(editor: EditorId, language: string)

  class LanguageChannel {
    /** `languageRef`: the language last seen from either side. */
    var languageRef: string
    /** The editor both engine listeners are open on, if any. */
    var listening: Option<EditorId>
    ghost var listeners: seq<ListenerEvent>
    ghost var writes: seq<LanguageWrite>
    ghost var reported: seq<LanguageReport>

    ghost predicate Valid()
      reads this
    {
      Live(listeners) == Listed(listening)
    }

    /** The cell starts with the getter's value at setup time. */
    constructor (initial: string)
      ensures Valid()
      ensures languageRef == initial && listening == None
      ensures listeners == [] && writes == [] && reported == []
    {
      languageRef := initial;
      listening := None;
      listeners := [];
      writes := [];
      reported := [];
    }

    /** The watch on both handles and the external language: the cell always
        takes the language; the engine is told only when both handles are present. */
    method InputsChanged(monacoPresent: bool, editor: Option<EditorId>, language: string)
      requires Valid()
      modifies this
      ensures Valid()
      ensures languageRef == language
      ensures writes == old(writes) + (if monacoPresent && editor.Some? then [LanguageWrite(editor.value, language)] else [])
      ensures listening == old(listening) && listeners == old(listeners) && reported == old(reported)
    {
      languageRef := language;
      if !monacoPresent || editor.None? {
        return;
      }
      writes := writes + [LanguageWrite(editor.value, language)];
    }

    /** The watch on both handles: the previous run's cleanup disposes both
        listeners; when both handles are present, both are opened on the editor. */
    method HandlesChanged(monacoPresent: bool, editor: Option<EditorId>)
      requires Valid()
      modifies this
      ensures Valid()
      ensures listening == (if monacoPresent then editor else None)
      ensures listeners == old(listeners) + Handover(old(listening), listening)
      ensures languageRef == old(languageRef) && writes == old(writes) && reported == old(reported)
    {
      var next := if monacoPresent then editor else None;
      HandoverKeepsOneListener(listeners, listening, next);
      if listening.Some? {
        listeners := listeners + [Closed(listening.value)];
        listening := None;
      }
      if !monacoPresent || editor.None? {
        return;
      }
      listeners := listeners + [Opened(editor.value)];
      listening := editor;
    }

    /** The "model replaced" listener on `editor` fires; `current` is the
        language id of `editor.getModel()`, absent when the editor has no model. */
    method ModelChanged(editor: EditorId, current: Option<string>, event: ModelChange)
      requires Valid()
      modifies this
      ensures Valid()
      ensures listening != Some(editor) || current.None? ==>
        languageRef == old(languageRef) && reported == old(reported)
      ensures listening == Some(editor) && current.Some? ==>
        languageRef == current.value && reported == old(reported) + [ModelReplaced(current.value, event)]
      ensures listening == old(listening) && listeners == old(listeners) && writes == old(writes)
    {
      if listening != Some(editor) {
        return;
      }
      if current.None? {
        return;
      }
      languageRef := current.value;
      reported := reported + [ModelReplaced(languageRef, event)];
    }

    /** The "model language changed" listener on `editor` fires. */
    method LanguageChanged(editor: EditorId, event: LanguageChange)
      requires Valid()
      modifies this
      ensures Valid()
      ensures listening != Some(editor) ==> languageRef == old(languageRef) && reported == old(reported)
      ensures listening == Some(editor) ==>
        languageRef == event.newLanguage && reported == old(reported) + [LanguageReplaced(event.newLanguage, event)]
      ensures listening == old(listening) && listeners == old(listeners) && writes == old(writes)
    {
      if listening != Some(editor) {
        return;
      }
      languageRef := event.newLanguage;
      reported := reported + [LanguageReplaced(languageRef, event)];
    }

    /** The channel's scope ends: the last run's cleanup disposes both listeners. */
    method Dispose()
      requires Valid()
      modifies this
      ensures Valid()
      ensures listening == None
      ensures listeners == old(listeners) + Handover(old(listening), None)
      ensures languageRef == old(languageRef) && writes == old(writes) && reported == old(reported)
    {
      HandoverKeepsOneListener(listeners, listening, None);
      if listening.Some? {
        listeners := listeners + [Closed(listening.value)];
        listening := None;
      }
    }
  }

  /** A language set while the engine is absent is kept in the cell and
      applied once when the engine arrives; a later model replacement reports
      the new model's own language, not the one applied. */
  method LanguageAppliedWhenEngineArrives(c: LanguageChannel, editor: EditorId, language: string, newModelLanguage: string, event: ModelChange)
    requires c.Valid()
    modifies c
    ensures c.Valid()
    ensures c.writes == old(c.writes) + [LanguageWrite(editor, language)]
    ensures c.languageRef == newModelLanguage
    ensures c.reported == old(c.reported) + [ModelReplaced(newModelLanguage, event)]
  {
    c.InputsChanged(false, Some(editor), language);
    c.InputsChanged(true, Some(editor), language);
    c.HandlesChanged(true, Some(editor));
    c.ModelChanged(editor, Some(newModelLanguage), event);
  }
}
