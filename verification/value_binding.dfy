/** The value channel, `useEditorValue` (packages/monaco-vue/src/bindings.ts):
    the editor's text follows an external value, edits made in the editor are
    reported upward, and the echo of the channel's own write is dropped. */
module ValueBinding {
  import opened Engine

  /** The engine's content-change event; the channel passes it on untouched. */
  datatype ContentChange = ContentChange(versionId: int, isFlush: bool)

  /** One call of `setEditorValue(monaco, editor, value)`. */
  datatype ValueWrite = ValueWrite(editor: EditorId, value: string)

  class ValueChannel {
    /** `valueRef`: the last text that went through the channel, either way. */
    var valueRef: string
    /** The editor the content listener is open on, if any. */
    var listening: Option<EditorId>
    ghost var listeners: seq<ListenerEvent>
    /** The engine writes issued, oldest first. */
    ghost var writes: seq<ValueWrite>
    /** The events handed to `onChangeEvent`, oldest first. */
    ghost var reported: seq<ContentChange>

    ghost predicate Valid()
      reads this
    {
      Live(listeners) == Listed(listening)
    }

    constructor ()
      ensures Valid()
      ensures valueRef == "" && listening == None
      ensures listeners == [] && writes == [] && reported == []
    {
      valueRef := "";
      listening := None;
      listeners := [];
      writes := [];
      reported := [];
    }

    /** The watch on the editor handle: the previous run's cleanup disposes
        its listener; a present editor gets a content listener. */
    method EditorChanged(editor: Option<EditorId>)
      requires Valid()
      modifies this
      ensures Valid()
      ensures listening == editor
      ensures listeners == old(listeners) + Handover(old(listening), editor)
      ensures valueRef == old(valueRef) && writes == old(writes) && reported == old(reported)
    {
      HandoverKeepsOneListener(listeners, listening, editor);
      if listening.Some? {
        listeners := listeners + [Closed(listening.value)];
        listening := None;
      }
      if editor.None? {
        return;
      }
      listeners := listeners + [Opened(editor.value)];
      listening := editor;
    }

    /** The content listener opened on `editor` fires; `text` is what
        `editor.getValue()` returns at that moment. A disposed listener
        is never called, so an event for another editor changes nothing. */
    method ContentChanged(editor: EditorId, text: string, event: ContentChange)
      requires Valid()
      modifies this
      ensures Valid()
      ensures listening != Some(editor) || text == old(valueRef) ==>
        valueRef == old(valueRef) && reported == old(reported)
      ensures listening == Some(editor) && text != old(valueRef) ==>
        valueRef == text && reported == old(reported) + [event]
      ensures listening == old(listening) && listeners == old(listeners) && writes == old(writes)
    {
      if listening != Some(editor) {
        return;
      }
      if text == valueRef {
        return;
      }
      valueRef := text;
      reported := reported + [event];
    }

    /** The watch on the engine handle, the editor handle and the external
        value: nothing is written while either handle is absent or while the
        value is the one last seen; otherwise the value is recorded, then written. */
    method InputsChanged(monacoPresent: bool, editor: Option<EditorId>, value: string)
      requires Valid()
      modifies this
      ensures Valid()
      ensures !monacoPresent || editor.None? || value == old(valueRef) ==>
        valueRef == old(valueRef) && writes == old(writes)
      ensures monacoPresent && editor.Some? && value != old(valueRef) ==>
        valueRef == value && writes == old(writes) + [ValueWrite(editor.value, value)]
      ensures listening == old(listening) && listeners == old(listeners) && reported == old(reported)
    {
      if !monacoPresent || editor.None? {
        return;
      }
      if value == valueRef {
        return;
      }
      valueRef := value;
      writes := writes + [ValueWrite(editor.value, value)];
    }

    /** The channel's scope ends: the last watch run's cleanup disposes its listener. */
    method Dispose()
      requires Valid()
      modifies this
      ensures Valid()
      ensures listening == None
      ensures listeners == old(listeners) + Handover(old(listening), None)
      ensures valueRef == old(valueRef) && writes == old(writes) && reported == old(reported)
    {
      HandoverKeepsOneListener(listeners, listening, None);
      if listening.Some? {
        listeners := listeners + [Closed(listening.value)];
        listening := None;
      }
    }
  }

  /** Echo suppression: the content-change event that the channel's own write
      of `v` causes is not reported upward. */
  method OwnWriteIsNotEchoed(c: ValueChannel, editor: EditorId, v: string, event: ContentChange)
    requires c.Valid() && c.listening == Some(editor)
    modifies c
    ensures c.Valid() && c.valueRef == v
    ensures c.reported == old(c.reported)
    ensures v != old(c.valueRef) ==> c.writes == old(c.writes) + [ValueWrite(editor, v)]
  {
    c.InputsChanged(true, Some(editor), v);
    c.ContentChanged(editor, v, event);
  }

  /** Values set before the engine and the editor exist are not written;
      once both handles are present, the value then current is written once,
      unless it equals the last value the channel saw, when nothing is written. */
  method ValueWrittenOnMount(c: ValueChannel, editor: EditorId, early: seq<string>, current: string)
    requires c.Valid()
    modifies c
    ensures c.Valid()
    ensures c.writes == old(c.writes) + (if current != old(c.valueRef) then [ValueWrite(editor, current)] else [])
    ensures c.valueRef == (if current != old(c.valueRef) then current else old(c.valueRef))
    ensures c.reported == old(c.reported)
  {
    for i := 0 to |early|
      invariant c.Valid()
      invariant c.valueRef == old(c.valueRef) && c.writes == old(c.writes) && c.reported == old(c.reported)
    {
      c.InputsChanged(false, None, early[i]);
    }
    c.InputsChanged(true, Some(editor), current);
  }
}
