/** The marker channel, `useEditorMarkers` (packages/monaco-vue/src/bindings.ts):
    a snapshot of the engine's markers for the model the editor shows. */
module MarkerBinding {
  import opened Engine

  /** One diagnostic marker, carried through unchanged. */
  datatype Marker = Marker(resource: Uri, owner: string, severity: int, message: string, startLine: int, startColumn: int)

  /** The `uris.some(uri => uri.path === editorUri.path)` test. */
  function HasMarkerChanges(uris: seq<Uri>, editorUri: Uri): (r: bool)
    ensures r <==> exists i :: 0 <= i < |uris| && uris[i].path == editorUri.path
  {
    if uris == [] then false
    else uris[0].path == editorUri.path || HasMarkerChanges(uris[1..], editorUri)
  }

  class MarkerChannel {
    /** `markersRef`: the snapshot, replaced wholesale, never merged. */
    var markers: seq<Marker>
    /** The editor the marker listener was opened for, if any. */
    var listening: Option<EditorId>
    ghost var listeners: seq<ListenerEvent>

    ghost predicate Valid()
      reads this
    {
      Live(listeners) == Listed(listening)
    }

    constructor ()
      ensures Valid()
      ensures markers == [] && listening == None && listeners == []
    {
      markers := [];
      listening := None;
      listeners := [];
    }

    /** A run of the effect over both handles: the previous run's cleanup
        disposes its listener; when both are present a new one is opened. */
    method HandlesChanged(monacoPresent: bool, editor: Option<EditorId>)
      requires Valid()
      modifies this
      ensures Valid()
      ensures listening == (if monacoPresent then editor else None)
      ensures listeners == old(listeners) + Handover(old(listening), listening)
      ensures markers == old(markers)
    {
      var next := if monacoPresent then editor else None;
      HandoverKeepsOneListener(listeners, listening, next);
      if listening.Some? {
        listeners := listeners + [Closed(listening.value)];
        listening := None;
      }
      if !monacoPresent || editor.None? {
        return;
      }
      listeners := listeners + [Opened(editor.value)];
      listening := editor;
    }

    /** The marker listener opened for `editor` fires with the changed URIs.
        `modelUri` is the URI of `editor.getModel()`, absent when it has none;
        `markersOf` stands for the engine's `getModelMarkers({ resource })`. */
    method MarkersChanged(editor: EditorId, uris: seq<Uri>, modelUri: Option<Uri>, markersOf: Uri -> seq<Marker>)
      requires Valid()
      modifies this
      ensures Valid()
      ensures listening != Some(editor) || modelUri.None? ||
              (forall i :: 0 <= i < |uris| ==> uris[i].path != modelUri.value.path) ==>
        markers == old(markers)
      ensures listening == Some(editor) && modelUri.Some? &&
              (exists i :: 0 <= i < |uris| && uris[i].path == modelUri.value.path) ==>
        markers == markersOf(modelUri.value)
      ensures listening == old(listening) && listeners == old(listeners)
    {
      if listening != Some(editor) {
        return;
      }
      if modelUri.None? {
        return;
      }
      var hasMarkerChanges := HasMarkerChanges(uris, modelUri.value);
      if !hasMarkerChanges {
        return;
      }
      markers := markersOf(modelUri.value);
    }

    /** The channel's scope ends: the last run's cleanup disposes its listener. */
    method Dispose()
      requires Valid()
      modifies this
      ensures Valid()
      ensures listening == None
      ensures listeners == old(listeners) + Handover(old(listening), None)
      ensures markers == old(markers)
    {
      HandoverKeepsOneListener(listeners, listening, None);
      if listening.Some? {
        listeners := listeners + [Closed(listening.value)];
        listening := None;
      }
    }
  }
}
