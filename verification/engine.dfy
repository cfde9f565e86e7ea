/** What the synchronization channels of packages/monaco-vue/src/bindings.ts
    see of the editor engine: handles that may be absent, editor identities,
    URIs, and the lifetime of the listeners a channel opens on an editor. */
module Engine {

  datatype Option<T> = None | Some(value: T)

  /** The identity of an editor instance held by an editor handle. */
  type EditorId = nat

  /** A document URI; the marker channel compares only paths. */
  datatype Uri = Uri(scheme: string, authority: string, path: string)

  /** One entry of a channel's listener log: a listener (or the set of
      listeners one watch run installs) opened or disposed on an editor. */
  datatype ListenerEvent = Opened(editor: EditorId) | Closed(editor: EditorId)

  /** The editors a handle names: none, or one. */
  function Listed(handle: Option<EditorId>): (r: seq<EditorId>)
    ensures |r| <= 1
    ensures forall e :: e in r <==> handle == Some(e)
  {
    if handle.Some? then [handle.value] else []
  }

  /** `live` with the first occurrence of `editor` taken out. */
  function Without(live: seq<EditorId>, editor: EditorId): (r: seq<EditorId>)
    ensures editor in live ==> |r| == |live| - 1
    ensures editor !in live ==> r == live
    ensures forall e :: e in r ==> e in live
  {
    if live == [] then []
    else if live[0] == editor then live[1..]
    else [live[0]] + Without(live[1..], editor)
  }

  /** The editors whose listeners are still open after a log, oldest first. */
  function Live(log: seq<ListenerEvent>): seq<EditorId>
  {
    if log == [] then []
    else
      var before := Live(log[..|log| - 1]);
      match log[|log| - 1]
      case Opened(e) => before + [e]
      case Closed(e) => Without(before, e)
  }

  /** What a watch run logs: the cleanup registered by the previous run
      disposes its listener, then a present editor gets a new one. */
  function Handover(from: Option<EditorId>, to: Option<EditorId>): seq<ListenerEvent>
  {
    (if from.Some? then [Closed(from.value)] else []) + (if to.Some? then [Opened(to.value)] else [])
  }

  /** A handover leaves exactly the new editor's listener open: the previous
      one is disposed and no listener outlives the editor it was opened on. */
  lemma {:induction false} HandoverKeepsOneListener(log: seq<ListenerEvent>, from: Option<EditorId>, to: Option<EditorId>)
    requires Live(log) == Listed(from)
    ensures Live(log + Handover(from, to)) == Listed(to)
  {
    var closed := log + (if from.Some? then [Closed(from.value)] else []);
    if from.Some? {
      assert closed[..|log|] == log && closed[|log|] == Closed(from.value);
      assert Live(closed) == Without([from.value], from.value);
    } else {
      assert closed == log;
    }
    assert Live(closed) == [];
    if to.Some? {
      assert (closed + [Opened(to.value)])[..|closed|] == closed;
    }
    assert log + Handover(from, to) == closed + (if to.Some? then [Opened(to.value)] else []);
  }
}
