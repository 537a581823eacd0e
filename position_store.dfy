/** The checkpoint kept in the coordination store, as functions of the store's
    contents: which node paths exist and the data each holds (`None` for a
    node whose data is not a buffer). */
module PositionStore {
  import opened Wrappers
  import opened Text
  import opened Json
  import opened Checkpoint

  type Nodes = map<string, Option<string>>

  /** What `getLastPosition` resolves to for the node at `path`. */
  function Load(nodes: Nodes, path: string): (position: Fetched)
    ensures position.Raw? ==> path in nodes && nodes[path] == Some(position.data)
  {
    if path in nodes then Decode(nodes[path]) else NoPosition
  }

  /** The store after `savePosition(position)` on `path`; `None` is
      `undefined`. An existing node's data is replaced (`setData`), a missing
      node is created with the data (`mkdirp`). */
  function Save(nodes: Nodes, path: string, position: Option<Json>): (after: Nodes)
    ensures after.Keys == nodes.Keys + (if position.Some? then {path} else {})
    ensures forall q | q in nodes && q != path :: after[q] == nodes[q]
  {
    match position
    case None => nodes
    case Some(p) => nodes[path := Some(Encode(p))]
  }

  /** Which store operation `savePosition` issues. */
  datatype StoreOp = Skipped | Updated | Created

  function SaveOp(nodes: Nodes, path: string, position: Option<Json>): (op: StoreOp)
    ensures op == Skipped <==> position.None?
    ensures op == Created <==> position.Some? && path !in nodes
    ensures op == Updated <==> position.Some? && path in nodes
  {
    if position.None? then Skipped else if path in nodes then Updated else Created
  }

  /** A missing node is the cold start: no position. */
  lemma ColdStart(nodes: Nodes, path: string)
    requires path !in nodes
    ensures Load(nodes, path) == NoPosition
  {
  }

  /** A node without a data buffer gives no position. */
  lemma NoBufferIsNoPosition(nodes: Nodes, path: string)
    requires path in nodes && nodes[path].None?
    ensures Load(nodes, path) == NoPosition
  {
  }

  /** Saving a position and reading it back gives the same position. */
  lemma SaveThenLoad(nodes: Nodes, path: string, position: Json)
    ensures Load(Save(nodes, path, Some(position)), path) == Parsed(position)
  {
    DecodeEncode(position);
  }

  /** `savePosition(undefined)` leaves the store as it was. */
  lemma SaveUndefined(nodes: Nodes, path: string)
    ensures Save(nodes, path, None) == nodes
  {
  }

  /** A save writes the versioned header and touches no other node: the node
      exists afterwards, and every other node keeps its existence and data. */
  lemma SaveTouchesOnlyItsNode(nodes: Nodes, path: string, position: Json)
    ensures var after := Save(nodes, path, Some(position));
      && after.Keys == nodes.Keys + {path}
      && after[path].Some? && StartsWith(after[path].value, FormatHeader)
      && forall q | q in nodes && q != path :: after[q] == nodes[q]
  {
  }

  /** Saving the same position twice leaves the store as saving it once, and
      the second save updates the node the first one created. */
  lemma SaveIdempotent(nodes: Nodes, path: string, position: Option<Json>)
    ensures Save(Save(nodes, path, position), path, position) == Save(nodes, path, position)
    ensures position.Some? ==> SaveOp(Save(nodes, path, position), path, position) == Updated
  {
  }

  /** The last save wins. */
  lemma LastSaveWins(nodes: Nodes, path: string, first: Json, second: Json)
    ensures Load(Save(Save(nodes, path, Some(first)), path, Some(second)), path) == Parsed(second)
  {
    SaveThenLoad(Save(nodes, path, Some(first)), path, second);
  }
}
