/** `OrgChartFlow`: the nodes and edges handed to React Flow are derived
    from the users and the saved chart data; the connection callbacks are
    guards. Coordinates are only copied, never computed with. */
module OrgChartFlow {
  import opened Wrappers
  import opened JsCollections

  datatype Position = Position(x: real, y: real)

  /** `{ x: 200, y: 200 }` */
  const DefaultPosition := Position(200.0, 200.0)

  /** A node of the saved chart data: `data.user_id` may be missing, and so
      may the position. */
  datatype SavedNode = SavedNode(id: string, position: Option<Position>, dataUserId: Option<string>)

  /** An edge of the chart data; `deletable` is what the flow sets. */
  datatype Edge = Edge(id: string, source: Option<string>, target: Option<string>,
                       edgeType: Option<string>, deletable: Option<bool>)

  datatype ChartUser = ChartUser(userId: string, name: string, position: Option<string>, photoUrl: Option<string>)

  datatype NodeData = NodeData(userId: string, name: string, position: Option<string>,
                               photoUrl: Option<string>, isEditMode: bool)

  /** A node handed to React Flow; its `type` is always 'person'. */
  datatype FlowNode = FlowNode(id: string, position: Position, data: NodeData, draggable: bool)

  /** `value || undefined` for an optional string: the empty string is
      dropped too. */
  function Truthy(s: Option<string>): (r: Option<string>)
    ensures r.Some? <==> s.Some? && s.value != ""
    ensures r.Some? ==> r == s
  {
    if s.Some? && s.value != "" then s else None
  }

  /** The index `chartData.nodes.find(node => node.data?.user_id === userId)`
      stops at. */
  function FindSaved(saved: seq<SavedNode>, userId: string): (r: Option<nat>)
    ensures r.None? <==> forall k :: 0 <= k < |saved| ==> saved[k].dataUserId != Some(userId)
    ensures r.Some? ==> r.value < |saved| && saved[r.value].dataUserId == Some(userId) &&
                        forall j :: 0 <= j < r.value ==> saved[j].dataUserId != Some(userId)
  {
    FindIndex(saved, (n: SavedNode) => n.dataUserId == Some(userId))
  }

  /** `savedNode?.position || { x: 200, y: 200 }` */
  function NodePosition(saved: seq<SavedNode>, userId: string): Position {
    var i := FindSaved(saved, userId);
    if i.Some? && saved[i.value].position.Some? then saved[i.value].position.value else DefaultPosition
  }

  /** The node built for one user. */
  function NodeFor(saved: seq<SavedNode>, u: ChartUser, isEditMode: bool): FlowNode {
    FlowNode(u.userId, NodePosition(saved, u.userId),
             NodeData(u.userId, u.name, Truthy(u.position), Truthy(u.photoUrl), isEditMode),
             isEditMode)
  }

  /** `newNodes`: one node per user, in user order, keyed by `user_id`. */
  function DeriveNodes(users: seq<ChartUser>, saved: seq<SavedNode>, isEditMode: bool): (r: seq<FlowNode>)
    ensures |r| == |users|
    ensures forall k :: 0 <= k < |r| ==> r[k].id == users[k].userId && r[k].data.userId == users[k].userId
    ensures forall k :: 0 <= k < |r| ==> r[k].draggable == isEditMode && r[k].data.isEditMode == isEditMode
    ensures forall k :: 0 <= k < |r| ==> r[k].data.name == users[k].name
  {
    seq(|users|, k requires 0 <= k < |users| => NodeFor(saved, users[k], isEditMode))
  }

  /** A node sits where the first saved node carrying its user id says, and
      at {200, 200} when there is none or it has no position. */
  lemma DerivedPosition(users: seq<ChartUser>, saved: seq<SavedNode>, isEditMode: bool, k: nat)
    requires k < |users|
    ensures (forall j :: 0 <= j < |saved| ==> saved[j].dataUserId != Some(users[k].userId)) ==>
      DeriveNodes(users, saved, isEditMode)[k].position == DefaultPosition
    ensures forall j :: 0 <= j < |saved| && saved[j].dataUserId == Some(users[k].userId) && saved[j].position.Some? &&
                        (forall i :: 0 <= i < j ==> saved[i].dataUserId != Some(users[k].userId)) ==>
      DeriveNodes(users, saved, isEditMode)[k].position == saved[j].position.value
  {
    assert DeriveNodes(users, saved, isEditMode)[k] == NodeFor(saved, users[k], isEditMode);
  }

  /** `newEdges`: the chart's edges in order, each made deletable exactly
      in edit mode; a missing edge list gives none. */
  function DeriveEdges(edges: Option<seq<Edge>>, isEditMode: bool): (r: seq<Edge>)
    ensures edges.None? ==> r == []
    ensures edges.Some? ==> |r| == |edges.value|
    ensures edges.Some? ==>
      forall k :: 0 <= k < |r| ==> r[k] == edges.value[k].(deletable := Some(isEditMode))
  {
    var es := if edges.Some? then edges.value else [];
    seq(|es|, k requires 0 <= k < |es| => es[k].(deletable := Some(isEditMode)))
  }

  datatype Connection = Connection(source: Option<string>, target: Option<string>)

  /** `isValidConnection`: self-connections are refused (two missing
      endpoints count as equal). */
  function IsValidConnection(c: Connection): (r: bool)
    ensures !r <==> c.source == c.target
  {
    if c.source == c.target then false else true
  }

  /** `handleConnect`: whether the connection is passed on to `onConnect`. */
  predicate HandleConnectForwards(isEditMode: bool, c: Connection) {
    && isEditMode
    && c.source.Some? && c.source.value != ""
    && c.target.Some? && c.target.value != ""
    && c.source != c.target
  }

  /** Only valid connections are ever passed on, and only in edit mode. */
  lemma ForwardedConnectionsAreValid(isEditMode: bool, c: Connection)
    ensures HandleConnectForwards(isEditMode, c) ==> isEditMode && IsValidConnection(c)
    ensures !isEditMode ==> !HandleConnectForwards(isEditMode, c)
    ensures c.source == c.target ==> !HandleConnectForwards(isEditMode, c)
  {
  }

  /** `handleEdgesDelete`: `onEdgeDelete` is called with each deleted edge's
      id, in order. */
  function EdgeDeleteCalls(edges: seq<Edge>): (ids: seq<string>)
    ensures |ids| == |edges|
    ensures forall k :: 0 <= k < |ids| ==> ids[k] == edges[k].id
  {
    seq(|edges|, k requires 0 <= k < |edges| => edges[k].id)
  }
}
