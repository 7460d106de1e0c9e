/** The org-chart test page: local chart data and the three updaters it
    hands to the flow. `Date.now()` in an edge id is the parameter `now`. */
module OrgChartTestPage {
  import opened Wrappers
  import opened Strings
  import opened JsCollections
  import opened OrgChartFlow

  datatype ChartData = ChartData(nodes: seq<SavedNode>, edges: seq<Edge>)

  /** `mockUsers` */
  const MockUsers: seq<ChartUser> := [
    ChartUser("user_1", "田中太郎", Some("CEO"), None),
    ChartUser("user_2", "佐藤花子", Some("CTO"), None),
    ChartUser("user_3", "鈴木一郎", Some("エンジニアリングマネージャー"), None)
  ]

  /** `initialChartData` */
  const InitialChartData := ChartData(
    [ SavedNode("user_1", Some(Position(200.0, 100.0)), Some("user_1")),
      SavedNode("user_2", Some(Position(400.0, 200.0)), Some("user_2")),
      SavedNode("user_3", Some(Position(100.0, 300.0)), Some("user_3")) ],
    [])

  /** A possibly null endpoint in a template literal. */
  function EndpointText(e: Option<string>): string {
    if e.Some? then e.value else "null"
  }

  /** `onConnect`: appends one 'smoothstep' edge between the endpoints. */
  function OnConnect(prev: ChartData, c: Connection, now: nat): (r: ChartData)
    ensures r.nodes == prev.nodes
    ensures |r.edges| == |prev.edges| + 1 && r.edges[..|prev.edges|] == prev.edges
    ensures var e := r.edges[|prev.edges|];
      e.source == c.source && e.target == c.target && e.edgeType == Some("smoothstep") &&
      e.id == "edge-" + EndpointText(c.source) + "-" + EndpointText(c.target) + "-" + NatToString(now)
  {
    var newEdge := Edge("edge-" + EndpointText(c.source) + "-" + EndpointText(c.target) + "-" + NatToString(now),
                        c.source, c.target, Some("smoothstep"), None);
    prev.(edges := prev.edges + [newEdge])
  }

  /** `onNodeDragStop`: moves every node whose id is `nodeId`. */
  function OnNodeDragStop(prev: ChartData, nodeId: string, position: Position): (r: ChartData)
    ensures r.edges == prev.edges
    ensures |r.nodes| == |prev.nodes|
    ensures forall k :: 0 <= k < |r.nodes| ==>
      r.nodes[k] == if prev.nodes[k].id == nodeId then prev.nodes[k].(position := Some(position)) else prev.nodes[k]
  {
    prev.(nodes := seq(|prev.nodes|, k requires 0 <= k < |prev.nodes| =>
      if prev.nodes[k].id == nodeId then prev.nodes[k].(position := Some(position)) else prev.nodes[k]))
  }

  /** `onEdgeDelete`: drops every edge with that id, keeping the order of
      the rest. */
  function OnEdgeDelete(prev: ChartData, edgeId: string): (r: ChartData)
    ensures r.nodes == prev.nodes
    ensures forall e :: e in r.edges <==> e in prev.edges && e.id != edgeId
  {
    prev.(edges := Filter(prev.edges, (e: Edge) => e.id != edgeId))
  }

  /** Dropping an edge that was just connected gives the chart back. */
  lemma ConnectThenDelete(prev: ChartData, c: Connection, now: nat)
    requires forall e :: e in prev.edges ==> e.id != OnConnect(prev, c, now).edges[|prev.edges|].id
    ensures OnEdgeDelete(OnConnect(prev, c, now), OnConnect(prev, c, now).edges[|prev.edges|].id) == prev
  {
    var next := OnConnect(prev, c, now);
    var id := next.edges[|prev.edges|].id;
    var keep := (e: Edge) => e.id != id;
    assert next.edges == prev.edges + [next.edges[|prev.edges|]];
    FilterConcat(prev.edges, [next.edges[|prev.edges|]], keep);
    FilterAll(prev.edges, keep);
  }

  /** Where the saved nodes are keyed consistently (`id` equals
      `data.user_id`), dragging a user's node moves the node the flow
      derives for that user. */
  lemma DragMovesDerivedNode(prev: ChartData, users: seq<ChartUser>, isEditMode: bool, k: nat, position: Position)
    requires k < |users|
    requires forall j :: 0 <= j < |prev.nodes| ==> prev.nodes[j].dataUserId == Some(prev.nodes[j].id)
    requires exists j :: 0 <= j < |prev.nodes| && prev.nodes[j].id == users[k].userId
    ensures DeriveNodes(users, OnNodeDragStop(prev, users[k].userId, position).nodes, isEditMode)[k].position == position
  {
    var next := OnNodeDragStop(prev, users[k].userId, position).nodes;
    var j :| 0 <= j < |prev.nodes| && prev.nodes[j].id == users[k].userId;
    var i := FindSaved(next, users[k].userId);
    assert next[j].dataUserId == Some(users[k].userId);
    assert i.Some?;
    assert next[i.value].id == users[k].userId;
    assert DeriveNodes(users, next, isEditMode)[k] == NodeFor(next, users[k], isEditMode);
  }

  /** On first render every mock user's node sits at its saved position. */
  lemma InitialPositions()
    ensures DeriveNodes(MockUsers, InitialChartData.nodes, false)[0].position == Position(200.0, 100.0)
    ensures DeriveNodes(MockUsers, InitialChartData.nodes, false)[1].position == Position(400.0, 200.0)
    ensures DeriveNodes(MockUsers, InitialChartData.nodes, false)[2].position == Position(100.0, 300.0)
  {
    FirstUserPosition();
    SecondUserPosition();
    ThirdUserPosition();
  }

  lemma FirstUserPosition()
    ensures DeriveNodes(MockUsers, InitialChartData.nodes, false)[0].position == Position(200.0, 100.0)
  {
    DerivedPosition(MockUsers, InitialChartData.nodes, false, 0);
  }

  lemma SecondUserPosition()
    ensures DeriveNodes(MockUsers, InitialChartData.nodes, false)[1].position == Position(400.0, 200.0)
  {
    var saved := InitialChartData.nodes;
    DerivedPosition(MockUsers, saved, false, 1);
    assert saved[0].dataUserId != Some("user_2");
  }

  lemma ThirdUserPosition()
    ensures DeriveNodes(MockUsers, InitialChartData.nodes, false)[2].position == Position(100.0, 300.0)
  {
    var saved := InitialChartData.nodes;
    DerivedPosition(MockUsers, saved, false, 2);
    assert saved[0].dataUserId != Some("user_3") && saved[1].dataUserId != Some("user_3");
  }
}
