/** `tools/graph_tools.py`: infer, inspect, link and unlink over the default
    session's graph. The SDK's graph operations are the function arguments;
    `raised` is the text of an exception raised while a read-only tool reads
    the SDK objects, `None` when nothing raises. */
module GraphTools {
  import opened Wrappers
  import opened Graph
  import opened Session
  import opened DataModels

  const InferenceCompleted: string := "Link inference completed"
  const InferenceFailed: string := "Failed to infer links. "
  const GraphRetrieved: string := "Graph structure retrieved successfully"
  const InspectFailed: string := "Failed to inspect graph. "

  predicate NoDuplicates<T(==)>(s: seq<T>)
  {
    forall i, j :: 0 <= i < j < |s| ==> s[i] != s[j]
  }

  /** `set(after) - set(before)`, listed without repetition in the order the
      edges first appear in `after`. */
  method NewEdges(before: seq<Edge>, after: seq<Edge>) returns (inferred: seq<Edge>)
    ensures forall e :: e in inferred <==> e in after && e !in before
    ensures NoDuplicates(inferred)
  {
    var known := set e | e in before;
    inferred := [];
    var i := 0;
    while i < |after|
      invariant 0 <= i <= |after|
      invariant forall e :: e in inferred <==> e in after[..i] && e !in before
      invariant NoDuplicates(inferred)
    {
      var e := after[i];
      if e !in known && e !in inferred {
        inferred := inferred + [e];
      }
      assert after[..i + 1] == after[..i] + [e];
      i := i + 1;
    }
    assert after[..i] == after;
  }

  /** `infer_links`: snapshot the edges, let the SDK's `inferLinks` extend the
      graph, and report the edges that were not there before. */
  method InferLinks(state: SessionState, inferLinks: Graph -> Attempt<Graph>)
    returns (r: Response<seq<LinkMetadata>>)
    modifies state.sessionData`graph
    ensures
      var before, outcome := old(state.sessionData.graph), inferLinks(old(state.sessionData.graph));
      && (outcome.Raised? ==>
            && r == Response(false, InferenceFailed + outcome.error, None)
            && state.sessionData.graph == before)
      && (outcome.Returned? ==>
            && state.sessionData.graph == outcome.value
            && r.success && r.message == InferenceCompleted && r.data.Some?
            && (forall l :: l in r.data.value <==>
                  EdgeOf(l) in outcome.value.edges && EdgeOf(l) !in before.edges)
            && NoDuplicates(r.data.value)
            && ((forall e :: e in outcome.value.edges ==> e in before.edges) ==> r.data.value == []))
  {
    var session := state.GetSession();
    var before := session.graph.edges;
    var outcome := inferLinks(session.graph);
    if outcome.Raised? {
      return Response(false, InferenceFailed + outcome.error, None);
    }
    session.graph := outcome.value;
    var inferred := NewEdges(before, session.graph.edges);
    var links := LinksOf(inferred);
    LinksOfMembers(inferred);
    assert NoDuplicates(links) by {
      forall i, j | 0 <= i < j < |links| ensures links[i] != links[j] {
        assert EdgeOf(links[i]) == inferred[i] && EdgeOf(links[j]) == inferred[j];
      }
    }
    if links != [] {
      assert EdgeOf(links[0]) in inferred;
    }
    r := Response(true, InferenceCompleted, Some(links));
  }

  /** One entry of the `tables` dictionary of `inspect_graph`. */
  datatype TableSummary = TableSummary(
    numRows: nat,
    columns: seq<string>,
    primaryKey: Option<string>,
    timeColumn: Option<string>)

  /** The `data` of `inspect_graph`: `tables` is an insertion-ordered dictionary
      kept as its (key, value) pairs. */
  datatype GraphView = GraphView(tables: seq<(string, TableSummary)>, links: seq<LinkMetadata>)

  /** `{table.name: dict(...) for table in graph.tables.values()}`. */
  function Summaries(tables: seq<Table>): (entries: seq<(string, TableSummary)>)
    ensures |entries| == |tables|
    ensures forall i :: 0 <= i < |tables| ==>
      var t := tables[i];
      entries[i] == (t.name, TableSummary(t.data.numRows, t.data.columns, t.primaryKey, t.timeColumn))
  {
    if tables == [] then []
    else
      var t := tables[0];
      [(t.name, TableSummary(t.data.numRows, t.data.columns, t.primaryKey, t.timeColumn))]
        + Summaries(tables[1..])
  }

  /** `inspect_graph`: a read-only view with one entry per table under its
      own name, with the frame's length and columns and the key columns
      copied, and one link per edge in edge order. */
  function InspectGraph(state: SessionState, raised: Option<string>): (r: Response<GraphView>)
    reads state.sessionData
    ensures raised.Some? ==> r == Response(false, InspectFailed + raised.value, None)
    ensures raised.None? ==> r.success && r.message == GraphRetrieved && r.data.Some?
    ensures r.data.Some? ==>
      var g, v := state.sessionData.graph, r.data.value;
      && |v.tables| == |g.tables|
      && (forall i :: 0 <= i < |g.tables| ==>
            && v.tables[i].0 == g.tables[i].name
            && v.tables[i].1.numRows == g.tables[i].data.numRows
            && v.tables[i].1.columns == g.tables[i].data.columns
            && v.tables[i].1.primaryKey == g.tables[i].primaryKey
            && v.tables[i].1.timeColumn == g.tables[i].timeColumn)
      && (forall i, j :: 0 <= i < j < |v.tables| ==> v.tables[i].0 != v.tables[j].0)
      && |v.links| == |g.edges|
      && (forall i :: 0 <= i < |g.edges| ==> EdgeOf(v.links[i]) == g.edges[i])
  {
    if raised.Some? then Response(false, InspectFailed + raised.value, None)
    else
      var g := state.sessionData.graph;
      Response(true, GraphRetrieved, Some(GraphView(Summaries(g.tables), LinksOf(g.edges))))
  }

  /** The ` '<src>' and '<dst>' by '<fkey>'` part of the link messages. */
  function LinkClause(sourceTable: string, foreignKey: string, destinationTable: string): (clause: string)
  {
    " '" + sourceTable + "' and '" + destinationTable + "' by '" + foreignKey + "'"
  }

  /** `"Failed to <verb> ... . <e>"`: it opens with the verb and the three
      names and ends with the error text. */
  function LinkFailure(verb: string, sourceTable: string, foreignKey: string,
                       destinationTable: string, error: string): (m: string)
    ensures var head := "Failed to " + verb + LinkClause(sourceTable, foreignKey, destinationTable);
      |m| >= |head| + 2 && m[..|head|] == head
    ensures |m| >= |error| + 2 && m[|m| - |error| - 2..] == ". " + error
  {
    "Failed to " + verb + LinkClause(sourceTable, foreignKey, destinationTable) + ". " + error
  }

  /** `link_tables`: hands exactly `(source, fkey, destination)` to the SDK's `link`. */
  method LinkTables(state: SessionState, sourceTable: string, foreignKey: string, destinationTable: string,
                    link: (Graph, string, string, string) -> Attempt<Graph>)
    returns (r: Response<()>)
    modifies state.sessionData`graph
    ensures
      var outcome := link(old(state.sessionData.graph), sourceTable, foreignKey, destinationTable);
      && r.success == outcome.Returned? && r.data == None
      && (outcome.Returned? ==>
            && state.sessionData.graph == outcome.value
            && r.message == "Successfully linked" + LinkClause(sourceTable, foreignKey, destinationTable))
      && (outcome.Raised? ==>
            && state.sessionData.graph == old(state.sessionData.graph)
            && r.message == LinkFailure("link", sourceTable, foreignKey, destinationTable, outcome.error))
  {
    var session := state.GetSession();
    var outcome := link(session.graph, sourceTable, foreignKey, destinationTable);
    if outcome.Raised? {
      return Response(false, LinkFailure("link", sourceTable, foreignKey, destinationTable, outcome.error), None);
    }
    session.graph := outcome.value;
    r := Response(true, "Successfully linked" + LinkClause(sourceTable, foreignKey, destinationTable), None);
  }

  /** `unlink_tables`: the mirror of `link_tables` over the SDK's `unlink`. */
  method UnlinkTables(state: SessionState, sourceTable: string, foreignKey: string, destinationTable: string,
                      unlink: (Graph, string, string, string) -> Attempt<Graph>)
    returns (r: Response<()>)
    modifies state.sessionData`graph
    ensures
      var outcome := unlink(old(state.sessionData.graph), sourceTable, foreignKey, destinationTable);
      && r.success == outcome.Returned? && r.data == None
      && (outcome.Returned? ==>
            && state.sessionData.graph == outcome.value
            && r.message == "Successfully unlinked" + LinkClause(sourceTable, foreignKey, destinationTable))
      && (outcome.Raised? ==>
            && state.sessionData.graph == old(state.sessionData.graph)
            && r.message == LinkFailure("unlink", sourceTable, foreignKey, destinationTable, outcome.error))
  {
    var session := state.GetSession();
    var outcome := unlink(session.graph, sourceTable, foreignKey, destinationTable);
    if outcome.Raised? {
      return Response(false, LinkFailure("unlink", sourceTable, foreignKey, destinationTable, outcome.error), None);
    }
    session.graph := outcome.value;
    r := Response(true, "Successfully unlinked" + LinkClause(sourceTable, foreignKey, destinationTable), None);
  }
}
