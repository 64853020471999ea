/** `tools/session_tools.py`: report and reset the default session. A tool's
    `raised` argument is the text of an exception raised while it fetches the
    default session or reads its SDK objects, `None` when nothing raises. */
module SessionTools {
  import opened Wrappers
  import opened Graph
  import opened Session

  /** The `data` dictionary of `get_session_status`. */
  datatype SessionStatus = SessionStatus(
    initialized: bool,
    tableNames: seq<string>,
    numLinks: nat,
    isRfmModelReady: bool)

  const StatusRetrieved: string := "Session status retrieved successfully"
  const StatusFailed: string := "Failed to get session status. "
  const SessionCleared: string := "Session cleared successfully"
  const ClearFailed: string := "Failed to clear session. "

  /** `get_session_status`: a read-only projection of the session. */
  function GetSessionStatus(state: SessionState, raised: Option<string>): (r: Response<SessionStatus>)
    reads state.sessionData
    ensures raised.Some? ==>
      && !r.success && r.data == None
      && r.message == StatusFailed + raised.value
    ensures raised.None? ==> r.success && r.message == StatusRetrieved && r.data.Some?
    ensures r.data.Some? ==>
      var s, status := state.sessionData, r.data.value;
      && status.initialized == s.initialized
      && |status.tableNames| == |s.graph.tables|
      && (forall i :: 0 <= i < |s.graph.tables| ==> status.tableNames[i] == s.graph.tables[i].name)
      && status.numLinks == |s.graph.edges|
      && (status.isRfmModelReady <==> s.model.Some?)
  {
    if raised.Some? then
      Response(false, StatusFailed + raised.value, None)
    else
      var s := state.sessionData;
      Response(true, StatusRetrieved,
               Some(SessionStatus(s.initialized, TableNames(s.graph.tables), |s.graph.edges|, s.model.Some?)))
  }

  /** `clear_session`: replaces the graph by an empty one and drops the
      model, and touches no other field. `raised` stands for an exception from
      fetching the session or from `rfm.LocalGraph(tables=[])`, which both
      come before the first assignment. */
  method ClearSession(state: SessionState, raised: Option<string>) returns (r: Response<()>)
    modifies state.sessionData`graph, state.sessionData`model
    ensures raised.None? ==>
      && r == Response(true, SessionCleared, None)
      && state.sessionData.graph == EmptyGraph
      && state.sessionData.model == None
    ensures raised.Some? ==>
      && r == Response(false, ClearFailed + raised.value, None)
      && state.sessionData.graph == old(state.sessionData.graph)
      && state.sessionData.model == old(state.sessionData.model)
  {
    if raised.Some? {
      return Response(false, ClearFailed + raised.value, None);
    }
    var session := state.GetSession();
    session.graph := EmptyGraph;
    session.model := None;
    r := Response(true, SessionCleared, None);
  }

  /** A clear followed by a status call reports no tables, no links and no
      model, and the `initialized` flag it had before. */
  method ClearThenStatus(state: SessionState) returns (status: Response<SessionStatus>)
    modifies state.sessionData`graph, state.sessionData`model
    ensures status.success && status.data.Some?
    ensures status.data.value == SessionStatus(old(state.sessionData.initialized), [], 0, false)
  {
    var cleared := ClearSession(state, None);
    status := GetSessionStatus(state, None);
  }
}
