/** `server.py`: the first server revision, with four table tools behind an
    `initialized` guard. Each tool returns a `(success, message)` pair. */
module Server {
  import opened Wrappers
  import opened Graph
  import opened Session

  const NotInitialized: string := "Error: Server is not initialized."
  /** The default `row_limit` of `inspect_table`. */
  const DefaultRowLimit: int := 3
  /** What `bool(df)` raises for any pandas DataFrame. */
  const AmbiguousTruthValue: string :=
    "The truth value of a DataFrame is ambiguous. Use a.empty, a.bool(), a.item(), a.any() or a.all()."

  /** `f"Table {name} {action} failed: {e}"`: names the table and ends with the error text. */
  function FailureMessage(tableName: string, action: string, error: string): (m: string)
    ensures |m| >= 6 + |tableName| && m[..6 + |tableName|] == "Table " + tableName
    ensures |m| >= |error| && m[|m| - |error|..] == error
  {
    "Table " + tableName + " " + action + " failed: " + error
  }

  /** `f"Table {name} {action} successfully."`. */
  function SuccessMessage(tableName: string, action: string): (m: string)
    ensures |m| >= 6 + |tableName| && m[..6 + |tableName|] == "Table " + tableName
  {
    "Table " + tableName + " " + action + " successfully."
  }

  /** `pd.read_csv(file_path) or pd.read_parquet(file_path)` as written: an
      exception from `read_csv` propagates, and a frame it returns is tested
      for truth, which raises. No file is ever loaded. */
  function LoadFrameAsWritten(filePath: string, readCsv: string -> Attempt<Frame>,
                              readParquet: string -> Attempt<Frame>): (r: Attempt<Frame>)
    ensures r.Raised?
    ensures readCsv(filePath).Raised? ==> r == readCsv(filePath)
  {
    match readCsv(filePath)
    case Raised(e) => Raised(e)
    case Returned(_) => Raised(AmbiguousTruthValue)
  }

  /** The evident intent: read as CSV and fall back to Parquet when that fails. */
  function LoadFrame(filePath: string, readCsv: string -> Attempt<Frame>,
                     readParquet: string -> Attempt<Frame>): (r: Attempt<Frame>)
    ensures r.Returned? <==> readCsv(filePath).Returned? || readParquet(filePath).Returned?
    ensures readCsv(filePath).Returned? ==> r == readCsv(filePath)
    ensures readCsv(filePath).Raised? ==> r == readParquet(filePath)
  {
    match readCsv(filePath)
    case Returned(df) => Returned(df)
    case Raised(_) => readParquet(filePath)
  }

  /** A file that `read_csv` reads is rejected by the code as written and
      loaded by the corrected reading. */
  lemma ReadableCsvRejectedAsWritten(filePath: string, readCsv: string -> Attempt<Frame>,
                                     readParquet: string -> Attempt<Frame>)
    requires readCsv(filePath).Returned?
    ensures LoadFrameAsWritten(filePath, readCsv, readParquet) == Raised(AmbiguousTruthValue)
    ensures LoadFrame(filePath, readCsv, readParquet) == readCsv(filePath)
  {
  }

  /** The graph `create_table` ends with, or the first exception on the way,
      once the file has been loaded as `loaded`: build
      `LocalTable(df, name=table_name).infer_metadata()` (the SDK's `infer`),
      then `graph.add_table(table)` (the SDK's `addTable`). */
  function CreatedGraph(g: Graph, loaded: Attempt<Frame>, tableName: string,
                        infer: (Frame, string) -> Attempt<Table>,
                        addTable: (Graph, Table) -> Attempt<Graph>): (r: Attempt<Graph>)
    ensures loaded.Raised? ==> r == Raised(loaded.error)
    ensures loaded.Returned? && infer(loaded.value, tableName).Raised? ==>
      r == Raised(infer(loaded.value, tableName).error)
    ensures loaded.Returned? && infer(loaded.value, tableName).Returned? ==>
      r == addTable(g, infer(loaded.value, tableName).value)
  {
    match loaded
    case Raised(e) => Raised(e)
    case Returned(df) =>
      match infer(df, tableName)
      case Raised(e) => Raised(e)
      case Returned(table) => addTable(g, table)
  }

  /** A table is added exactly when loading, inference and `add_table` all
      return, and the new graph is then `add_table`'s. */
  lemma CreatedGraphSucceeds(g: Graph, loaded: Attempt<Frame>, tableName: string,
                             infer: (Frame, string) -> Attempt<Table>,
                             addTable: (Graph, Table) -> Attempt<Graph>)
    ensures CreatedGraph(g, loaded, tableName, infer, addTable).Returned? <==>
      && loaded.Returned?
      && infer(loaded.value, tableName).Returned?
      && addTable(g, infer(loaded.value, tableName).value).Returned?
  {
  }

  /** With the load as written nothing is ever added: the result is the
      load's own exception. */
  lemma CreatedGraphFailsAsWritten(g: Graph, filePath: string, tableName: string,
                                   readCsv: string -> Attempt<Frame>, readParquet: string -> Attempt<Frame>,
                                   infer: (Frame, string) -> Attempt<Table>,
                                   addTable: (Graph, Table) -> Attempt<Graph>)
    ensures CreatedGraph(g, LoadFrameAsWritten(filePath, readCsv, readParquet), tableName, infer, addTable)
            == Raised(LoadFrameAsWritten(filePath, readCsv, readParquet).error)
  {
  }

  /** The server: importing `server.py` runs `SessionState.initialize()`
      once, before any tool can be called. */
  class KumoServer {
    const state: SessionState

    constructor (envApiKey: Option<string>, envApiUrl: Option<string>,
                 kumoInit: (string, string) -> Attempt<()>)
      ensures fresh(state) && fresh(state.sessionData)
      ensures state.sessionData.sessionId == DefaultSessionId
      ensures state.sessionData.graph == EmptyGraph && state.sessionData.model == None
      ensures state.sessionData.initialized <==>
        HasApiKey(envApiKey) && kumoInit(envApiKey.value, ResolveApiUrl(envApiUrl)).Returned?
      ensures HasApiKey(envApiKey) ==>
        state.sessionData.apiKey == envApiKey && state.sessionData.apiUrl == Some(ResolveApiUrl(envApiUrl))
      ensures !HasApiKey(envApiKey) ==>
        state.sessionData.apiKey == None && state.sessionData.apiUrl == None
    {
      state := new SessionState();
      new;
      state.Initialize(envApiKey, envApiUrl, kumoInit);
    }

    /** The body of `kumo_create_table` after the file has been loaded as
        `loaded`: the guard, then inference and `add_table`, each failure
        turned into the `creation failed` message. */
    method AddLoadedTable(tableName: string, loaded: Attempt<Frame>,
                          infer: (Frame, string) -> Attempt<Table>,
                          addTable: (Graph, Table) -> Attempt<Graph>)
      returns (ok: bool, message: string)
      modifies state.sessionData`graph
      ensures !old(state.sessionData.initialized) ==>
        !ok && message == NotInitialized && state.sessionData.graph == old(state.sessionData.graph)
      ensures old(state.sessionData.initialized) ==>
        var outcome := CreatedGraph(old(state.sessionData.graph), loaded, tableName, infer, addTable);
        && ok == outcome.Returned?
        && (ok ==> state.sessionData.graph == outcome.value
                   && message == SuccessMessage(tableName, "created"))
        && (!ok ==> state.sessionData.graph == old(state.sessionData.graph)
                    && message == FailureMessage(tableName, "creation", outcome.error))
    {
      var session := state.GetSession();
      if !session.initialized {
        return false, NotInitialized;
      }
      if loaded.Raised? {
        return false, FailureMessage(tableName, "creation", loaded.error);
      }
      var table := infer(loaded.value, tableName);
      if table.Raised? {
        return false, FailureMessage(tableName, "creation", table.error);
      }
      var added := addTable(session.graph, table.value);
      if added.Raised? {
        return false, FailureMessage(tableName, "creation", added.error);
      }
      session.graph := added.value;
      ok, message := true, SuccessMessage(tableName, "created");
    }

    /** `kumo_create_table` as written: the `or` of the two readers makes
        every call fail, and the graph is never changed. */
    method CreateTableAsWritten(filePath: string, tableName: string,
                                readCsv: string -> Attempt<Frame>, readParquet: string -> Attempt<Frame>,
                                infer: (Frame, string) -> Attempt<Table>,
                                addTable: (Graph, Table) -> Attempt<Graph>)
      returns (ok: bool, message: string)
      modifies state.sessionData`graph
      ensures !ok && state.sessionData.graph == old(state.sessionData.graph)
      ensures !old(state.sessionData.initialized) ==> message == NotInitialized
      ensures old(state.sessionData.initialized) ==>
        message == FailureMessage(tableName, "creation", LoadFrameAsWritten(filePath, readCsv, readParquet).error)
    {
      CreatedGraphFailsAsWritten(state.sessionData.graph, filePath, tableName, readCsv, readParquet, infer, addTable);
      ok, message := AddLoadedTable(tableName, LoadFrameAsWritten(filePath, readCsv, readParquet), infer, addTable);
    }

    /** `kumo_create_table` with the corrected load: CSV, falling back to Parquet. */
    method CreateTable(filePath: string, tableName: string,
                       readCsv: string -> Attempt<Frame>, readParquet: string -> Attempt<Frame>,
                       infer: (Frame, string) -> Attempt<Table>,
                       addTable: (Graph, Table) -> Attempt<Graph>)
      returns (ok: bool, message: string)
      modifies state.sessionData`graph
      ensures !old(state.sessionData.initialized) ==>
        !ok && message == NotInitialized && state.sessionData.graph == old(state.sessionData.graph)
      ensures old(state.sessionData.initialized) ==>
        var outcome := CreatedGraph(old(state.sessionData.graph), LoadFrame(filePath, readCsv, readParquet),
                                    tableName, infer, addTable);
        && ok == outcome.Returned?
        && (ok ==> state.sessionData.graph == outcome.value
                   && message == SuccessMessage(tableName, "created"))
        && (!ok ==> state.sessionData.graph == old(state.sessionData.graph)
                    && message == FailureMessage(tableName, "creation", outcome.error))
    {
      ok, message := AddLoadedTable(tableName, LoadFrame(filePath, readCsv, readParquet), infer, addTable);
    }

    /** `kumo_remove_table`: hands exactly `tableName` to `graph.remove_table`. */
    method RemoveTable(tableName: string, removeTable: (Graph, string) -> Attempt<Graph>)
      returns (ok: bool, message: string)
      modifies state.sessionData`graph
      ensures !old(state.sessionData.initialized) ==>
        !ok && message == NotInitialized && state.sessionData.graph == old(state.sessionData.graph)
      ensures old(state.sessionData.initialized) ==>
        var outcome := removeTable(old(state.sessionData.graph), tableName);
        && ok == outcome.Returned?
        && (ok ==> state.sessionData.graph == outcome.value
                   && message == SuccessMessage(tableName, "removed"))
        && (!ok ==> state.sessionData.graph == old(state.sessionData.graph)
                    && message == FailureMessage(tableName, "removal", outcome.error))
    {
      var session := state.GetSession();
      if !session.initialized {
        return false, NotInitialized;
      }
      var removed := removeTable(session.graph, tableName);
      if removed.Raised? {
        return false, FailureMessage(tableName, "removal", removed.error);
      }
      session.graph := removed.value;
      ok, message := true, SuccessMessage(tableName, "removed");
    }

    /** `kumo_inspect_table`: `graph.get_table(name)` is `getTable`, and
        `json.dumps(table.sample(row_limit).to_dict(...))` is `sampleJson`. */
    method InspectTable(tableName: string,
                        getTable: (Graph, string) -> Attempt<Table>,
                        sampleJson: (Table, int) -> Attempt<string>,
                        rowLimit: int := DefaultRowLimit)
      returns (ok: bool, message: string)
      ensures !state.sessionData.initialized ==> !ok && message == NotInitialized
      ensures state.sessionData.initialized ==>
        var table := getTable(state.sessionData.graph, tableName);
        && (table.Raised? ==> !ok && message == FailureMessage(tableName, "inspection", table.error))
        && (table.Returned? ==>
              var rows := sampleJson(table.value, rowLimit);
              && ok == rows.Returned?
              && message == if ok then rows.value
                            else FailureMessage(tableName, "inspection", rows.error))
    {
      var session := state.GetSession();
      if !session.initialized {
        return false, NotInitialized;
      }
      var table := getTable(session.graph, tableName);
      if table.Raised? {
        return false, FailureMessage(tableName, "inspection", table.error);
      }
      var rows := sampleJson(table.value, rowLimit);
      if rows.Raised? {
        return false, FailureMessage(tableName, "inspection", rows.error);
      }
      ok, message := true, rows.value;
    }

    /** `kumo_list_tables`: `json.dumps(graph.tables)` is `dumps`. */
    method ListTables(dumps: Graph -> Attempt<string>) returns (ok: bool, message: string)
      ensures !state.sessionData.initialized ==> !ok && message == NotInitialized
      ensures state.sessionData.initialized ==>
        var text := dumps(state.sessionData.graph);
        && ok == text.Returned?
        && message == if ok then text.value else "Table listing failed: " + text.error
    {
      var session := state.GetSession();
      if !session.initialized {
        return false, NotInitialized;
      }
      var text := dumps(session.graph);
      if text.Raised? {
        return false, "Table listing failed: " + text.error;
      }
      ok, message := true, text.value;
    }
  }
}
