/** `tools/metadata_tools.py`: `inspect_metadata`, the `TableMetadata` and
    `LinkMetadata` records of the default session's graph. */
module MetadataTools {
  import opened Wrappers
  import opened Graph
  import opened Session
  import opened DataModels

  const MetadataRetrieved: string := "Metadata retrieved successfully"
  const MetadataFailed: string := "Failed to inspect metadata: "

  /** An entry of `session.catalog`; reading its `path` may raise. */
  datatype CatalogEntry = CatalogEntry(path: Attempt<string>)

  /** `session.catalog`, `None` when the session has no `catalog` attribute. */
  type Catalog = Option<map<string, CatalogEntry>>

  /** The `stypes` dictionary: `stypes[column.name] = str(column.stype)` for
      each column in turn, so a later column overwrites an earlier namesake. */
  function StypeMap(columns: seq<Column>): (stypes: map<string, string>)
    ensures forall c :: c in columns ==> c.name in stypes
    ensures columns != [] ==> stypes[columns[|columns| - 1].name] == columns[|columns| - 1].stype
  {
    if columns == [] then map[]
    else
      var last := columns[|columns| - 1];
      StypeMap(columns[..|columns| - 1])[last.name := last.stype]
  }

  /** `stypes` has exactly one key per column name. */
  lemma {:induction false} StypeMapKeys(columns: seq<Column>)
    ensures StypeMap(columns).Keys == set c | c in columns :: c.name
  {
    if columns != [] {
      var front := columns[..|columns| - 1];
      StypeMapKeys(front);
      assert columns == front + [columns[|columns| - 1]];
    }
  }

  /** A column that no later column shares a name with keeps its own stype;
      so with distinct names every column keeps its own. */
  lemma {:induction false} StypeMapLastWins(columns: seq<Column>, i: nat)
    requires i < |columns|
    requires forall j :: i < j < |columns| ==> columns[j].name != columns[i].name
    ensures columns[i].name in StypeMap(columns)
    ensures StypeMap(columns)[columns[i].name] == columns[i].stype
  {
    if i < |columns| - 1 {
      StypeMapLastWins(columns[..|columns| - 1], i);
    }
  }

  /** The inner loop of `inspect_metadata`. */
  method CollectStypes(columns: seq<Column>) returns (stypes: map<string, string>)
    ensures stypes == StypeMap(columns)
  {
    stypes := map[];
    for i := 0 to |columns|
      invariant stypes == StypeMap(columns[..i])
    {
      assert columns[..i + 1][..i] == columns[..i];
      stypes := stypes[columns[i].name := columns[i].stype];
    }
    assert columns[..|columns|] == columns;
  }

  /** `primary_key`: the key name, or `""` when the table's key is falsy. */
  function MetadataPrimaryKey(primaryKey: Option<string>): (key: string)
    ensures key == "" <==> primaryKey.None? || primaryKey.value == ""
    ensures key != "" ==> primaryKey == Some(key)
  {
    if primaryKey.Some? && primaryKey.value != "" then primaryKey.value else ""
  }

  /** `time_column`: the column name, or `None` when the table's time column is falsy. */
  function MetadataTimeColumn(timeColumn: Option<string>): (column: Option<string>)
    ensures column.None? <==> timeColumn.None? || timeColumn.value == ""
    ensures column.Some? ==> column == timeColumn
  {
    if timeColumn.Some? && timeColumn.value != "" then timeColumn else None
  }

  /** `path`: the catalog entry's path when there is a catalog, it holds the
      table and reading the path does not raise; `""` otherwise. */
  function CatalogPath(catalog: Catalog, tableName: string): (path: string)
    ensures catalog.Some? && tableName in catalog.value && catalog.value[tableName].path.Returned? ==>
      path == catalog.value[tableName].path.value
    ensures !(catalog.Some? && tableName in catalog.value && catalog.value[tableName].path.Returned?) ==>
      path == ""
  {
    if catalog.Some? && tableName in catalog.value then
      match catalog.value[tableName].path
      case Returned(p) => p
      case Raised(_) => ""
    else ""
  }

  /** The `TableMetadata` built for one table. */
  function TableMetadataOf(table: Table, catalog: Catalog): (m: TableMetadata)
    ensures m.name == table.name && m.path == CatalogPath(catalog, table.name)
    ensures m.primaryKey == "" <==> table.primaryKey.None? || table.primaryKey.value == ""
    ensures m.timeColumn.None? <==> table.timeColumn.None? || table.timeColumn.value == ""
    ensures m.stypes.Keys == set c | c in table.columns :: c.name
  {
    StypeMapKeys(table.columns);
    TableMetadata(table.name, CatalogPath(catalog, table.name),
                  MetadataPrimaryKey(table.primaryKey), MetadataTimeColumn(table.timeColumn),
                  StypeMap(table.columns))
  }

  /** `inspect_metadata`: one `TableMetadata` per table in table order and one
      `LinkMetadata` per edge in edge order; the session is only read. */
  method InspectMetadata(state: SessionState, catalog: Catalog, raised: Option<string>)
    returns (r: Response<GraphMetadata>)
    ensures raised.Some? ==> r == Response(false, MetadataFailed + raised.value, None)
    ensures raised.None? ==> r.success && r.message == MetadataRetrieved && r.data.Some?
    ensures r.data.Some? ==>
      var g, m := state.sessionData.graph, r.data.value;
      && |m.tables| == |g.tables|
      && (forall i :: 0 <= i < |g.tables| ==> m.tables[i] == TableMetadataOf(g.tables[i], catalog))
      && |m.links| == |g.edges|
      && (forall i :: 0 <= i < |g.edges| ==> EdgeOf(m.links[i]) == g.edges[i])
  {
    if raised.Some? {
      return Response(false, MetadataFailed + raised.value, None);
    }
    var session := state.GetSession();
    var graphTables := session.graph.tables;
    var tables: seq<TableMetadata> := [];
    for i := 0 to |graphTables|
      invariant |tables| == i
      invariant forall k :: 0 <= k < i ==> tables[k] == TableMetadataOf(graphTables[k], catalog)
    {
      var table := graphTables[i];
      var stypes := CollectStypes(table.columns);
      var path := "";
      if catalog.Some? && table.name in catalog.value {
        var entry := catalog.value[table.name].path;
        if entry.Returned? {
          path := entry.value;
        } else {
          path := "";
        }
      }
      var primaryKey := if table.primaryKey.Some? && table.primaryKey.value != "" then table.primaryKey.value else "";
      var timeColumn := if table.timeColumn.Some? && table.timeColumn.value != "" then table.timeColumn else None;
      tables := tables + [TableMetadata(table.name, path, primaryKey, timeColumn, stypes)];
    }
    var edges := session.graph.edges;
    var links: seq<LinkMetadata> := [];
    for i := 0 to |edges|
      invariant |links| == i
      invariant forall k :: 0 <= k < i ==> EdgeOf(links[k]) == edges[k]
    {
      links := links + [LinkMetadata(edges[i].srcTable, edges[i].fkey, edges[i].dstTable)];
    }
    r := Response(true, MetadataRetrieved, Some(GraphMetadata(tables, links)));
  }
}
