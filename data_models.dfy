/** `data_models.py`: the records the metadata and graph tools return. */
module DataModels {
  import opened Wrappers
  import opened Graph

  /** `TableMetadata`; `stypes` maps column names to semantic-type strings. */
  datatype TableMetadata = TableMetadata(
    name: string,
    path: string,
    primaryKey: string,
    timeColumn: Option<string>,
    stypes: map<string, string>)

  /** `LinkMetadata`, also the shape of each link dictionary of the graph tools. */
  datatype LinkMetadata = LinkMetadata(sourceTable: string, foreignKey: string, destinationTable: string)

  /** `GraphMetadata`. */
  datatype GraphMetadata = GraphMetadata(tables: seq<TableMetadata>, links: seq<LinkMetadata>)

  /** `dict(source_table=edge.src_table, foreign_key=edge.fkey, destination_table=edge.dst_table)`. */
  function LinkOf(e: Edge): (l: LinkMetadata)
    ensures EdgeOf(l) == e
  {
    LinkMetadata(e.srcTable, e.fkey, e.dstTable)
  }

  /** The edge a link record describes. */
  function EdgeOf(l: LinkMetadata): (e: Edge)
  {
    Edge(l.sourceTable, l.foreignKey, l.destinationTable)
  }

  /** One link record per edge, in edge order. */
  function LinksOf(edges: seq<Edge>): (links: seq<LinkMetadata>)
    ensures |links| == |edges|
    ensures forall i :: 0 <= i < |edges| ==> EdgeOf(links[i]) == edges[i]
  {
    if edges == [] then [] else [LinkOf(edges[0])] + LinksOf(edges[1..])
  }

  /** A link record is listed exactly when the edge it describes is. */
  lemma {:induction false} LinksOfMembers(edges: seq<Edge>)
    ensures forall l :: l in LinksOf(edges) <==> EdgeOf(l) in edges
  {
    if edges != [] {
      LinksOfMembers(edges[1..]);
      assert edges == [edges[0]] + edges[1..];
    }
  }
}
