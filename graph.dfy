/** The objects of the kumoai SDK that the tools read: a `LocalGraph` of
    `LocalTable`s and the foreign-key edges between them. Only the attributes
    the tools read are kept; everything else about them belongs to the SDK. */
module Graph {
  import opened Wrappers

  /** The pandas frame a table wraps: its length and its column labels. */
  datatype Frame = Frame(numRows: nat, columns: seq<string>)

  /** A column of a table's metadata; `stype` is the string form of its
      semantic type, which the SDK chooses. */
  datatype Column = Column(name: string, stype: string)

  /** A `LocalTable`: its name, its data, its metadata columns and the
      optional primary-key and time-column names. */
  datatype Table = Table(
    name: string,
    data: Frame,
    columns: seq<Column>,
    primaryKey: Option<string>,
    timeColumn: Option<string>)

  /** An edge `src_table.fkey -> dst_table`. */
  datatype Edge = Edge(srcTable: string, fkey: string, dstTable: string)

  /** `graph.tables` is a dictionary keyed by table name, kept here as the
      ordered sequence of its values; `graph.edges` is an ordered list. */
  datatype LocalGraph = LocalGraph(tables: seq<Table>, edges: seq<Edge>)

  /** Dictionary keys are unique: no two tables of a graph share a name. */
  predicate DistinctNames(tables: seq<Table>)
  {
    forall i, j :: 0 <= i < j < |tables| ==> tables[i].name != tables[j].name
  }

  type Graph = g: LocalGraph | DistinctNames(g.tables) witness LocalGraph([], [])

  /** `rfm.LocalGraph(tables=[])`. */
  const EmptyGraph: Graph := LocalGraph([], [])

  /** `list(graph.tables.keys())`, in insertion order. */
  function TableNames(tables: seq<Table>): (names: seq<string>)
    ensures |names| == |tables|
    ensures forall i :: 0 <= i < |tables| ==> names[i] == tables[i].name
  {
    if tables == [] then [] else [tables[0].name] + TableNames(tables[1..])
  }
}
