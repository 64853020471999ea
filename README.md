# kumo-rfm-mcp: the session state machine and its tools, in Dafny

kumo-rfm-mcp is an MCP server. It exposes Kumo's relational foundation model
(KumoRFM) as tools that an assistant can call. The repository's own logic is
small:

- one shared **session record**. It holds an `initialized` flag, the API
  credentials, a `LocalGraph` of tables and foreign-key edges, and an
  optional model handle;
- the **tools** that read and change that record:
  - the first server revision's `create_table`, `remove_table`,
    `inspect_table` and `list_tables`, each behind an `initialized` guard;
  - `get_session_status` and `clear_session`;
  - `infer_links`, `inspect_graph`, `link_tables` and `unlink_tables`;
  - `inspect_metadata`;
  - `discover_table_files` and `inspect_table_file`;
  - `get_docs`.

Everything the graph does by itself belongs to the external `kumoai` SDK:
adding and removing tables, linking, and inferring links. The model treats
each SDK operation as an opaque parameter that either returns a value or
raises with an error text (`Attempt<T>` in `wrappers.dfy`). No validation
rule of the SDK is assumed. The structural assumptions the model does make
about the SDK are listed under "## Left out": failed calls leave the graph
alone, tables are keyed by name, and the default constructions give an empty
graph.

Layout, one module per source file:

- `wrappers.dfy`: `Option`, `Attempt`, `Result` and the `(success, message, data)` envelope `Response`.
- `graph.dfy`: the SDK's graph as values. A `Graph` is a `LocalGraph` whose
  table names are distinct. The model takes `graph.tables` to be keyed by each
  table's `name`.
- `session.py` → `session.dfy`: the classes `SessionData` and `SessionState`.
  Initialisation mutates the shared record that `get_session` returns. Key
  masking is a pure function.
- `server.py` → `server.dfy`: the class `KumoServer`. Its constructor runs
  the import-time `SessionState.initialize()`, and its methods are the four
  guarded tools.
- `data_models.py` → `data_models.dfy`: the `TableMetadata`, `LinkMetadata`
  and `GraphMetadata` records.
- `tools/session_tools.py` → `session_tools.dfy`
- `tools/graph_tools.py` → `graph_tools.dfy`
- `tools/metadata_tools.py` → `metadata_tools.dfy`
- `tools/table_tools.py` → `table_tools.dfy`
- `tools/docs_tools.py` → `docs_tools.dfy`

The `try` blocks of `get_session_status`, `inspect_graph`,
`inspect_metadata` and `clear_session` call no SDK operation that the model
spells out. Each of them may still raise, for example:
- from `SessionManager.get_default_session()`;
- from SDK attribute access;
- from the pydantic validation of `TableMetadata(...)`/`GraphMetadata(...)`;
- from building `rfm.LocalGraph(tables=[])`.

There the tool takes a `raised: Option<string>` argument: the text of any
exception raised in the block, or `None`.

## Model

| member | source | states |
|---|---|---|
| Session.SessionData.constructor | src/kumo_rfm_mcp/session.py:13-28 | a new record has the given id (by default `"default"`), `initialized` false, no key, no URL, an empty graph and no model |
| Session.SessionState.constructor | src/kumo_rfm_mcp/session.py:43 | the shared record starts with id `"default"` and the field defaults |
| Session.MaskKey | src/kumo_rfm_mcp/session.py:36 | `None` exactly for an absent or empty key; otherwise the masked key is a prefix of the key of length `min(8, len)`, followed by `"..."` |
| Session.MaskKeyDependsOnPrefixOnly | src/kumo_rfm_mcp/session.py:36 | two keys that share their first eight characters mask to the same text, so nothing past the eighth character is revealed |
| Session.SessionData.ToDict | src/kumo_rfm_mcp/session.py:30-37 | id, flag and URL are copied unchanged; the key is masked and at most 11 characters long |
| Session.ResolveApiUrl | src/kumo_rfm_mcp/session.py:54-58 | an unset or empty `KUMO_API_URL` gives `https://kumorfm.ai/api`, any other value is used as is; the result is never empty |
| Session.HasApiKey | src/kumo_rfm_mcp/session.py:62 | `if api_key:` holds exactly for the keys that `to_dict` shows in masked form |
| Session.SessionState.GetSession | src/kumo_rfm_mcp/session.py:43-48 | every call returns the one shared record |
| Session.SessionState.Initialize | src/kumo_rfm_mcp/session.py:51-75 | with a non-empty key: the key and resolved URL are stored, and `initialized` holds iff `kumo.init` returns, so the credentials stay when it raises; with no key: `initialized` is false and neither credential field is written; the graph and model are never touched |
| Server.KumoServer.constructor | src/kumo_rfm_mcp/server.py:26 | initialisation runs once, when the server is built, before any tool; the resulting record is the one `Initialize` describes |
| Server.FailureMessage | src/kumo_rfm_mcp/server.py:52 | the failure text starts with `Table <name>` and ends with the error text |
| Server.SuccessMessage | src/kumo_rfm_mcp/server.py:49 | the success text starts with `Table <name>` |
| Server.LoadFrameAsWritten | src/kumo_rfm_mcp/server.py:41 | `read_csv(p) or read_parquet(p)` as written always raises: the `read_csv` error when it fails, the truth-value error when it returns |
| Server.LoadFrame | src/kumo_rfm_mcp/server.py:41 | the corrected read returns a frame iff the CSV or the Parquet reader does; CSV is tried first |
| Server.ReadableCsvRejectedAsWritten | src/kumo_rfm_mcp/server.py:41 | a file that `read_csv` reads is refused as written and loaded by the corrected read |
| Server.CreatedGraph | src/kumo_rfm_mcp/server.py:43-47 | once the file is loaded: a load error comes back as that error, an `infer_metadata` error as its own error, and otherwise the result is `add_table`'s for the inferred table |
| Server.CreatedGraphSucceeds | src/kumo_rfm_mcp/server.py:41-49 | a table is added iff the load, `infer_metadata` and `add_table` all return |
| Server.CreatedGraphFailsAsWritten | src/kumo_rfm_mcp/server.py:41-52 | with the load as written, the outcome is always the load's own exception, so no table is ever added |
| Server.KumoServer.AddLoadedTable | src/kumo_rfm_mcp/server.py:33-52 | uninitialised: `(False, "Error: Server is not initialized.")` with the graph unchanged; otherwise success iff the loaded frame, inference and `add_table` all return, with the new graph and `Table <name> created successfully.`; any failure leaves the graph unchanged and returns the `creation failed` message with that step's error |
| Server.KumoServer.CreateTableAsWritten | src/kumo_rfm_mcp/server.py:33-52 | `kumo_create_table` as written never succeeds and never changes the graph. Uninitialised, it returns the guard message; initialised, it returns `Table <name> creation failed: <e>`, where `<e>` is `read_csv`'s error or the DataFrame truth-value error |
| Server.KumoServer.CreateTable | src/kumo_rfm_mcp/server.py:33-52 | the corrected tool, reading CSV and falling back to Parquet. Uninitialised: the guard message with the graph unchanged. Otherwise: success iff the load, inference and `add_table` all return, with the new graph and `Table <name> created successfully.`; any failure leaves the graph unchanged and returns the `creation failed` message |
| Server.KumoServer.RemoveTable | src/kumo_rfm_mcp/server.py:59-71 | the guard as above; otherwise exactly `table_name` goes to `remove_table`, success iff it returns, with the new graph and `Table <name> removed successfully.`, or the `removal failed` message with the graph unchanged |
| Server.KumoServer.InspectTable | src/kumo_rfm_mcp/server.py:78-95 | `row_limit` defaults to 3; the guard; `get_table` then the sample's JSON; success iff both return, where the message is the JSON; otherwise the `inspection failed` message with that step's error |
| Server.KumoServer.ListTables | src/kumo_rfm_mcp/server.py:101-113 | the guard; success iff the JSON dump returns, where the message is the JSON; otherwise `Table listing failed: <e>` |
| Graph.TableNames | src/kumo_rfm_mcp/tools/session_tools.py:62 | `list(graph.tables.keys())`: one name per table, in table order |
| SessionTools.GetSessionStatus | src/kumo_rfm_mcp/tools/session_tools.py:54-71 | reads the session only; `initialized` is copied, `table_names` lists the table keys in order, `num_links` is the number of edges, `is_rfm_model_ready` holds iff a model is present; an exception gives failure with `Failed to get session status. <e>` |
| SessionTools.ClearSession | src/kumo_rfm_mcp/tools/session_tools.py:95-108 | success leaves an empty graph and no model and writes no other field; an exception leaves both unchanged and returns `Failed to clear session. <e>` |
| SessionTools.ClearThenStatus | src/kumo_rfm_mcp/tools/session_tools.py:57-65 | a status taken right after a clear reports the earlier `initialized` flag, no tables, 0 links and no model |
| DataModels.LinkOf | src/kumo_rfm_mcp/data_models.py:16-22 | a `LinkMetadata` built from an edge gives back that edge |
| DataModels.LinksOf | src/kumo_rfm_mcp/tools/graph_tools.py:139-145 | one link per edge, in edge order, each naming its edge |
| DataModels.LinksOfMembers | src/kumo_rfm_mcp/tools/graph_tools.py:66-72 | a link is in the list iff the edge it names is among the edges |
| GraphTools.NewEdges | src/kumo_rfm_mcp/tools/graph_tools.py:59-61 | `set(after) - set(before)`: an edge is reported iff it is in `after` and not in `before`, with no repetition |
| GraphTools.InferLinks | src/kumo_rfm_mcp/tools/graph_tools.py:57-78 | when inference raises: the graph is unchanged and the result is `Failed to infer links. <e>`. When it returns: the graph is the new one, and a link is reported iff its edge is new, with no repetition; if no edge was added the list is empty |
| GraphTools.Summaries | src/kumo_rfm_mcp/tools/graph_tools.py:128-137 | one entry per table, in order, keyed by the table name, with the row count, the columns in order, the primary key and the time column |
| GraphTools.InspectGraph | src/kumo_rfm_mcp/tools/graph_tools.py:125-156 | reads the session only; one entry per table under its own name, with distinct keys and the fields copied; one link per edge in edge order; an exception gives `Failed to inspect graph. <e>` |
| GraphTools.LinkFailure | src/kumo_rfm_mcp/tools/graph_tools.py:200-201 | the failure message opens with `Failed to <verb> '<src>' and '<dst>' by '<fkey>'` and ends with `. ` and the error text |
| GraphTools.LinkTables | src/kumo_rfm_mcp/tools/graph_tools.py:188-202 | exactly `(source, fkey, destination)` goes to `link`; success iff it returns, with the new graph and `Successfully linked '<src>' and '<dst>' by '<fkey>'`; otherwise the graph is unchanged and the message is the failure text |
| GraphTools.UnlinkTables | src/kumo_rfm_mcp/tools/graph_tools.py:234-248 | the same over `unlink`, with the `unlinked` and `Failed to unlink` texts |
| MetadataTools.StypeMap | src/kumo_rfm_mcp/tools/metadata_tools.py:30-32 | the `stypes` dict: every column's name is a key, and the last column's name maps to its stype |
| MetadataTools.TableMetadataOf | src/kumo_rfm_mcp/tools/metadata_tools.py:43-52 | the record for one table: its name, its catalog path, `primary_key` `""` iff the key is falsy, `time_column` `None` iff the column is falsy, and one `stypes` key per column name |
| MetadataTools.StypeMapKeys | src/kumo_rfm_mcp/tools/metadata_tools.py:30-32 | the `stypes` keys are exactly the column names |
| MetadataTools.StypeMapLastWins | src/kumo_rfm_mcp/tools/metadata_tools.py:31-32 | a column that no later column shares a name with is mapped to its own stype |
| MetadataTools.CollectStypes | src/kumo_rfm_mcp/tools/metadata_tools.py:30-32 | the loop builds the `stypes` map, in which a later column overwrites an earlier namesake |
| MetadataTools.MetadataPrimaryKey | src/kumo_rfm_mcp/tools/metadata_tools.py:47-48 | `""` iff the table's primary key is absent or empty, the key name otherwise |
| MetadataTools.MetadataTimeColumn | src/kumo_rfm_mcp/tools/metadata_tools.py:49-50 | `None` iff the time column is absent or empty, the column otherwise |
| MetadataTools.CatalogPath | src/kumo_rfm_mcp/tools/metadata_tools.py:35-41 | the catalog path when a catalog exists, holds the table and reading the path returns; `""` in every other case |
| MetadataTools.InspectMetadata | src/kumo_rfm_mcp/tools/metadata_tools.py:16-77 | reads the session only; one `TableMetadata` per table, in table order, built from its name, catalog path, defaulted keys and stype map; one `LinkMetadata` per edge, in edge order; an exception gives `Failed to inspect metadata: <e>` |
| TableTools.LastIndexOf | src/kumo_rfm_mcp/tools/table_tools.py:32 | the position of the last occurrence of a character, or -1 if there is none |
| TableTools.FileName | src/kumo_rfm_mcp/tools/table_tools.py:32 | the last path component: a tail of the path with no `/` in it |
| TableTools.Suffix | src/kumo_rfm_mcp/tools/table_tools.py:32 | `Path.suffix`: empty, or a dot followed by one or more non-dot characters, ending the path and shorter than the file name |
| TableTools.SuffixOfFile | src/kumo_rfm_mcp/tools/table_tools.py:32 | the suffix of `<dir>/<stem><.ext>` is `.ext` |
| TableTools.Lower | src/kumo_rfm_mcp/tools/table_tools.py:32 | lower-casing keeps the length and maps each character |
| TableTools.IsTableFile | src/kumo_rfm_mcp/tools/table_tools.py:31-32 | `f.suffix.lower() in suffixes`: a kept file has a 4- or 8-character suffix and a non-empty stem before it |
| TableTools.ExtensionMatches | src/kumo_rfm_mcp/tools/table_tools.py:31-32 | `<dir>/<stem><.ext>` is kept iff `.ext` lower-cased is `.csv` or `.parquet` |
| TableTools.UpperCaseCsvMatches | src/kumo_rfm_mcp/tools/table_tools.py:32 | `.CSV` files are kept: matching ignores case |
| TableTools.MixedCaseParquetMatches | src/kumo_rfm_mcp/tools/table_tools.py:32 | `.Parquet` files are kept |
| TableTools.HiddenCsvRejected | src/kumo_rfm_mcp/tools/table_tools.py:32 | a file named just `.csv` has no suffix and is not kept |
| TableTools.CompressedCsvRejected | src/kumo_rfm_mcp/tools/table_tools.py:32 | `x.csv.gz` has suffix `.gz` and is not kept |
| TableTools.PathLe | src/kumo_rfm_mcp/tools/table_tools.py:35 | the path order `sorted` uses in this model; a path is ordered before every path it is a prefix of |
| TableTools.PathLeTotal | src/kumo_rfm_mcp/tools/table_tools.py:35 | any two paths are comparable in the ordering `sorted` uses |
| TableTools.PathLeTransitive | src/kumo_rfm_mcp/tools/table_tools.py:35 | the path ordering is transitive |
| TableTools.PathLeAntisymmetric | src/kumo_rfm_mcp/tools/table_tools.py:35 | paths that are ordered both ways are equal |
| TableTools.Insert | src/kumo_rfm_mcp/tools/table_tools.py:35 | inserting into a sorted list keeps it sorted and adds exactly that one entry |
| TableTools.SortByPath | src/kumo_rfm_mcp/tools/table_tools.py:35 | `sorted(files)`: sorted by path and a permutation of its input |
| TableTools.TableFiles | src/kumo_rfm_mcp/tools/table_tools.py:32 | the filter keeps every table file as often as it occurs and nothing else |
| TableTools.GlobPattern | src/kumo_rfm_mcp/tools/table_tools.py:30 | the pattern is `"**/*"` iff `recursive`, and `"*"` iff not |
| TableTools.DiscoverTableFiles | src/kumo_rfm_mcp/tools/table_tools.py:12-36 | a missing or non-directory path fails with `Directory '<path>' does not exist`; otherwise the listing for `"**/*"` (recursive) or `"*"` is filtered to table files and sorted by path, with each kept file occurring as often as in the listing and nothing added; `recursive` defaults to false |
| TableTools.DefaultScanIsTopLevel | src/kumo_rfm_mcp/tools/table_tools.py:14-30 | without `recursive`, the listing is the top-level `"*"` one |
| TableTools.InspectTableFile | src/kumo_rfm_mcp/tools/table_tools.py:39-70 | a `.csv` suffix (any case) goes to the CSV reader with `num_rows`; `.parquet` is read whole and cut to its first `min(num_rows, len)` rows; a reader error becomes `Could not read file '<path>': <e>`; any other suffix gives `'<path>' is not a valid CSV or Parquet file`; `num_rows` defaults to 20 |
| TableTools.DefaultReadsTwentyRows | src/kumo_rfm_mcp/tools/table_tools.py:41-64 | without `num_rows`, the CSV reader is asked for 20 rows and a Parquet file is cut to `min(20, len)` rows |
| TableTools.TableFileNotRefused | src/kumo_rfm_mcp/tools/table_tools.py:56-68 | a file with a table suffix is never refused for its suffix |
| TableTools.DiscoveredFilesAreReadable | src/kumo_rfm_mcp/tools/table_tools.py:32-68 | every file that discovery reports is handed to a reader by `inspect_table_file` |
| DocsTools.Uris | src/kumo_rfm_mcp/tools/docs_tools.py:48 | `list(resources.keys())`: the URIs in registration order |
| DocsTools.Lookup | src/kumo_rfm_mcp/tools/docs_tools.py:47-54 | finds a resource iff the URI is registered, and what it finds is registered under that URI |
| DocsTools.LookupFindsRegistered | src/kumo_rfm_mcp/tools/docs_tools.py:54 | with distinct URIs, looking up a registered URI gives its own resource |
| DocsTools.GetDocs | src/kumo_rfm_mcp/tools/docs_tools.py:43-68 | the four outcomes exactly: `Error retrieving resource: <e>` when listing or the resource function raises; `Resource not found: <uri>` with every registered URI for an unknown one; `Resource not callable: <uri>`; success with the function's content. `success` holds iff content is present, and `available_resources` is present iff the URI is unknown |
| DocsTools.RegisteredContentReturned | src/kumo_rfm_mcp/tools/docs_tools.py:54-60 | a registered resource whose function returns is served with exactly that content |

## Left out

- The `kumoai` SDK is out of scope: `add_table`, `remove_table`, `get_table`, `link`, `unlink`, `infer_links`, `LocalTable(...).infer_metadata()`, `table.sample` and `kumo.init`. Each is a parameter that returns or raises. None of their validation rules, cascades or heuristics is modelled.
- An SDK call that raises is assumed to leave the graph as it was. A partial change made before the exception is not modelled.
- The `Graph` type: `graph.tables` is taken to map each table's `name` to that table, so names are distinct and the keys are the names. `get_session_status` reads the keys while `inspect_graph` and `inspect_metadata` read `table.name`, and nothing outside the SDK establishes that the two agree.
- KumoRFM model construction is not modelled. It lives in `tools/model_tools.py`, which is not part of this model. The model handle is an opaque `ModelHandle`.
- `session.py` declares the field `rfm: KumoRFM = KumoRFM()`. The tools instead read and write `session.model` and test it against `None`. The model follows the tools: `model: Option<ModelHandle>`, which starts as `None`.
- In the tools the session comes from `SessionManager.get_default_session()`. `session.py` defines only `SessionState.get_session`. The model uses `SessionState` for both. The `Session`/`SessionManager` API that only the tests describe is left out. This covers idempotent initialisation and the `ValueError` for a missing key.
- `server.py` uses `Tuple` and `json` without importing them. With no `from __future__ import annotations`, a Python that evaluates annotations eagerly raises `NameError` on `Tuple[bool, str]` (line 33) while the module is imported. Then no tool is registered. The model assumes both names are imported.
- Server.KumoServer.CreateTable: states the corrected load (CSV, falling back to Parquet), so unlike line 41 as written it can succeed. For the code as written see `Server.KumoServer.CreateTableAsWritten` under "## Findings".
- `json.dumps` and `df.to_dict(orient="records")` are opaque parameters (`dumps`, `sampleJson`). The model does not describe the JSON text.
- GraphTools.InferLinks: Python lists the inferred edges by iterating over a set, whose order is unspecified. The model lists them in the order they first appear in the new edge list. It proves the set of listed edges and the absence of repeats, but makes no claim about their order.
- `stypes` is a Python dict, whose key order is insertion order. The model uses a Dafny `map`, so it keeps the keys and values but not their order.
- `str(column.stype)` is taken to be the column's stype text.
- `session.catalog` becomes `InspectMetadata`'s `catalog` argument, where `None` means the session has no `catalog` attribute. `SessionData` in `session.py` declares no such field, so for that record the argument is `None` and every `path` is `""`. The catalog record itself is not part of this model.
- Lower-casing covers ASCII letters only. Python's `str.lower` also maps non-ASCII letters.
- Path handling: `Path.expanduser` and path normalisation are left out, and the caller passes the expanded, normalised path. The existence check, `glob` and `stat` are inputs. `glob` gives the (path, size) listing for a pattern, and `isDirectory` stands for `exists() and is_dir()`.
- TableTools.PathLe: `sorted` compares `Path` objects by their components. The model compares the path strings with `/` ranked below every other character. The two orders agree on normalised POSIX paths.
- `read_csv` and `read_parquet` are opaque readers that return rows or raise. `head(n)` keeps the first `min(n, len)` rows, and an exception from it counts as the Parquet read's.
- `LocalGraph()` and `KumoRFM()` in the `SessionData` field defaults, and `rfm.LocalGraph(tables=[])` in `clear_session`, are assumed to build without raising. Both `LocalGraph` constructions are assumed to give the graph with no tables and no edges, and the model handle starts absent. session.py:21 carries a TODO that the empty graph cannot yet be built that way. A failure there, when the class is defined, is not modelled.
- `json.dumps(session.graph.tables, indent=2)` in `list_tables` is given a dict of `LocalTable` objects and no `default=`. The standard encoder would then raise `TypeError` for any non-empty graph. The opaque `dumps` parameter allows that outcome, but the model does not state it.
- The bounds `1 <= num_rows <= 1000` are checked by the tool framework's argument validation before `inspect_table_file` runs. The model states them as a precondition.
- `get_docs`: a resource's `fn` is reduced to whether it is callable and what awaiting it yields. `mcp.get_resources()` is an input that may raise.
- Left out entirely:
  - `update_graph_metadata` and the predict/evaluate tools;
  - the documentation and example resources, which are static text;
  - FastMCP registration, the stdio transport and packaging;
  - logging;
  - the async scheduling: each tool call is one sequential step.

## Findings

| source | as written | input that shows it | evidently intended | confidence | as-written member | corrected member |
|---|---|---|---|---|---|---|
| src/kumo_rfm_mcp/server.py:41 | `df = pd.read_csv(file_path) or pd.read_parquet(file_path)` takes the truth value of the frame `read_csv` returns. For a pandas DataFrame that raises `ValueError`, so `create_table` fails for every file. | any CSV file that `read_csv` reads, e.g. `data.csv` holding `id\n1` | load the file as CSV and fall back to Parquet when the CSV read fails | high; not executed | Server.LoadFrameAsWritten, Server.ReadableCsvRejectedAsWritten, Server.CreatedGraphFailsAsWritten, Server.KumoServer.CreateTableAsWritten | Server.LoadFrame, Server.KumoServer.CreateTable |
