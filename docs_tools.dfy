/** `tools/docs_tools.py`: `get_docs`, a lookup of a `kumo://` URI among the
    server's registered resources. */
module DocsTools {
  import opened Wrappers

  /** A registered resource: `fn` is `None` when it has no callable `fn`,
      otherwise what awaiting `fn()` did. */
  datatype Resource = Resource(fn: Option<Attempt<string>>)

  predicate DistinctUris(entries: seq<(string, Resource)>)
  {
    forall i, j :: 0 <= i < j < |entries| ==> entries[i].0 != entries[j].0
  }

  /** The dictionary `mcp.get_resources()` returns, as its (URI, resource)
      pairs in insertion order. */
  type Resources = entries: seq<(string, Resource)> | DistinctUris(entries) witness []

  /** The dictionary `get_docs` returns: `content` only on success and
      `available_resources` only for an unknown URI. */
  datatype DocsReply = DocsReply(
    success: bool,
    message: string,
    content: Option<string>,
    availableResources: Option<seq<string>>)

  /** `list(resources.keys())`. */
  function Uris(entries: seq<(string, Resource)>): (uris: seq<string>)
    ensures |uris| == |entries|
    ensures forall i :: 0 <= i < |entries| ==> uris[i] == entries[i].0
  {
    if entries == [] then [] else [entries[0].0] + Uris(entries[1..])
  }

  /** `resources[uri]` when `uri in resources`. */
  function Lookup(entries: seq<(string, Resource)>, uri: string): (found: Option<Resource>)
    ensures found.None? <==> uri !in Uris(entries)
    ensures found.Some? ==> (uri, found.value) in entries
  {
    if entries == [] then None
    else if entries[0].0 == uri then Some(entries[0].1)
    else
      assert Uris(entries) == [entries[0].0] + Uris(entries[1..]);
      Lookup(entries[1..], uri)
  }

  /** With distinct URIs, the resource found is the one registered under the URI. */
  lemma {:induction false} LookupFindsRegistered(entries: Resources, i: nat)
    requires i < |entries|
    ensures Lookup(entries, entries[i].0) == Some(entries[i].1)
  {
    if i > 0 {
      var rest: Resources := entries[1..];
      LookupFindsRegistered(rest, i - 1);
    }
  }

  const NotFoundPrefix: string := "Resource not found: "
  const NotCallablePrefix: string := "Resource not callable: "
  const RetrievedPrefix: string := "Successfully retrieved: "
  const ErrorPrefix: string := "Error retrieving resource: "

  /** `get_docs`. `resources` is what awaiting `mcp.get_resources()` did. */
  function GetDocs(uri: string, resources: Attempt<Resources>): (r: DocsReply)
    ensures resources.Raised? ==> r == DocsReply(false, ErrorPrefix + resources.error, None, None)
    ensures resources.Returned? && uri !in Uris(resources.value) ==>
      r == DocsReply(false, NotFoundPrefix + uri, None, Some(Uris(resources.value)))
    ensures resources.Returned? && uri in Uris(resources.value) ==>
      var resource := Lookup(resources.value, uri).value;
      && (resource.fn.None? ==> r == DocsReply(false, NotCallablePrefix + uri, None, None))
      && (resource.fn.Some? && resource.fn.value.Returned? ==>
            r == DocsReply(true, RetrievedPrefix + uri, Some(resource.fn.value.value), None))
      && (resource.fn.Some? && resource.fn.value.Raised? ==>
            r == DocsReply(false, ErrorPrefix + resource.fn.value.error, None, None))
    ensures r.success <==> r.content.Some?
    ensures r.availableResources.Some? <==> resources.Returned? && uri !in Uris(resources.value)
  {
    match resources
    case Raised(e) => DocsReply(false, ErrorPrefix + e, None, None)
    case Returned(entries) =>
      match Lookup(entries, uri)
      case None => DocsReply(false, NotFoundPrefix + uri, None, Some(Uris(entries)))
      case Some(resource) =>
        match resource.fn
        case None => DocsReply(false, NotCallablePrefix + uri, None, None)
        case Some(Returned(content)) => DocsReply(true, RetrievedPrefix + uri, Some(content), None)
        case Some(Raised(e)) => DocsReply(false, ErrorPrefix + e, None, None)
  }

  /** A registered resource whose `fn` returns yields exactly that content. */
  lemma RegisteredContentReturned(entries: Resources, i: nat)
    requires i < |entries|
    requires entries[i].1.fn.Some? && entries[i].1.fn.value.Returned?
    ensures GetDocs(entries[i].0, Returned(entries)).success
    ensures GetDocs(entries[i].0, Returned(entries)).content == Some(entries[i].1.fn.value.value)
  {
    LookupFindsRegistered(entries, i);
  }
}
