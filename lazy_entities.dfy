/** The two entities whose details are fetched on demand and then kept:
    a cloudcast's sections and description, which one detail request
    resolves together, and a user's metadata, from which the user's
    playlist listing is found.

    Each cached accessor is given twice: as a function of the remote API
    and the cached state, returning the result, the new cached state and
    the requests sent (`Access`), and as a method on the class that updates
    the fields in place and is proved to agree with that function. The
    memoisation properties are lemmas about the functions. */
module LazyEntities {
  import opened Values
  import opened Http
  import opened Entities
  import opened Client
  import opened Pagination

  /** One access to a cached value: what it returns, the cache afterwards,
      and the requests it sent, in order. */
  datatype Access<S, T> = Access(result: Result<T>, state: S, requests: seq<Request>)

  // ---------------------------------------------------------------------
  // Cloudcast details.

  /** The cached detail fields of a cloudcast. `sections` is None until
      resolved; a `description` of JNull (Python's None) is unresolved. A
      cloudcast built from a listing without a description key holds JNull;
      one built in code holds the default "" and never fetches it. */
  datatype Detail = Detail(sections: Option<seq<Section>>, description: Json)

  /** `_load`'s request: a GET of the API root followed by the key, which
      starts with a slash. */
  function LoadRequest(m: Mixcloud, key: Json): Request {
    GetRequest(m.apiRoot + Display(key), map[])
  }

  /** `Cloudcast._load`: one GET; the sections are decoded and stored
      before the description is read, so a response without a
      `description` key leaves the sections set and the description as it
      was. Without a client nothing is sent. */
  function LoadSpec(server: Request -> Response, client: Option<Mixcloud>, key: Json, d: Detail)
    : (a: Access<Detail, ()>)
    ensures a.requests == if client.Some? then [LoadRequest(client.value, key)] else []
    ensures a.result.Ok? ==> a.state.sections.Some?
    ensures a.result.Err? ==> a.state.description == d.description
    ensures a.state.sections == d.sections || a.state.sections.Some?
  {
    match client
    case None => Access(Err(AttributeError), d, [])
    case Some(m) =>
      var reqs := [LoadRequest(m, key)];
      match Fetch(server, LoadRequest(m, key))
      case Err(e) => Access(Err(e), d, reqs)
      case Ok(body) =>
        match Index(body, "sections")
        case Err(e) => Access(Err(e), d, reqs)
        case Ok(sectionsJson) =>
          match SectionsFromJson(sectionsJson)
          case Err(e) => Access(Err(e), d, reqs)
          case Ok(sections) =>
            match Index(body, "description")
            case Err(e) => Access(Err(e), d.(sections := Some(sections)), reqs)
            case Ok(description) => Access(Ok(()), Detail(Some(sections), description), reqs)
  }

  /** A load succeeds exactly when the client is set, the GET answers 200
      and its body carries decodable sections and a description; it then
      stores exactly those two. */
  lemma LoadSucceeds(server: Request -> Response, client: Option<Mixcloud>, key: Json, d: Detail)
    ensures var a := LoadSpec(server, client, key, d);
            a.result.Ok? <==>
              client.Some? && Fetch(server, LoadRequest(client.value, key)).Ok? &&
              var body := Fetch(server, LoadRequest(client.value, key)).value;
              Index(body, "sections").Ok? && SectionsFromJson(Index(body, "sections").value).Ok? &&
              Index(body, "description").Ok?
    ensures var a := LoadSpec(server, client, key, d);
            a.result.Ok? ==>
              var body := Fetch(server, LoadRequest(client.value, key)).value;
              a.state == Detail(Some(SectionsFromJson(Index(body, "sections").value).value),
                                Index(body, "description").value)
  {
  }

  /** The `sections` property: loads only while the sections are None. */
  function SectionsSpec(server: Request -> Response, client: Option<Mixcloud>, key: Json, d: Detail)
    : (a: Access<Detail, seq<Section>>)
    ensures d.sections.Some? ==> a == Access(Ok(d.sections.value), d, [])
    ensures a.result.Ok? ==> a.state.sections == Some(a.result.value)
    ensures |a.requests| <= 1
    ensures a.requests != [] <==> d.sections.None? && client.Some?
  {
    if d.sections.Some? then Access(Ok(d.sections.value), d, [])
    else
      var l := LoadSpec(server, client, key, d);
      match l.result
      case Err(e) => Access(Err(e), l.state, l.requests)
      case Ok(_) => Access(Ok(l.state.sections.value), l.state, l.requests)
  }

  /** The `description` property: loads only while the description is None,
      and returns whatever the load stored, which may again be None. */
  function DescriptionSpec(server: Request -> Response, client: Option<Mixcloud>, key: Json, d: Detail)
    : (a: Access<Detail, Json>)
    ensures d.description != JNull ==> a == Access(Ok(d.description), d, [])
    ensures a.result.Ok? ==> a.state.description == a.result.value
    ensures |a.requests| <= 1
    ensures a.requests != [] <==> d.description == JNull && client.Some?
  {
    if d.description != JNull then Access(Ok(d.description), d, [])
    else
      var l := LoadSpec(server, client, key, d);
      match l.result
      case Err(e) => Access(Err(e), l.state, l.requests)
      case Ok(_) => Access(Ok(l.state.description), l.state, l.requests)
  }

  /** Once the sections are resolved, reading them again sends nothing and
      returns the same list. */
  lemma SectionsMemoised(server: Request -> Response, client: Option<Mixcloud>, key: Json, d: Detail)
    ensures var a := SectionsSpec(server, client, key, d);
            a.result.Ok? ==> SectionsSpec(server, client, key, a.state) == Access(a.result, a.state, [])
  {
  }

  /** A load triggered by the sections also resolves the description: it is
      the response's description, and reading it afterwards sends nothing
      unless the response's description was null. */
  lemma SectionsLoadResolvesDescription(server: Request -> Response, client: Option<Mixcloud>, key: Json, d: Detail)
    requires d.sections.None?
    ensures var a := SectionsSpec(server, client, key, d);
            a.result.Ok? ==>
              var body := Fetch(server, LoadRequest(client.value, key)).value;
              a.requests == [LoadRequest(client.value, key)] &&
              a.state.description == Index(body, "description").value &&
              (DescriptionSpec(server, client, key, a.state).requests == [] <==> a.state.description != JNull)
  {
    LoadSucceeds(server, client, key, d);
  }

  /** A load triggered by the description also resolves the sections, so
      reading them afterwards sends nothing. */
  lemma DescriptionLoadResolvesSections(server: Request -> Response, client: Option<Mixcloud>, key: Json, d: Detail)
    requires d.description == JNull
    ensures var a := DescriptionSpec(server, client, key, d);
            a.result.Ok? ==>
              a.requests == [LoadRequest(client.value, key)] &&
              SectionsSpec(server, client, key, a.state).requests == []
  {
  }

  /** Reading the description and then the sections, in that order, sends
      at most one request between them whenever the first read succeeds. */
  lemma DescriptionThenSectionsLoadOnce(server: Request -> Response, client: Option<Mixcloud>, key: Json, d: Detail)
    ensures var a := DescriptionSpec(server, client, key, d);
            a.result.Ok? ==> |a.requests| + |SectionsSpec(server, client, key, a.state).requests| <= 1
  {
    if d.description == JNull {
      DescriptionLoadResolvesSections(server, client, key, d);
    }
  }

  /** A cloudcast. The identity fields and the tags are fixed; the detail
      fields are resolved on demand and kept. `tags` is None when the
      cloudcast was built without tags, as the dataclass default allows. */
  class Cloudcast {
    const key: Json
    const name: Json
    const tags: Option<seq<Tag>>
    const client: Option<Mixcloud>
    var sections: Option<seq<Section>>
    var description: Json

    function Cached(): Detail
      reads this
    {
      Detail(sections, description)
    }

    constructor (key: Json, name: Json, tags: Option<seq<Tag>>, client: Option<Mixcloud>,
                 sections: Option<seq<Section>>, description: Json)
      ensures this.key == key && this.name == name && this.tags == tags && this.client == client
      ensures Cached() == Detail(sections, description)
    {
      this.key := key;
      this.name := name;
      this.tags := tags;
      this.client := client;
      this.sections := sections;
      this.description := description;
    }

    /** `_load`. */
    method Load(net: Network) returns (r: Result<()>)
      modifies this, net
      ensures var a := LoadSpec(net.server, client, key, old(Cached()));
              r == a.result && Cached() == a.state && net.log == old(net.log) + a.requests
    {
      if client.None? {
        return Err(AttributeError);
      }
      var resp := Get(net, client.value.apiRoot + Display(key), map[]);
      if resp.Err? {
        return Err(resp.error);
      }
      var body := resp.value.body;
      var sectionsJson := Index(body, "sections");
      if sectionsJson.Err? {
        return Err(sectionsJson.error);
      }
      var decoded := SectionsFromJson(sectionsJson.value);
      if decoded.Err? {
        return Err(decoded.error);
      }
      sections := Some(decoded.value);
      var desc := Index(body, "description");
      if desc.Err? {
        return Err(desc.error);
      }
      description := desc.value;
      return Ok(());
    }

    /** The `sections` property. */
    method Sections(net: Network) returns (r: Result<seq<Section>>)
      modifies this, net
      ensures var a := SectionsSpec(net.server, client, key, old(Cached()));
              r == a.result && Cached() == a.state && net.log == old(net.log) + a.requests
    {
      if sections.None? {
        var loaded := Load(net);
        if loaded.Err? {
          return Err(loaded.error);
        }
      }
      return Ok(sections.value);
    }

    /** The `description` property. */
    method Description(net: Network) returns (r: Result<Json>)
      modifies this, net
      ensures var a := DescriptionSpec(net.server, client, key, old(Cached()));
              r == a.result && Cached() == a.state && net.log == old(net.log) + a.requests
    {
      if description == JNull {
        var loaded := Load(net);
        if loaded.Err? {
          return Err(loaded.error);
        }
      }
      return Ok(description);
    }
  }

  // ---------------------------------------------------------------------
  // User metadata and playlists.

  /** `_get_metadata`'s request: the user's name, not key, in the path, and
      the query string written into the URL itself. */
  function MetadataRequest(m: Mixcloud, name: Json): Request {
    GetRequest(m.apiRoot + "/" + Display(name) + "/?metadata=1", map[])
  }

  /** `data["metadata"]["connections"]`. */
  function Connections(body: Json): Result<Json> {
    var metadata :- Index(body, "metadata");
    Index(metadata, "connections")
  }

  /** The `metadata` property: fetches while the cached value is falsy and
      caches whatever the fetch returns, falsy or not; a failed fetch leaves
      the cache as it was. */
  function MetadataSpec(server: Request -> Response, client: Option<Mixcloud>, name: Json, cached: Json)
    : (a: Access<Json, Json>)
    ensures Truthy(cached) ==> a == Access(Ok(cached), cached, [])
    ensures a.requests != [] <==> !Truthy(cached) && client.Some?
    ensures a.requests != [] ==> a.requests == [MetadataRequest(client.value, name)]
    ensures a.result.Ok? ==> a.state == a.result.value
    ensures a.result.Err? ==> a.state == cached
  {
    if Truthy(cached) then Access(Ok(cached), cached, [])
    else
      match client
      case None => Access(Err(AttributeError), cached, [])
      case Some(m) =>
        var req := MetadataRequest(m, name);
        match Fetch(server, req)
        case Err(e) => Access(Err(e), cached, [req])
        case Ok(body) =>
          match Connections(body)
          case Err(e) => Access(Err(e), cached, [req])
          case Ok(md) => Access(Ok(md), md, [req])
  }

  /** Truthy metadata is fetched once: a second read sends nothing and
      returns the same value. Falsy metadata (an empty dict, say) is fetched
      again on every read. */
  lemma MetadataMemoised(server: Request -> Response, client: Option<Mixcloud>, name: Json, cached: Json)
    ensures var a := MetadataSpec(server, client, name, cached);
            a.result.Ok? && Truthy(a.result.value) ==>
              MetadataSpec(server, client, name, a.state) == Access(a.result, a.state, [])
    ensures var a := MetadataSpec(server, client, name, cached);
            a.result.Ok? && !Truthy(a.result.value) ==>
              MetadataSpec(server, client, name, a.state).requests == [MetadataRequest(client.value, name)]
  {
  }

  /** What `pl = self.metadata.get("playlists"); if pl:` decides: no
      listing (None) when the entry is missing or falsy, the listing URL when
      it is a string, and an error when the metadata is not a dict or the
      entry is a truthy non-string, which no URL can be made from. */
  function PlaylistsUrl(md: Json): (r: Result<Option<string>>)
    ensures r == Ok(None) <==> DictGet(md, "playlists").Ok? && !Truthy(DictGet(md, "playlists").value)
    ensures r.Ok? && r.value.Some? <==> md.JObj? && "playlists" in md.fields && md.fields["playlists"].JStr? && md.fields["playlists"].s != ""
    ensures r.Ok? && r.value.Some? ==> JStr(r.value.value) == md.fields["playlists"]
  {
    var pl :- DictGet(md, "playlists");
    if !Truthy(pl) then Ok(None)
    else if pl.JStr? then Ok(Some(pl.s))
    else Err(InvalidUrl)
  }

  /** The outcome of consuming `playlists()` to the end: the listing's
      entries, the error that stopped it if any, the cached metadata
      afterwards and the requests sent. */
  datatype Listing = Listing(items: seq<Json>, failure: Option<Error>, metadata: Json, requests: seq<Request>)

  /** The playlist listing, when there is one, ends. */
  ghost predicate PlaylistsEnd(server: Request -> Response, client: Option<Mixcloud>, name: Json, cached: Json) {
    var a := MetadataSpec(server, client, name, cached);
    a.result.Ok? ==>
      match PlaylistsUrl(a.result.value)
      case Ok(Some(url)) => Ends(server, url)
      case _ => true
  }

  ghost function PlaylistsSpec(server: Request -> Response, client: Option<Mixcloud>, name: Json, cached: Json): Listing
    requires PlaylistsEnd(server, client, name, cached)
  {
    var a := MetadataSpec(server, client, name, cached);
    match a.result
    case Err(e) => Listing([], Some(e), a.state, a.requests)
    case Ok(md) =>
      match PlaylistsUrl(md)
      case Err(e) => Listing([], Some(e), a.state, a.requests)
      case Ok(None) => Listing([], None, a.state, a.requests)
      case Ok(Some(url)) =>
        var t := AllPages(server, url);
        Listing(t.items, FailureOf(t.outcome), a.state, a.requests + t.requests)
  }

  /** Without a truthy `playlists` entry in the metadata, the listing is
      empty and the only request is the metadata fetch, if any. */
  lemma NoPlaylistsEntryNoListing(server: Request -> Response, client: Option<Mixcloud>, name: Json, cached: Json)
    requires var a := MetadataSpec(server, client, name, cached);
             a.result.Ok? && DictGet(a.result.value, "playlists").Ok? &&
             !Truthy(DictGet(a.result.value, "playlists").value)
    ensures PlaylistsEnd(server, client, name, cached)
    ensures var l := PlaylistsSpec(server, client, name, cached);
            l.items == [] && l.failure == None &&
            l.requests == MetadataSpec(server, client, name, cached).requests
  {
  }

  /** With cached metadata naming a listing URL, the requests sent are
      exactly the listing's pages, the first one asking for 50 entries, and
      the entries are the pages' `data` in order. */
  lemma PlaylistsFollowListing(server: Request -> Response, client: Option<Mixcloud>, name: Json, cached: Json, url: string)
    requires Truthy(cached) && PlaylistsUrl(cached) == Ok(Some(url)) && Ends(server, url)
    ensures PlaylistsEnd(server, client, name, cached)
    ensures var l := PlaylistsSpec(server, client, name, cached);
            l.metadata == cached &&
            l.requests == AllPages(server, url).requests && l.items == AllPages(server, url).items &&
            l.requests[0] == PageRequest(url, Some(PAGE_LIMIT), None)
  {
    var fuel: nat :| TraverseFrom(server, url, fuel).outcome != OutOfFuel && AllPages(server, url) == TraverseFrom(server, url, fuel);
    assert AllPages(server, url).requests[0] == FirstRequest(url);
  }

  /** A user. The identity fields are fixed; the metadata is fetched on
      demand and kept. */
  class User {
    const key: Json
    const name: Json
    const client: Option<Mixcloud>
    var metadata: Json

    /** `User.from_json(data, m=client)` once the decoder has found both
        keys: no metadata yet. */
    constructor (id: UserId, client: Option<Mixcloud>)
      ensures key == id.key && name == id.name && this.client == client && metadata == JNull
    {
      key := id.key;
      name := id.name;
      this.client := client;
      metadata := JNull;
    }

    /** The `metadata` property. */
    method Metadata(net: Network) returns (r: Result<Json>)
      modifies this, net
      ensures var a := MetadataSpec(net.server, client, name, old(metadata));
              r == a.result && metadata == a.state && net.log == old(net.log) + a.requests
    {
      if !Truthy(metadata) {
        if client.None? {
          return Err(AttributeError);
        }
        var resp := Get(net, client.value.apiRoot + "/" + Display(name) + "/?metadata=1", map[]);
        if resp.Err? {
          return Err(resp.error);
        }
        var md := Connections(resp.value.body);
        if md.Err? {
          return Err(md.error);
        }
        metadata := md.value;
      }
      return Ok(metadata);
    }

    /** `playlists()`, consumed to the end; the entries are the listing's
        raw JSON objects. */
    method Playlists(net: Network) returns (items: seq<Json>, failure: Option<Error>)
      requires PlaylistsEnd(net.server, client, name, metadata)
      modifies this, net
      ensures var l := PlaylistsSpec(net.server, client, name, old(metadata));
              items == l.items && failure == l.failure && metadata == l.metadata &&
              net.log == old(net.log) + l.requests
    {
      ghost var l := PlaylistsSpec(net.server, client, name, metadata);
      var md := Metadata(net);
      if md.Err? {
        return [], Some(md.error);
      }
      assert l.metadata == metadata;
      var url := PlaylistsUrl(md.value);
      if url.Err? {
        return [], Some(url.error);
      }
      if url.value.None? {
        return [], None;
      }
      items, failure := GetAll(net, url.value.value);
    }
  }
}
