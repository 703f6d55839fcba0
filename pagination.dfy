/** The pagination engine: `get_many` fetches one page of a collection and
    `get_all` walks the `paging.next` cursors from page to page, producing the
    `data` entries of every page in order. */
module Pagination {
  import opened Values
  import opened Decimal
  import opened Http

  /** The page size `get_all` asks for on its first request. */
  const PAGE_LIMIT: int := 50

  /** The query parameters of `get_many`: `limit` and `offset` appear exactly
      when they are given, each as the decimal text `requests` sends. */
  function PageParams(limit: Option<int>, offset: Option<int>): (p: map<string, string>)
    ensures "limit" in p <==> limit.Some?
    ensures "offset" in p <==> offset.Some?
    ensures limit.Some? ==> p["limit"] == IntToString(limit.value)
    ensures offset.Some? ==> p["offset"] == IntToString(offset.value)
    ensures p.Keys <= {"limit", "offset"}
  {
    var withLimit := if limit.Some? then map["limit" := IntToString(limit.value)] else map[];
    if offset.Some? then withLimit["offset" := IntToString(offset.value)] else withLimit
  }

  function PageRequest(url: string, limit: Option<int>, offset: Option<int>): Request {
    GetRequest(url, PageParams(limit, offset))
  }

  /** `get_many(url, limit, offset)`: one GET, then the decoded page. */
  method GetMany(net: Network, url: string, limit: Option<int>, offset: Option<int>)
    returns (r: Result<Json>)
    modifies net
    ensures net.log == old(net.log) + [PageRequest(url, limit, offset)]
    ensures r == Fetch(net.server, PageRequest(url, limit, offset))
  {
    var resp := Get(net, url, PageParams(limit, offset));
    if resp.Err? {
      return Err(resp.error);
    }
    return Ok(resp.value.body);
  }

  // ---------------------------------------------------------------------
  // What `get_all` reads from one page.

  /** `yield from data["data"]`: the entries of a page. */
  function PageItems(page: Json): Result<seq<Json>> {
    var data :- Index(page, "data");
    Iterate(data)
  }

  /** The loop test `"paging" in data and "next" in data["paging"]`. */
  function HasNext(page: Json): Result<bool> {
    var hasPaging :- Contains(page, "paging");
    if !hasPaging then Ok(false)
    else
      var paging :- Index(page, "paging");
      Contains(paging, "next")
  }

  /** `data["paging"]["next"]`, which `requests` needs to be a URL string. */
  function NextUrl(page: Json): Result<string> {
    var paging :- Index(page, "paging");
    var next :- Index(paging, "next");
    if next.JStr? then Ok(next.s) else Err(InvalidUrl)
  }

  // ---------------------------------------------------------------------
  // The traversal as a function of the remote API. `fuel` bounds the number
  // of pages followed after the first; `OutOfFuel` says the bound was hit.

  datatype Outcome = Finished | Failed(error: Error) | OutOfFuel

  /** The entries produced, the requests sent, and how the traversal ended. */
  datatype Traversal = Traversal(items: seq<Json>, requests: seq<Request>, outcome: Outcome)

  /** The entries of `page` and of every page reached from it. */
  function Continue(server: Request -> Response, page: Json, fuel: nat): Traversal
    decreases fuel
  {
    match PageItems(page)
    case Err(e) => Traversal([], [], Failed(e))
    case Ok(items) =>
      match HasNext(page)
      case Err(e) => Traversal(items, [], Failed(e))
      case Ok(more) =>
        if !more then Traversal(items, [], Finished)
        else
          match NextUrl(page)
          case Err(e) => Traversal(items, [], Failed(e))
          case Ok(url) =>
            if fuel == 0 then Traversal(items, [], OutOfFuel)
            else
              var req := PageRequest(url, None, None);
              match Fetch(server, req)
              case Err(e) => Traversal(items, [req], Failed(e))
              case Ok(next) =>
                var rest := Continue(server, next, fuel - 1);
                Traversal(items + rest.items, [req] + rest.requests, rest.outcome)
  }

  function FirstRequest(url: string): Request {
    PageRequest(url, Some(PAGE_LIMIT), None)
  }

  /** The whole of `get_all(url)`: the first page is fetched with `limit=50`. */
  function TraverseFrom(server: Request -> Response, url: string, fuel: nat): Traversal {
    match Fetch(server, FirstRequest(url))
    case Err(e) => Traversal([], [FirstRequest(url)], Failed(e))
    case Ok(first) =>
      var rest := Continue(server, first, fuel);
      Traversal(rest.items, [FirstRequest(url)] + rest.requests, rest.outcome)
  }

  /** The remote API eventually omits `next` (or a request fails) when walked
      from `url`; otherwise `get_all` never returns. */
  ghost predicate Ends(server: Request -> Response, url: string) {
    exists fuel: nat :: TraverseFrom(server, url, fuel).outcome != OutOfFuel
  }

  /** The result of `get_all(url)`, whichever sufficient fuel is used
      (see TraverseFromFuelIrrelevant). */
  ghost function AllPages(server: Request -> Response, url: string): Traversal
    requires Ends(server, url)
  {
    var fuel: nat :| TraverseFrom(server, url, fuel).outcome != OutOfFuel;
    TraverseFrom(server, url, fuel)
  }

  lemma AllPagesAt(server: Request -> Response, url: string, fuel: nat)
    requires TraverseFrom(server, url, fuel).outcome != OutOfFuel
    ensures Ends(server, url) && AllPages(server, url) == TraverseFrom(server, url, fuel)
  {
    var f: nat :| TraverseFrom(server, url, f).outcome != OutOfFuel && AllPages(server, url) == TraverseFrom(server, url, f);
    TraverseFromFuelIrrelevant(server, url, fuel, f);
  }

  function FailureOf(o: Outcome): Option<Error> {
    if o.Failed? then Some(o.error) else None
  }

  /** More fuel than a traversal needs changes nothing. */
  lemma {:induction false} ContinueFuelMonotone(server: Request -> Response, page: Json, f: nat, g: nat)
    requires f <= g
    requires Continue(server, page, f).outcome != OutOfFuel
    ensures Continue(server, page, g) == Continue(server, page, f)
    decreases f
  {
    if PageItems(page).Ok? && HasNext(page) == Ok(true) && NextUrl(page).Ok? && f > 0 {
      var req := PageRequest(NextUrl(page).value, None, None);
      if Fetch(server, req).Ok? {
        ContinueFuelMonotone(server, Fetch(server, req).value, f - 1, g - 1);
      }
    }
  }

  lemma TraverseFromFuelIrrelevant(server: Request -> Response, url: string, f: nat, g: nat)
    requires TraverseFrom(server, url, f).outcome != OutOfFuel
    requires TraverseFrom(server, url, g).outcome != OutOfFuel
    ensures TraverseFrom(server, url, f) == TraverseFrom(server, url, g)
  {
    var first := Fetch(server, FirstRequest(url));
    if first.Ok? {
      if f <= g {
        ContinueFuelMonotone(server, first.value, f, g);
      } else {
        ContinueFuelMonotone(server, first.value, g, f);
      }
    }
  }

  // ---------------------------------------------------------------------
  // An independent description: a chain of pages, each naming the next.

  /** `page` carries a `next` cursor, and fetching it answers `next`. */
  ghost predicate Links(server: Request -> Response, page: Json, next: Json) {
    PageItems(page).Ok? && HasNext(page) == Ok(true) && NextUrl(page).Ok? &&
    Fetch(server, PageRequest(NextUrl(page).value, None, None)) == Ok(next)
  }

  /** Consecutive pages are linked and the last one has no `next` cursor. */
  ghost predicate IsChain(server: Request -> Response, pages: seq<Json>) {
    |pages| > 0 &&
    (forall i | 0 <= i < |pages| - 1 :: Links(server, pages[i], pages[i + 1])) &&
    PageItems(pages[|pages| - 1]).Ok? && HasNext(pages[|pages| - 1]) == Ok(false)
  }

  /** The `data` entries of the pages, in page order. */
  ghost function Flatten(pages: seq<Json>): seq<Json> {
    if pages == [] then []
    else (if PageItems(pages[0]).Ok? then PageItems(pages[0]).value else []) + Flatten(pages[1..])
  }

  /** The requests that follow the cursors of a chain: one per page after the first. */
  ghost function CursorRequests(pages: seq<Json>): seq<Request> {
    if |pages| <= 1 then []
    else
      var cursor := match NextUrl(pages[0]) case Ok(u) => [PageRequest(u, None, None)] case Err(_) => [];
      cursor + CursorRequests(pages[1..])
  }

  lemma {:induction false} ChainIsContinued(server: Request -> Response, pages: seq<Json>)
    requires IsChain(server, pages)
    ensures Continue(server, pages[0], |pages| - 1) ==
            Traversal(Flatten(pages), CursorRequests(pages), Finished)
    decreases |pages|
  {
    if |pages| > 1 {
      var tail := pages[1..];
      assert Links(server, pages[0], pages[1]);
      assert IsChain(server, tail) by {
        forall i | 0 <= i < |tail| - 1 ensures Links(server, tail[i], tail[i + 1]) {
          assert Links(server, pages[i + 1], pages[i + 2]);
        }
      }
      ChainIsContinued(server, tail);
    }
  }

  lemma {:induction false} ContinuedIsChain(server: Request -> Response, page: Json, fuel: nat)
    requires Continue(server, page, fuel).outcome == Finished
    ensures exists pages ::
              IsChain(server, pages) && pages[0] == page &&
              Flatten(pages) == Continue(server, page, fuel).items &&
              CursorRequests(pages) == Continue(server, page, fuel).requests
    decreases fuel
  {
    var items := PageItems(page).value;
    if HasNext(page) == Ok(false) {
      var pages := [page];
      assert Flatten(pages) == items + Flatten([]);
      assert IsChain(server, pages);
    } else {
      var req := PageRequest(NextUrl(page).value, None, None);
      var next := Fetch(server, req).value;
      ContinuedIsChain(server, next, fuel - 1);
      var rest: seq<Json> :| IsChain(server, rest) && rest[0] == next &&
        Flatten(rest) == Continue(server, next, fuel - 1).items &&
        CursorRequests(rest) == Continue(server, next, fuel - 1).requests;
      var pages := [page] + rest;
      assert pages[1..] == rest;
      assert Links(server, page, next);
      assert IsChain(server, pages) by {
        forall i | 0 <= i < |pages| - 1 ensures Links(server, pages[i], pages[i + 1]) {
          if i > 0 {
            assert Links(server, rest[i - 1], rest[i]);
          }
        }
      }
    }
  }

  /** `get_all` ends normally exactly on a chain of pages from the first
      answer (fetched with `limit=50`) to a page without `next`; it then
      produces every page's `data` in page order and sends one request per
      page. Pages with empty `data` do not end the chain. */
  lemma ChainIsAllPages(server: Request -> Response, url: string, pages: seq<Json>)
    requires IsChain(server, pages) && Fetch(server, FirstRequest(url)) == Ok(pages[0])
    ensures Ends(server, url)
    ensures AllPages(server, url) ==
            Traversal(Flatten(pages), [FirstRequest(url)] + CursorRequests(pages), Finished)
  {
    ChainIsContinued(server, pages);
    assert TraverseFrom(server, url, |pages| - 1).outcome == Finished;
    var fuel: nat :| TraverseFrom(server, url, fuel).outcome != OutOfFuel && AllPages(server, url) == TraverseFrom(server, url, fuel);
    TraverseFromFuelIrrelevant(server, url, fuel, |pages| - 1);
  }

  lemma AllPagesIsChain(server: Request -> Response, url: string)
    requires Ends(server, url) && AllPages(server, url).outcome == Finished
    ensures exists pages ::
              IsChain(server, pages) && Fetch(server, FirstRequest(url)) == Ok(pages[0]) &&
              AllPages(server, url) ==
              Traversal(Flatten(pages), [FirstRequest(url)] + CursorRequests(pages), Finished)
  {
    var fuel: nat :| TraverseFrom(server, url, fuel).outcome != OutOfFuel && AllPages(server, url) == TraverseFrom(server, url, fuel);
    var first := Fetch(server, FirstRequest(url)).value;
    ContinuedIsChain(server, first, fuel);
  }

  /** An entry-less page that names a next page does not end the traversal:
      the next page is requested and its entries follow. */
  lemma EmptyPageContinues(server: Request -> Response, page: Json, next: Json, fuel: nat)
    requires PageItems(page) == Ok([]) && Links(server, page, next)
    ensures Continue(server, page, fuel + 1).requests ==
            [PageRequest(NextUrl(page).value, None, None)] + Continue(server, next, fuel).requests
    ensures Continue(server, page, fuel + 1).items == Continue(server, next, fuel).items
  {
  }

  /** The walk from `page` resumed after the entries `items` were produced
      and the requests `sent` were sent: every entry produced and every
      request sent by the end, and how it ended. This is the form the loop
      of `get_all` keeps track of. */
  function Resume(server: Request -> Response, page: Json, fuel: nat, items: seq<Json>, sent: seq<Request>): Traversal
    decreases fuel
  {
    match PageItems(page)
    case Err(e) => Traversal(items, sent, Failed(e))
    case Ok(data) =>
      match HasNext(page)
      case Err(e) => Traversal(items + data, sent, Failed(e))
      case Ok(more) =>
        if !more then Traversal(items + data, sent, Finished)
        else
          match NextUrl(page)
          case Err(e) => Traversal(items + data, sent, Failed(e))
          case Ok(url) =>
            if fuel == 0 then Traversal(items + data, sent, OutOfFuel)
            else
              var req := PageRequest(url, None, None);
              match Fetch(server, req)
              case Err(e) => Traversal(items + data, sent + [req], Failed(e))
              case Ok(next) => Resume(server, next, fuel - 1, items + data, sent + [req])
  }

  /** Resuming a walk adds exactly the walk's own entries and requests after
      those already produced and sent. */
  lemma {:induction false} ResumeIsContinue(server: Request -> Response, page: Json, fuel: nat, items: seq<Json>, sent: seq<Request>)
    ensures var t := Continue(server, page, fuel);
            Resume(server, page, fuel, items, sent) == Traversal(items + t.items, sent + t.requests, t.outcome)
    decreases fuel
  {
    if PageItems(page).Ok? && HasNext(page) == Ok(true) && NextUrl(page).Ok? && fuel > 0 {
      var data := PageItems(page).value;
      var req := PageRequest(NextUrl(page).value, None, None);
      if Fetch(server, req).Ok? {
        var next := Fetch(server, req).value;
        var rest := Continue(server, next, fuel - 1);
        ResumeIsContinue(server, next, fuel - 1, items + data, sent + [req]);
        assert (items + data) + rest.items == items + (data + rest.items);
        assert (sent + [req]) + rest.requests == sent + ([req] + rest.requests);
      }
    }
  }

  /** `get_all(url)`, consumed to the end: the entries produced before it
      returned or raised, and the exception if one was raised. */
  method GetAll(net: Network, url: string) returns (items: seq<Json>, failure: Option<Error>)
    requires Ends(net.server, url)
    modifies net
    ensures var t := AllPages(net.server, url);
            items == t.items && failure == FailureOf(t.outcome) && net.log == old(net.log) + t.requests
  {
    ghost var fuel: nat :| TraverseFrom(net.server, url, fuel).outcome != OutOfFuel;
    AllPagesAt(net.server, url, fuel);
    var first := GetMany(net, url, Some(PAGE_LIMIT), None);
    if first.Err? {
      return [], Some(first.error);
    }
    items, failure := FollowCursors(net, first.value, fuel);
  }

  /** The `while` loop of `get_all`: yield the entries of the current page,
      then follow its `next` cursor while there is one. */
  method FollowCursors(net: Network, first: Json, ghost fuel: nat)
    returns (items: seq<Json>, failure: Option<Error>)
    requires Continue(net.server, first, fuel).outcome != OutOfFuel
    modifies net
    ensures var t := Continue(net.server, first, fuel);
            items == t.items && failure == FailureOf(t.outcome) && net.log == old(net.log) + t.requests
  {
    ghost var goal := Resume(net.server, first, fuel, [], net.log);
    ResumeIsContinue(net.server, first, fuel, [], net.log);
    var page := first;
    items := [];
    ghost var left := fuel;
    while true
      invariant Resume(net.server, page, left, items, net.log) == goal
      decreases left
    {
      var data := PageItems(page);
      if data.Err? {
        return items, Some(data.error);
      }
      var more := HasNext(page);
      if more.Err? {
        return items + data.value, Some(more.error);
      }
      if !more.value {
        return items + data.value, None;
      }
      var url := NextUrl(page);
      if url.Err? {
        return items + data.value, Some(url.error);
      }
      var next := GetMany(net, url.value, None, None);
      items := items + data.value;
      if next.Err? {
        return items, Some(next.error);
      }
      page := next.value;
      left := left - 1;
    }
  }
}
