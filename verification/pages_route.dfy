/**
 * `GET /api/facebook/pages`: list the caller's pages with the session's
 * token and upsert each of them into the pages collection by page id.
 */
module PagesRoute {
  import opened Wrappers
  import opened GraphApi
  import opened Directory
  import Auth

  const Unauthorized := "Unauthorized"
  const NoToken := "No access token found"
  const FetchFailed := "Failed to fetch Facebook pages"

  method Get(db: Store, g: Graph, session: Option<Auth.Session>, now: Time)
    returns (res: HttpResult<seq<PageEntry>>, calls: seq<Call>)
    modifies db`pages
    // the guards come before any request
    ensures session.None? ==> res == Failure(401, Unauthorized) && calls == []
    ensures session.Some? && !Truthy(session.value.accessToken) ==> res == Failure(400, NoToken) && calls == []
    ensures !res.Success? ==> db.pages == old(db.pages)
    ensures session.Some? && Truthy(session.value.accessToken) ==>
      var token := session.value.accessToken.value;
      && calls == [ListPages(token)]
      && match g.listPages(token)
         case Err(m) => res == Failure(500, FetchFailed + ": " + MessageOr(m))
         case Threw(_) => res == Failure(500, FetchFailed)
         case Ok(data) =>
           // the answer is exactly the listed pages, and each was saved
           && res == Success(PagesOf(data))
           && db.pages == SavePages(old(db.pages), PagesOf(data), now)
  {
    if session.None? {
      return Failure(401, Unauthorized), [];
    }
    if !Truthy(session.value.accessToken) {
      return Failure(400, NoToken), [];
    }
    var token := session.value.accessToken.value;
    calls := [ListPages(token)];
    var response := g.listPages(token);
    match response {
      case Err(m) =>
        return Failure(500, FetchFailed + ": " + MessageOr(m)), calls;
      case Threw(_) =>
        return Failure(500, FetchFailed), calls;
      case Ok(data) =>
        var pages := PagesOf(data);
        for i := 0 to |pages|
          invariant db.pages == SavePages(old(db.pages), pages[..i], now)
        {
          db.UpsertPage(pages[i], now);
          assert pages[..i + 1][..i] == pages[..i];
        }
        assert pages[..|pages|] == pages;
        res := Success(pages);
    }
  }
}
