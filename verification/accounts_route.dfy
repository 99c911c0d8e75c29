/**
 * `GET /api/instagram/accounts`: list the caller's pages with the session's
 * token, then run the resolver over them.
 */
module AccountsRoute {
  import opened Wrappers
  import opened GraphApi
  import opened Directory
  import opened Resolver
  import Auth

  const Unauthorized := "Unauthorized"
  const NoToken := "No access token found"
  const PagesFailed := "Failed to fetch Facebook pages"
  const Failed := "Failed to fetch Instagram accounts"

  method Get(db: Store, g: Graph, session: Option<Auth.Session>, now: Time)
    returns (res: HttpResult<seq<LinkedAccount>>, calls: seq<Call>)
    modifies db`accounts
    ensures session.None? ==> res == Failure(401, Unauthorized) && calls == []
    ensures session.Some? && !Truthy(session.value.accessToken) ==> res == Failure(400, NoToken) && calls == []
    // a failed listing does no per-page work
    ensures !res.Success? ==> db.accounts == old(db.accounts) && |calls| <= 1
    ensures session.Some? && Truthy(session.value.accessToken) ==>
      var token := session.value.accessToken.value;
      && |calls| >= 1 && calls[0] == ListPages(token)
      && match g.listPages(token)
         case Err(m) => res == Failure(500, PagesFailed + ": " + MessageOr(m))
         case Threw(_) => res == Failure(500, Failed)
         case Ok(data) =>
           // an absent `data` field reads as no pages, hence an empty answer
           && res == Success(Resolved(g, PagesOf(data)))
           && calls == [ListPages(token)] + ResolverCalls(g, PagesOf(data))
           && db.accounts == Recorded(old(db.accounts), g, PagesOf(data), now)
  {
    if session.None? {
      return Failure(401, Unauthorized), [];
    }
    if !Truthy(session.value.accessToken) {
      return Failure(400, NoToken), [];
    }
    var token := session.value.accessToken.value;
    calls := [ListPages(token)];
    var response := g.listPages(token);
    match response {
      case Err(m) =>
        return Failure(500, PagesFailed + ": " + MessageOr(m)), calls;
      case Threw(_) =>
        return Failure(500, Failed), calls;
      case Ok(data) =>
        var found, pageCalls := ResolvePages(db, g, PagesOf(data), now);
        calls := calls + pageCalls;
        res := Success(found);
    }
  }
}
