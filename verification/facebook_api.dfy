/**
 * The server actions for the profile, the pages and the linked accounts.
 * They read the provider token from the Supabase session; an absent token
 * stops them before any request.
 */
module FacebookApi {
  import opened Wrappers
  import opened GraphApi
  import opened Directory
  import opened Resolver
  import Auth

  const NoToken := "No Facebook access token found"
  const ProfileFailed := "Failed to fetch user profile from Facebook"
  const PagesFailed := "Failed to fetch user pages from Facebook"
  const Home := "/"

  /** `getUserProfile()`: `requireAuth` redirects a visitor without a session
      first; then the token guard; then the profile is fetched, upserted with
      the Supabase user id, and returned unchanged. */
  method GetUserProfile(db: Store, g: Graph, session: Option<Auth.SupabaseSession>, providerToken: Option<string>, now: Time)
    returns (out: Completion<UserData>, calls: seq<Call>)
    modifies db`users
    ensures session.None? ==> out == Redirected(Home) && calls == []
    ensures session.Some? && !Truthy(providerToken) ==> out == Raised(NoToken) && calls == []
    ensures !out.Returned? ==> db.users == old(db.users)
    ensures session.Some? && Truthy(providerToken) ==>
      && calls == [FetchProfile(providerToken.value)]
      && match g.fetchProfile(providerToken.value)
         case Err(_) => out == Raised(ProfileFailed)
         case Threw(reason) => out == Raised(reason)
         case Ok(user) =>
           && out == Returned(user)
           && db.users == SetUser(old(db.users), user, Some(session.value.userId), now)
  {
    if session.None? {
      return Redirected(Home), [];
    }
    if !Truthy(providerToken) {
      return Raised(NoToken), [];
    }
    calls := [FetchProfile(providerToken.value)];
    var response := g.fetchProfile(providerToken.value);
    match response {
      case Err(_) =>
        return Raised(ProfileFailed), calls;
      case Threw(reason) =>
        return Raised(reason), calls;
      case Ok(user) =>
        db.UpsertUser(user, Some(session.value.userId), now);
        out := Returned(user);
    }
  }

  /** `getUserPages()`: the token guard, then the listing's `data`, or no pages
      when the field is absent. Nothing is stored. */
  function GetUserPages(g: Graph, providerToken: Option<string>): (r: (Completion<seq<PageEntry>>, seq<Call>))
    ensures !Truthy(providerToken) ==> r == (Raised(NoToken), [])
    ensures Truthy(providerToken) ==> r.1 == [ListPages(providerToken.value)]
    ensures r.0.Returned? <==> Truthy(providerToken) && g.listPages(providerToken.value).Ok?
    ensures r.0.Returned? ==> r.0.value == PagesOf(g.listPages(providerToken.value).payload)
    ensures Truthy(providerToken) && g.listPages(providerToken.value).Err? ==> r.0 == Raised(PagesFailed)
  {
    if !Truthy(providerToken) then
      (Raised(NoToken), [])
    else
      var calls := [ListPages(providerToken.value)];
      match g.listPages(providerToken.value)
      case Ok(data) => (Returned(PagesOf(data)), calls)
      case Err(_) => (Raised(PagesFailed), calls)
      case Threw(reason) => (Raised(reason), calls)
  }

  /** `getInstagramAccounts(pages)`: the token guard, then the resolver over
      the given pages; per-page failures are swallowed. */
  method GetInstagramAccounts(db: Store, g: Graph, providerToken: Option<string>, pages: seq<PageEntry>, now: Time)
    returns (out: Completion<seq<LinkedAccount>>, calls: seq<Call>)
    modifies db`accounts
    ensures !Truthy(providerToken) ==> out == Raised(NoToken) && calls == [] && db.accounts == old(db.accounts)
    ensures Truthy(providerToken) ==>
      && out == Returned(Resolved(g, pages))
      && calls == ResolverCalls(g, pages)
      && db.accounts == Recorded(old(db.accounts), g, pages, now)
  {
    if !Truthy(providerToken) {
      return Raised(NoToken), [];
    }
    var found;
    found, calls := ResolvePages(db, g, pages, now);
    out := Returned(found);
  }
}
