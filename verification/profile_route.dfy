/**
 * `GET /api/user/profile`: fetch the caller's profile with the session's
 * token and upsert it into the users collection by its external id.
 */
module ProfileRoute {
  import opened Wrappers
  import opened GraphApi
  import opened Directory
  import Auth

  const Unauthorized := "Unauthorized"
  const NoToken := "No access token found"
  const FetchFailed := "Failed to fetch user profile"

  method Get(db: Store, g: Graph, session: Option<Auth.Session>, now: Time)
    returns (res: HttpResult<UserData>, calls: seq<Call>)
    modifies db`users
    ensures session.None? ==> res == Failure(401, Unauthorized) && calls == []
    ensures session.Some? && !Truthy(session.value.accessToken) ==> res == Failure(400, NoToken) && calls == []
    ensures !res.Success? ==> db.users == old(db.users)
    ensures session.Some? && Truthy(session.value.accessToken) ==>
      var token := session.value.accessToken.value;
      && calls == [FetchProfile(token)]
      && match g.fetchProfile(token)
         case Err(m) => res == Failure(500, FetchFailed + ": " + MessageOr(m))
         case Threw(_) => res == Failure(500, FetchFailed)
         case Ok(user) =>
           // the fetched profile is answered unchanged and saved under its id;
           // a linked Supabase id already stored there is kept
           && res == Success(user)
           && db.users == SetUser(old(db.users), user, None, now)
  {
    if session.None? {
      return Failure(401, Unauthorized), [];
    }
    if !Truthy(session.value.accessToken) {
      return Failure(400, NoToken), [];
    }
    var token := session.value.accessToken.value;
    calls := [FetchProfile(token)];
    var response := g.fetchProfile(token);
    match response {
      case Err(m) =>
        return Failure(500, FetchFailed + ": " + MessageOr(m)), calls;
      case Threw(_) =>
        return Failure(500, FetchFailed), calls;
      case Ok(user) =>
        db.UpsertUser(user, None, now);
        res := Success(user);
    }
  }
}
