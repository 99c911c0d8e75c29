/**
 * `POST /api/publish`: the Supabase-session and body guards around
 * `publishToInstagram`, whose errors all collapse into one fixed message.
 */
module PublishRoute {
  import opened Wrappers
  import opened GraphApi
  import opened Directory
  import opened InstagramApi
  import Auth

  const Unauthorized := "Unauthorized"
  const FieldsRequired := "Instagram account ID and content are required"
  const Failed := "Failed to publish to Instagram"

  /** `body` is what parsing the request body yields. On success the answer
      carries `publishToInstagram`'s return value, the committed media id. */
  method Post(db: Store, g: Graph, session: Option<Auth.SupabaseSession>,
              body: JsonBody<PublishFields>, now: Time)
    returns (res: HttpResult<Option<string>>, calls: seq<Call>)
    modifies db`publications
    ensures session.None? ==> res == Failure(401, Unauthorized) && calls == []
    // a body that is not JSON throws into the catch block
    ensures session.Some? && body.Malformed? ==> res == Failure(500, Failed) && calls == []
    ensures session.Some? && body.Parsed? && !(Truthy(body.value.instagramAccountId) && Truthy(body.value.content)) ==>
      res == Failure(400, FieldsRequired) && calls == []
    ensures res.Success? <==>
      && session.Some? && body.Parsed? && Truthy(body.value.instagramAccountId) && Truthy(body.value.content)
      && Publishes(g, old(db.accounts), body.value.instagramAccountId.value, body.value.content.value)
    ensures session.Some? && body.Parsed? && Truthy(body.value.instagramAccountId) && Truthy(body.value.content) ==>
      var id, text := body.value.instagramAccountId.value, body.value.content.value;
      // the requests are the action's, with the account record's cached token
      && calls == PublishCalls(g, old(db.accounts), id, text)
      && (res.Success? ==>
            && res.body == MediaOf(g, old(db.accounts), id, text)
            && db.publications == old(db.publications) +
                 [Publication(id, old(db.accounts)[id].username, text, res.body, now, Published)])
      // whatever was thrown, the detail is discarded
      && (!res.Success? ==> res == Failure(500, Failed))
    ensures !res.Success? ==> db.publications == old(db.publications)
  {
    if session.None? {
      return Failure(401, Unauthorized), [];
    }
    if body.Malformed? {
      return Failure(500, Failed), [];
    }
    var accountId, content := body.value.instagramAccountId, body.value.content;
    if !Truthy(accountId) || !Truthy(content) {
      return Failure(400, FieldsRequired), [];
    }
    var out;
    out, calls := PublishToInstagram(db, g, session, accountId.value, content.value, now);
    match out {
      case Returned(result) =>
        res := Success(result);
      case _ =>
        res := Failure(500, Failed);
    }
  }
}
