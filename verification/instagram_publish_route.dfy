/**
 * `POST /api/instagram/publish`: the publish pipeline as a route handler.
 * Guards, then the account record, then its page record (whose token is the
 * credential), then the two-phase publish (create a media container, commit
 * it), then one publication record.
 */
module InstagramPublishRoute {
  import opened Wrappers
  import opened GraphApi
  import opened Directory
  import Auth

  const Unauthorized := "Unauthorized"
  const FieldsRequired := "Instagram account ID and content are required"
  const AccountNotFound := "Instagram account not found"
  const PageNotFound := "Facebook page not found"
  const ContainerFailed := "Failed to create Instagram media container: "
  const PublishFailed := "Failed to publish to Instagram: "

  /** `body` is what parsing the request body yields; `instagramAccountId`
      and `content` are its fields. The answer on success is the committed
      media id. */
  method Post(db: Store, g: Graph, session: Option<Auth.Session>,
              body: JsonBody<PublishFields>, now: Time)
    returns (res: HttpResult<Option<string>>, calls: seq<Call>)
    modifies db`publications
    // a failure records nothing
    ensures !res.Success? ==> db.publications == old(db.publications)
    // the guards and the lookups come before any request
    ensures session.None? ==> res == Failure(401, Unauthorized) && calls == []
    // a body that is not JSON throws into the catch block
    ensures session.Some? && body.Malformed? ==> res == Failure(500, PublishFailed + body.reason) && calls == []
    ensures session.Some? && body.Parsed? ==>
      var accountId, content := body.value.instagramAccountId, body.value.content;
      && (!(Truthy(accountId) && Truthy(content)) ==> res == Failure(400, FieldsRequired) && calls == [])
      && (Truthy(accountId) && Truthy(content) && accountId.value !in old(db.accounts) ==>
            res == Failure(404, AccountNotFound) && calls == [])
      && (Truthy(accountId) && Truthy(content) && accountId.value in old(db.accounts)
          && old(db.accounts)[accountId.value].pageId !in old(db.pages) ==>
            res == Failure(404, PageNotFound) && calls == [])
    ensures session.Some? && body.Parsed? && Truthy(body.value.instagramAccountId) && Truthy(body.value.content)
            && body.value.instagramAccountId.value in old(db.accounts)
            && old(db.accounts)[body.value.instagramAccountId.value].pageId in old(db.pages) ==>
      var id, text := body.value.instagramAccountId.value, body.value.content.value;
      var account := old(db.accounts)[id];
      // the credential is the page record's token, for both phases
      var token := old(db.pages)[account.pageId].accessToken;
      && 1 <= |calls| <= 2
      && calls[0] == CreateContainer(id, text, token)
      && (forall c | c in calls :: c.token == token)
      && match g.createContainer(id, text, token)
         // a failed container stops the pipeline: no commit is issued
         case Err(m) => res == Failure(500, ContainerFailed + MessageOr(m)) && |calls| == 1
         case Threw(reason) => res == Failure(500, PublishFailed + reason) && |calls| == 1
         case Ok(container) =>
           && |calls| == 2
           && calls[1] == PublishContainer(id, Interpolate(container), token)
           && match g.publishContainer(id, Interpolate(container), token)
              case Err(m) => res == Failure(500, PublishFailed + MessageOr(m))
              case Threw(reason) => res == Failure(500, PublishFailed + reason)
              case Ok(media) =>
                // exactly one record, with the committed id, the content and the account's username
                && res == Success(media)
                && db.publications == old(db.publications) + [Publication(id, account.username, text, media, now, Published)]
  {
    if session.None? {
      return Failure(401, Unauthorized), [];
    }
    if body.Malformed? {
      return Failure(500, PublishFailed + body.reason), [];
    }
    var accountId, content := body.value.instagramAccountId, body.value.content;
    if !Truthy(accountId) || !Truthy(content) {
      return Failure(400, FieldsRequired), [];
    }
    var id, text := accountId.value, content.value;
    if id !in db.accounts {
      return Failure(404, AccountNotFound), [];
    }
    var account := db.accounts[id];
    if account.pageId !in db.pages {
      return Failure(404, PageNotFound), [];
    }
    var token := db.pages[account.pageId].accessToken;

    calls := [CreateContainer(id, text, token)];
    var containerResponse := g.createContainer(id, text, token);
    if containerResponse.Err? {
      return Failure(500, ContainerFailed + MessageOr(containerResponse.message)), calls;
    }
    if containerResponse.Threw? {
      return Failure(500, PublishFailed + containerResponse.reason), calls;
    }
    var containerId := Interpolate(containerResponse.payload);

    calls := calls + [PublishContainer(id, containerId, token)];
    var publishResponse := g.publishContainer(id, containerId, token);
    if publishResponse.Err? {
      return Failure(500, PublishFailed + MessageOr(publishResponse.message)), calls;
    }
    if publishResponse.Threw? {
      return Failure(500, PublishFailed + publishResponse.reason), calls;
    }
    var media := publishResponse.payload;
    db.InsertPublication(Publication(id, account.username, text, media, now, Published));
    res := Success(media);
  }
}
