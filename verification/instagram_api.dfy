/**
 * `publishToInstagram(instagramAccountId, content)`: the reusable publish
 * pipeline. It uses the account record's own cached token (no page lookup),
 * throws at each failure, and its catch block rethrows every error with the
 * prefix "Failed to publish to Instagram: ".
 */
module InstagramApi {
  import opened Wrappers
  import opened GraphApi
  import opened Directory
  import opened Resolver
  import Auth

  const Home := "/"
  const Prefix := "Failed to publish to Instagram: "
  const AccountNotFound := "Instagram account not found"
  const ContainerFailed := "Failed to create Instagram media container: "

  /** Whether the pipeline gets as far as a committed media id. */
  predicate Publishes(g: Graph, accounts: map<string, AccountRecord>, id: string, content: string) {
    && id in accounts
    && var token := Interpolate(accounts[id].accessToken);
    && g.createContainer(id, content, token).Ok?
    && g.publishContainer(id, Interpolate(g.createContainer(id, content, token).payload), token).Ok?
  }

  /** The committed media id, when the pipeline gets that far. */
  function MediaOf(g: Graph, accounts: map<string, AccountRecord>, id: string, content: string): Option<string>
    requires Publishes(g, accounts, id, content)
  {
    var token := Interpolate(accounts[id].accessToken);
    g.publishContainer(id, Interpolate(g.createContainer(id, content, token).payload), token).payload
  }

  /** The requests the pipeline issues: none for an unknown account, then the
      container request, then the commit only when a container was created;
      both with the account record's cached token as interpolated. */
  function PublishCalls(g: Graph, accounts: map<string, AccountRecord>, id: string, content: string): seq<Call> {
    if id !in accounts then []
    else
      var token := Interpolate(accounts[id].accessToken);
      [CreateContainer(id, content, token)] +
      match g.createContainer(id, content, token)
      case Ok(container) => [PublishContainer(id, Interpolate(container), token)]
      case _ => []
  }

  /** The pipeline issues at most the two publishing requests, all with the
      cached token; a commit is issued exactly when a container was created,
      and so both are issued whenever the pipeline publishes. */
  lemma PublishCallsUseCachedToken(g: Graph, accounts: map<string, AccountRecord>, id: string, content: string)
    ensures id !in accounts <==> PublishCalls(g, accounts, id, content) == []
    ensures |PublishCalls(g, accounts, id, content)| <= 2
    ensures forall c | c in PublishCalls(g, accounts, id, content) ::
      (c.CreateContainer? || c.PublishContainer?) && c.token == Interpolate(accounts[id].accessToken)
    ensures id in accounts ==>
      (|PublishCalls(g, accounts, id, content)| == 2 <==>
       g.createContainer(id, content, Interpolate(accounts[id].accessToken)).Ok?)
    ensures Publishes(g, accounts, id, content) ==> |PublishCalls(g, accounts, id, content)| == 2
  {
  }

  method PublishToInstagram(db: Store, g: Graph, session: Option<Auth.SupabaseSession>,
                            accountId: string, content: string, now: Time)
    returns (out: Completion<Option<string>>, calls: seq<Call>)
    modifies db`publications
    // `requireAuth` runs before the try block: its redirect is not rewrapped
    ensures session.None? ==> out == Redirected(Home) && calls == []
    ensures session.Some? ==> calls == PublishCalls(g, old(db.accounts), accountId, content)
    // every error leaving the action carries the prefix
    ensures out.Raised? ==> Prefix <= out.message
    ensures out.Returned? <==> session.Some? && Publishes(g, old(db.accounts), accountId, content)
    ensures out.Returned? ==>
      && out.value == MediaOf(g, old(db.accounts), accountId, content)
      && db.publications == old(db.publications) +
           [Publication(accountId, old(db.accounts)[accountId].username, content, out.value, now, Published)]
    ensures !out.Returned? ==> db.publications == old(db.publications)
    ensures session.Some? && accountId !in old(db.accounts) ==>
      out == Raised(Prefix + AccountNotFound) && calls == []
    ensures session.Some? && accountId in old(db.accounts) ==>
      var account := old(db.accounts)[accountId];
      // the credential is the account record's own cached token, as interpolated into the URL
      var token := Interpolate(account.accessToken);
      && 1 <= |calls| <= 2
      && calls[0] == CreateContainer(accountId, content, token)
      && (forall c | c in calls :: c.token == token)
      && match g.createContainer(accountId, content, token)
         // a failed container throws; the commit request is never issued
         case Err(m) => out == Raised(Prefix + ContainerFailed + MessageOr(m)) && |calls| == 1
         case Threw(reason) => out == Raised(Prefix + reason) && |calls| == 1
         case Ok(container) =>
           && |calls| == 2
           && calls[1] == PublishContainer(accountId, Interpolate(container), token)
           && match g.publishContainer(accountId, Interpolate(container), token)
              // the inner message already carries the prefix: it ends up doubled
              case Err(m) => out == Raised(Prefix + Prefix + MessageOr(m))
              case Threw(reason) => out == Raised(Prefix + reason)
              case Ok(media) => out == Returned(media)
  {
    if session.None? {
      return Redirected(Home), [];
    }
    calls := [];
    // the message of the Error thrown inside the try block, if any
    var thrown: Option<string> := None;
    if accountId !in db.accounts {
      thrown := Some(AccountNotFound);
    } else {
      var account := db.accounts[accountId];
      var token := Interpolate(account.accessToken);
      calls := [CreateContainer(accountId, content, token)];
      var containerResponse := g.createContainer(accountId, content, token);
      match containerResponse {
        case Err(m) =>
          thrown := Some(ContainerFailed + MessageOr(m));
        case Threw(reason) =>
          thrown := Some(reason);
        case Ok(container) =>
          var containerId := Interpolate(container);
          calls := calls + [PublishContainer(accountId, containerId, token)];
          var publishResponse := g.publishContainer(accountId, containerId, token);
          match publishResponse {
            case Err(m) =>
              thrown := Some(Prefix + MessageOr(m));
            case Threw(reason) =>
              thrown := Some(reason);
            case Ok(media) =>
              db.InsertPublication(Publication(accountId, account.username, content, media, now, Published));
              out := Returned(media);
          }
      }
    }
    if thrown.Some? {
      // the catch block
      out := Raised(Prefix + thrown.value);
    }
  }

  /** The resolver never stores a token on an account record, so when the
      accounts collection held none before, every account it wrote is
      published with the text "undefined" in place of a token. */
  lemma ResolvedAccountsHaveNoToken(m: map<string, AccountRecord>, g: Graph, pages: seq<PageEntry>, now: Time, id: string)
    requires forall k | k in m :: m[k].accessToken.None?
    requires id in Recorded(m, g, pages, now)
    ensures Interpolate(Recorded(m, g, pages, now)[id].accessToken) == "undefined"
  {
    RecordedNeverWritesTokens(m, g, pages, now);
  }
}
