/**
 * The social graph API as the handlers see it. Each endpoint is a function
 * from the request's arguments (the token included) to the reply the handler
 * awaits, and a handler reports the requests it issued, in order, as a
 * sequence of `Call`s, each with the token it put in the URL.
 */
module GraphApi {
  import opened Wrappers

  /** An entry of `me/accounts?fields=id,name,access_token`: a page with its
      page-scoped token. */
  datatype PageEntry = PageEntry(id: string, name: string, accessToken: string)

  /** `instagram_business_account{id,name,username}` of a page lookup. */
  datatype AccountRef = AccountRef(id: string, name: Option<string>)

  /** An account-detail reply: `id,name,username,profile_picture_url`. */
  datatype AccountDetail = AccountDetail(id: string, name: Option<string>, username: string, profilePictureUrl: Option<string>)

  /** A profile reply: `me?fields=id,name,email`. */
  datatype UserData = UserData(id: string, name: Option<string>, email: Option<string>)

  /** An entry of the resolver's answer: a publishing account with its page. */
  datatype LinkedAccount = LinkedAccount(
    id: string, name: Option<string>, username: string, profilePicture: Option<string>,
    pageId: string, pageName: string, accessToken: string)

  /** One request to the graph API, with the access token it carried. */
  datatype Call =
    | ListPages(token: string)
    | LookupPage(pageId: string, token: string)
    | FetchAccount(accountId: string, token: string)
    | FetchProfile(token: string)
    | CreateContainer(accountId: string, caption: string, token: string)
    | PublishContainer(accountId: string, creationId: string, token: string)

  /** What the graph API answers to each request. A page listing carries an
      optional `data` field; a page lookup an optional `instagram_business_account`;
      container creation and publishing an optional `id`. */
  datatype Graph = Graph(
    listPages: string -> Reply<Option<seq<PageEntry>>>,
    lookupPage: (string, string) -> Reply<Option<AccountRef>>,
    fetchAccount: (string, string) -> Reply<AccountDetail>,
    fetchProfile: string -> Reply<UserData>,
    createContainer: (string, string, string) -> Reply<Option<string>>,
    publishContainer: (string, string, string) -> Reply<Option<string>>)

  /** `pagesData.data || []`: an absent `data` field reads as no pages. */
  function PagesOf(data: Option<seq<PageEntry>>): (pages: seq<PageEntry>)
    ensures data.None? ==> pages == []
    ensures data.Some? ==> pages == data.value
  {
    data.GetOr([])
  }
}
