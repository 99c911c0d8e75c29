/**
 * The document store: the `facebookPages`, `instagramAccounts` and `users`
 * collections as maps keyed by external id, and `publications` as an
 * append-only sequence. An upsert with `$set` writes the fields it names and
 * keeps the stored values of the fields it does not name; nothing is ever
 * deleted.
 */
module Directory {
  import opened Wrappers
  import opened GraphApi

  datatype PageRecord = PageRecord(pageId: string, name: string, accessToken: string, lastUpdated: Time)

  datatype AccountRecord = AccountRecord(
    instagramId: string, name: Option<string>, username: string, profilePicture: Option<string>,
    pageId: string, pageName: string,
    /** read by the publishing action, written by no upsert in this system */
    accessToken: Option<string>,
    lastUpdated: Time)

  datatype UserRecord = UserRecord(
    facebookId: string, name: Option<string>, email: Option<string>,
    supabaseUserId: Option<string>, lastLogin: Time)

  datatype Publication = Publication(
    instagramAccountId: string, instagramUsername: string, content: string,
    mediaId: Option<string>, timestamp: Time, status: string)

  const Published := "published"

  /** The two fields a publish request's body carries, each absent when the
      body lacks it. */
  datatype PublishFields = PublishFields(instagramAccountId: Option<string>, content: Option<string>)

  /** Upsert of a page keyed by `pageId`: afterwards the key holds exactly the
      page's name and token, and every other key is as it was. */
  function SetPage(m: map<string, PageRecord>, p: PageEntry, now: Time): (r: map<string, PageRecord>)
    ensures r.Keys == m.Keys + {p.id}
    ensures r[p.id] == PageRecord(p.id, p.name, p.accessToken, now)
    ensures forall k | k in m && k != p.id :: r[k] == m[k]
  {
    m[p.id := PageRecord(p.id, p.name, p.accessToken, now)]
  }

  /** Upsert of an account keyed by `instagramId` with the detail reply's own
      `name` (no fallback) and the page's id and name. `accessToken` is not among
      the `$set` fields: it keeps its stored value, or is absent on insert. */
  function SetAccount(m: map<string, AccountRecord>, ig: AccountDetail, p: PageEntry, now: Time): (r: map<string, AccountRecord>)
    ensures r.Keys == m.Keys + {ig.id}
    ensures var a := r[ig.id];
      && a.instagramId == ig.id && a.name == ig.name && a.username == ig.username
      && a.profilePicture == ig.profilePictureUrl && a.pageId == p.id && a.pageName == p.name
      && a.lastUpdated == now
    ensures r[ig.id].accessToken == if ig.id in m then m[ig.id].accessToken else None
    ensures forall k | k in m && k != ig.id :: r[k] == m[k]
  {
    var cached := if ig.id in m then m[ig.id].accessToken else None;
    m[ig.id := AccountRecord(ig.id, ig.name, ig.username, ig.profilePictureUrl, p.id, p.name, cached, now)]
  }

  /** Upsert of a user keyed by `facebookId`. `link` is the `supabaseUserId` the
      write sets; `None` when the write does not name that field, which then
      keeps its stored value. */
  function SetUser(m: map<string, UserRecord>, u: UserData, link: Option<string>, now: Time): (r: map<string, UserRecord>)
    ensures r.Keys == m.Keys + {u.id}
    ensures var a := r[u.id];
      a.facebookId == u.id && a.name == u.name && a.email == u.email && a.lastLogin == now
    ensures link.Some? ==> r[u.id].supabaseUserId == link
    ensures link.None? ==> r[u.id].supabaseUserId == if u.id in m then m[u.id].supabaseUserId else None
    ensures forall k | k in m && k != u.id :: r[k] == m[k]
  {
    var linked := if link.Some? then link else if u.id in m then m[u.id].supabaseUserId else None;
    m[u.id := UserRecord(u.id, u.name, u.email, linked, now)]
  }

  /** The pages collection after upserting `pages` one after the other. */
  function SavePages(m: map<string, PageRecord>, pages: seq<PageEntry>, now: Time): map<string, PageRecord>
  {
    if pages == [] then m
    else SetPage(SavePages(m, pages[..|pages| - 1], now), pages[|pages| - 1], now)
  }

  /** After saving `pages`, the keys are the old keys plus every saved id. */
  lemma {:induction false} SavePagesKeys(m: map<string, PageRecord>, pages: seq<PageEntry>, now: Time)
    ensures SavePages(m, pages, now).Keys == m.Keys + set p | p in pages :: p.id
  {
    if pages != [] {
      var init := pages[..|pages| - 1];
      SavePagesKeys(m, init, now);
      assert pages == init + [pages[|pages| - 1]];
    }
  }

  /** Last write wins: a saved id holds the name and token of its last
      occurrence in `pages`. */
  lemma {:induction false} SavePagesLastWins(m: map<string, PageRecord>, pages: seq<PageEntry>, now: Time, j: nat)
    requires j < |pages|
    requires forall k | j < k < |pages| :: pages[k].id != pages[j].id
    ensures pages[j].id in SavePages(m, pages, now)
    ensures SavePages(m, pages, now)[pages[j].id] == PageRecord(pages[j].id, pages[j].name, pages[j].accessToken, now)
  {
    if j < |pages| - 1 {
      SavePagesLastWins(m, pages[..|pages| - 1], now, j);
    }
  }

  /** Ids that are not saved keep their records: there is no deletion path. */
  lemma {:induction false} SavePagesKeepsOthers(m: map<string, PageRecord>, pages: seq<PageEntry>, now: Time, id: string)
    requires forall p | p in pages :: p.id != id
    ensures id in SavePages(m, pages, now) <==> id in m
    ensures id in m ==> SavePages(m, pages, now)[id] == m[id]
  {
    if pages != [] {
      var init := pages[..|pages| - 1];
      assert forall p | p in init :: p in pages;
      SavePagesKeepsOthers(m, init, now, id);
    }
  }

  /** The document store, updated in place by the handlers. */
  class Store {
    var pages: map<string, PageRecord>
    var accounts: map<string, AccountRecord>
    var users: map<string, UserRecord>
    var publications: seq<Publication>

    /** `facebookPages.updateOne({pageId}, {$set}, {upsert: true})` */
    method UpsertPage(p: PageEntry, now: Time)
      modifies this`pages
      ensures pages == SetPage(old(pages), p, now)
    {
      pages := SetPage(pages, p, now);
    }

    /** `instagramAccounts.updateOne({instagramId}, {$set}, {upsert: true})` */
    method UpsertAccount(ig: AccountDetail, p: PageEntry, now: Time)
      modifies this`accounts
      ensures accounts == SetAccount(old(accounts), ig, p, now)
    {
      accounts := SetAccount(accounts, ig, p, now);
    }

    /** `users.updateOne({facebookId}, {$set}, {upsert: true})` */
    method UpsertUser(u: UserData, link: Option<string>, now: Time)
      modifies this`users
      ensures users == SetUser(old(users), u, link, now)
    {
      users := SetUser(users, u, link, now);
    }

    /** `publications.insertOne(record)` */
    method InsertPublication(record: Publication)
      modifies this`publications
      ensures publications == old(publications) + [record]
    {
      publications := publications + [record];
    }
  }
}
