/**
 * The account resolver shared by `GET /api/instagram/accounts` and the
 * `getInstagramAccounts` server action: for each page in order, look up its
 * linked publishing account with the page's own token, fetch that account's
 * details, and on success answer an entry and upsert the account. A page whose
 * lookups fail contributes nothing and does not stop the pages after it.
 */
module Resolver {
  import opened Wrappers
  import opened GraphApi
  import opened Directory

  /** What one page contributes: nothing, or an answered entry together with
      the detail reply it was built from. */
  datatype Probe = Skipped | Found(entry: LinkedAccount, detail: AccountDetail)

  /** The lookups of one page. */
  function ProbePage(g: Graph, p: PageEntry): (r: Probe)
    ensures r.Found? <==>
      && g.lookupPage(p.id, p.accessToken).Ok?
      && g.lookupPage(p.id, p.accessToken).payload.Some?
      && g.fetchAccount(g.lookupPage(p.id, p.accessToken).payload.value.id, p.accessToken).Ok?
    ensures r.Found? ==>
      var ref := g.lookupPage(p.id, p.accessToken).payload.value;
      && r.detail == g.fetchAccount(ref.id, p.accessToken).payload
      && r.entry.id == r.detail.id
      && r.entry.username == r.detail.username
      && r.entry.profilePicture == r.detail.profilePictureUrl
      // the answered name falls back to the page lookup's name
      && r.entry.name == (if Truthy(r.detail.name) then r.detail.name else ref.name)
      // the page fields come from the page itself
      && r.entry.pageId == p.id && r.entry.pageName == p.name && r.entry.accessToken == p.accessToken
  {
    match g.lookupPage(p.id, p.accessToken)
    case Ok(Some(ref)) =>
      (match g.fetchAccount(ref.id, p.accessToken)
       case Ok(ig) =>
         var name := if Truthy(ig.name) then ig.name else ref.name;
         Found(LinkedAccount(ig.id, name, ig.username, ig.profilePictureUrl, p.id, p.name, p.accessToken), ig)
       case _ => Skipped)
    case _ => Skipped
  }

  /** The requests issued for one page: the lookup, and the detail fetch only
      when the lookup answered a linked account. */
  function PageCalls(g: Graph, p: PageEntry): seq<Call> {
    [LookupPage(p.id, p.accessToken)] +
    match g.lookupPage(p.id, p.accessToken)
    case Ok(Some(ref)) => [FetchAccount(ref.id, p.accessToken)]
    case _ => []
  }

  /** The entries one page contributes: its account, or nothing. */
  function Contribution(g: Graph, p: PageEntry): seq<LinkedAccount> {
    match ProbePage(g, p)
    case Found(a, _) => [a]
    case Skipped => []
  }

  /** The answered entries, in page order. */
  function Resolved(g: Graph, pages: seq<PageEntry>): seq<LinkedAccount> {
    if pages == [] then [] else Contribution(g, pages[0]) + Resolved(g, pages[1..])
  }

  /** The requests issued, in order. */
  function ResolverCalls(g: Graph, pages: seq<PageEntry>): seq<Call> {
    if pages == [] then [] else PageCalls(g, pages[0]) + ResolverCalls(g, pages[1..])
  }

  /** The accounts collection after one page. */
  function Record(m: map<string, AccountRecord>, g: Graph, p: PageEntry, now: Time): map<string, AccountRecord> {
    match ProbePage(g, p)
    case Found(_, ig) => SetAccount(m, ig, p, now)
    case Skipped => m
  }

  /** The accounts collection after the pages, one after the other. */
  function Recorded(m: map<string, AccountRecord>, g: Graph, pages: seq<PageEntry>, now: Time): map<string, AccountRecord> {
    if pages == [] then m
    else Record(Recorded(m, g, pages[..|pages| - 1], now), g, pages[|pages| - 1], now)
  }

  /** The answer for a batch is the answers for its parts, concatenated: each
      page's contribution is independent of every other page's outcome. */
  lemma {:induction false} ResolvedAppend(g: Graph, a: seq<PageEntry>, b: seq<PageEntry>)
    ensures Resolved(g, a + b) == Resolved(g, a) + Resolved(g, b)
  {
    if a != [] {
      assert (a + b)[0] == a[0];
      assert (a + b)[1..] == a[1..] + b;
      ResolvedAppend(g, a[1..], b);
    } else {
      assert a + b == b;
    }
  }

  lemma {:induction false} ResolverCallsAppend(g: Graph, a: seq<PageEntry>, b: seq<PageEntry>)
    ensures ResolverCalls(g, a + b) == ResolverCalls(g, a) + ResolverCalls(g, b)
  {
    if a != [] {
      assert (a + b)[0] == a[0];
      assert (a + b)[1..] == a[1..] + b;
      ResolverCallsAppend(g, a[1..], b);
    } else {
      assert a + b == b;
    }
  }

  /** A single page answers its own contribution and issues its own requests. */
  lemma SinglePage(g: Graph, p: PageEntry)
    ensures Resolved(g, [p]) == Contribution(g, p)
    ensures ResolverCalls(g, [p]) == PageCalls(g, p)
  {
    assert [p][1..] == [];
  }

  /** Failure isolation: a page whose lookups fail is simply missing from the
      answer; the pages before and after it answer as they would without it. */
  lemma SkippedPageIsolated(g: Graph, before: seq<PageEntry>, p: PageEntry, after: seq<PageEntry>)
    requires ProbePage(g, p).Skipped?
    ensures Resolved(g, before + [p] + after) == Resolved(g, before) + Resolved(g, after)
  {
    ResolvedAppend(g, before + [p], after);
    ResolvedAppend(g, before, [p]);
    SinglePage(g, p);
  }

  /** An entry is answered exactly when some page's lookups all succeeded and
      built it. */
  lemma {:induction false} ResolvedMembers(g: Graph, pages: seq<PageEntry>, a: LinkedAccount)
    ensures a in Resolved(g, pages) <==>
      exists i | 0 <= i < |pages| :: ProbePage(g, pages[i]).Found? && ProbePage(g, pages[i]).entry == a
  {
    if pages != [] {
      ResolvedMembers(g, pages[1..], a);
      if a in Resolved(g, pages[1..]) {
        var i :| 0 <= i < |pages[1..]| && ProbePage(g, pages[1..][i]).Found? && ProbePage(g, pages[1..][i]).entry == a;
        assert pages[i + 1] == pages[1..][i];
      }
      if exists i | 0 <= i < |pages| :: ProbePage(g, pages[i]).Found? && ProbePage(g, pages[i]).entry == a {
        var i :| 0 <= i < |pages| && ProbePage(g, pages[i]).Found? && ProbePage(g, pages[i]).entry == a;
        if i > 0 {
          assert pages[1..][i - 1] == pages[i];
        }
      }
    }
  }

  /** The answer is ordered as the pages are: the entries of the pages before
      index `k` all come before those of the pages from `k` on. */
  lemma ResolvedInPageOrder(g: Graph, pages: seq<PageEntry>, k: nat)
    requires k <= |pages|
    ensures Resolved(g, pages) == Resolved(g, pages[..k]) + Resolved(g, pages[k..])
  {
    assert pages == pages[..k] + pages[k..];
    ResolvedAppend(g, pages[..k], pages[k..]);
  }

  /** Every request goes out with the token of one of the pages, never with the
      caller's own token, and only page lookups and detail fetches are issued. */
  lemma {:induction false} ResolverCallsUsePageTokens(g: Graph, pages: seq<PageEntry>)
    ensures forall c | c in ResolverCalls(g, pages) ::
      (c.LookupPage? || c.FetchAccount?) && exists p | p in pages :: c.token == p.accessToken
  {
    if pages != [] {
      ResolverCallsUsePageTokens(g, pages[1..]);
      forall c | c in ResolverCalls(g, pages)
        ensures (c.LookupPage? || c.FetchAccount?) && exists p | p in pages :: c.token == p.accessToken
      {
        if c in PageCalls(g, pages[0]) {
          assert c.token == pages[0].accessToken;
        } else {
          assert c in ResolverCalls(g, pages[1..]);
          var p :| p in pages[1..] && c.token == p.accessToken;
          assert p in pages;
        }
      }
    }
  }

  /** No upsert of the resolver writes an account's cached token: every stored
      token is the one stored before, or absent for a newly inserted account. */
  lemma {:induction false} RecordedNeverWritesTokens(m: map<string, AccountRecord>, g: Graph, pages: seq<PageEntry>, now: Time)
    ensures m.Keys <= Recorded(m, g, pages, now).Keys
    ensures forall k | k in Recorded(m, g, pages, now) ::
      Recorded(m, g, pages, now)[k].accessToken == if k in m then m[k].accessToken else None
  {
    if pages != [] {
      RecordedNeverWritesTokens(m, g, pages[..|pages| - 1], now);
    }
  }

  /** Ids that no successful page answered keep their stored records. */
  lemma {:induction false} RecordedKeepsOthers(m: map<string, AccountRecord>, g: Graph, pages: seq<PageEntry>, now: Time, id: string)
    requires forall i | 0 <= i < |pages| :: ProbePage(g, pages[i]).Found? ==> ProbePage(g, pages[i]).detail.id != id
    ensures id in Recorded(m, g, pages, now) <==> id in m
    ensures id in m ==> Recorded(m, g, pages, now)[id] == m[id]
  {
    if pages != [] {
      var init := pages[..|pages| - 1];
      assert forall i | 0 <= i < |init| :: init[i] == pages[i];
      RecordedKeepsOthers(m, g, init, now, id);
    }
  }

  /** Each successful page upserts its account by `instagramId`; the record of
      the last such page for an id holds the detail reply's own name (without
      the fallback), its username and picture, and that page's id and name. */
  lemma {:induction false} RecordedLastWins(m: map<string, AccountRecord>, g: Graph, pages: seq<PageEntry>, now: Time, j: nat)
    requires j < |pages| && ProbePage(g, pages[j]).Found?
    requires forall k | j < k < |pages| ::
      ProbePage(g, pages[k]).Found? ==> ProbePage(g, pages[k]).detail.id != ProbePage(g, pages[j]).detail.id
    ensures var ig := ProbePage(g, pages[j]).detail;
      && ig.id in Recorded(m, g, pages, now)
      && var a := Recorded(m, g, pages, now)[ig.id];
      && a.name == ig.name && a.username == ig.username && a.profilePicture == ig.profilePictureUrl
      && a.pageId == pages[j].id && a.pageName == pages[j].name && a.lastUpdated == now
  {
    var init := pages[..|pages| - 1];
    if j < |pages| - 1 {
      assert forall k | j < k < |init| :: init[k] == pages[k];
      RecordedLastWins(m, g, init, now, j);
    }
  }

  /** Two pages, the second without a linked publishing account: the answer is
      the first page's account alone. */
  lemma SecondPageWithoutAccount(g: Graph, p1: PageEntry, p2: PageEntry)
    requires ProbePage(g, p1).Found?
    requires g.lookupPage(p2.id, p2.accessToken) == Ok(None)
    ensures Resolved(g, [p1, p2]) == [ProbePage(g, p1).entry]
    ensures Resolved(g, [p1, p2])[0].pageId == p1.id
  {
    assert [p1, p2][1..] == [p2];
    assert [p2][1..] == [];
    assert ProbePage(g, p2).Skipped?;
    assert Resolved(g, [p2]) == [] + Resolved(g, []);
  }

  /** One iteration of the resolver loop: the page lookup, then (when it
      answers a linked account) the detail fetch; on success the entry and
      the upsert. */
  method ResolvePage(db: Store, g: Graph, page: PageEntry, now: Time)
    returns (entries: seq<LinkedAccount>, pageCalls: seq<Call>)
    modifies db`accounts
    ensures entries == Contribution(g, page)
    ensures pageCalls == PageCalls(g, page)
    ensures db.accounts == Record(old(db.accounts), g, page, now)
  {
    entries := [];
    pageCalls := [LookupPage(page.id, page.accessToken)];
    var response := g.lookupPage(page.id, page.accessToken);
    if response.Ok? && response.payload.Some? {
      var ref := response.payload.value;
      pageCalls := pageCalls + [FetchAccount(ref.id, page.accessToken)];
      var igResponse := g.fetchAccount(ref.id, page.accessToken);
      if igResponse.Ok? {
        var ig := igResponse.payload;
        var name := if Truthy(ig.name) then ig.name else ref.name;
        entries := [LinkedAccount(ig.id, name, ig.username, ig.profilePictureUrl, page.id, page.name, page.accessToken)];
        db.UpsertAccount(ig, page, now);
      }
    }
  }

  /** The resolver loop. Each page's failure is contained; a successful page
      appends its entry and upserts its account. */
  method ResolvePages(db: Store, g: Graph, pages: seq<PageEntry>, now: Time)
    returns (found: seq<LinkedAccount>, calls: seq<Call>)
    modifies db`accounts
    ensures found == Resolved(g, pages)
    ensures calls == ResolverCalls(g, pages)
    ensures db.accounts == Recorded(old(db.accounts), g, pages, now)
  {
    found, calls := [], [];
    for i := 0 to |pages|
      invariant found == Resolved(g, pages[..i])
      invariant calls == ResolverCalls(g, pages[..i])
      invariant db.accounts == Recorded(old(db.accounts), g, pages[..i], now)
    {
      var entries, pageCalls := ResolvePage(db, g, pages[i], now);
      found := found + entries;
      calls := calls + pageCalls;
      assert pages[..i + 1] == pages[..i] + [pages[i]];
      assert pages[..i + 1][..i] == pages[..i];
      SinglePage(g, pages[i]);
      ResolvedAppend(g, pages[..i], [pages[i]]);
      ResolverCallsAppend(g, pages[..i], [pages[i]]);
    }
    assert pages[..|pages|] == pages;
  }
}
