# Instagram auto-poster: publishing, account resolution and session gating

This project models the server and client logic of a Next.js application that
publishes captions to Instagram business accounts through the Facebook Graph
API. It covers:

- **the publish pipelines**:
  - `POST /api/instagram/publish` and the `publishToInstagram` server action
    with its `POST /api/publish` wrapper;
  - each looks up the account record, creates a media container, commits it,
    and records one publication;
- **the account resolver** shared by `GET /api/instagram/accounts` and the
  `getInstagramAccounts` action;
  - it probes each of the caller's pages with the page's own token, answers the
    linked accounts in page order and upserts each of them;
  - a page whose lookups fail is skipped without stopping the others;
- **the directory upserts** of pages, accounts and users, with MongoDB's `$set`
  semantics: fields the write does not name keep their stored value;
- **the session gating** of the request middleware and the two NextAuth callbacks;
- **the dashboard's client logic**: the load sequence, the summarize and publish
  handlers with their guards, the publish button's enabled state and the
  caption-length classification (limit 2200, warning above 1800).

The Graph API is a value of type `GraphApi.Graph`: one total function per
request kind, from the request's arguments to a reply. A reply is one of:

- `Ok(payload)`, an ok response;
- `Err(message)`, a non-ok response with its optional `error.message`;
- `Threw(reason)`, a rejected `fetch` or body parse, which reaches the
  route handler's catch block, or propagates out of a server action that has
  none (`getUserProfile`, `getUserPages`).

Every handler also returns the trace of requests it issued. Each request in the
trace carries the token actually placed in its URL. This is how the contracts
state which credential is used and that a failed step issues no further
requests. The document store is the class `Directory.Store`. Its collections are
maps keyed by external id, plus an append-only sequence of publications. Each
handler's `modifies` clause names the one collection it may write.

Three behaviours of the code are modelled as written and proved as properties:

- `publishToInstagram` sends the account record's `accessToken`, and no upsert
  in the system writes that field. For every account the resolver stored, the
  token in the URL is therefore the text "undefined"
  (`InstagramApi.ResolvedAccountsHaveNoToken`).
- In `publishToInstagram`, a failed commit throws an error that already carries
  the prefix "Failed to publish to Instagram: ". The catch block prefixes it
  again, so the message holds the prefix twice (`InstagramApi.PublishToInstagram`).
- The server routes reject only an empty caption. A caption of white space alone
  passes them, although the dashboard never sends one
  (`Dashboard.ServerAcceptsBlankContent`, `Dashboard.ClientGuardImpliesServerGuard`).

## Model

| member | source | states |
|---|---|---|
| Wrappers.MessageOr | app/api/instagram/publish/route.ts:60 | the upstream error message when it is a non-empty string, otherwise "Unknown error"; never empty |
| GraphApi.PagesOf | app/api/facebook/pages/route.ts:35 | an absent `data` field reads as no pages; a present one is taken as is |
| Text.Trim | components/dashboard.tsx:76 | trimming leaves nothing exactly when every character is ECMAScript white space or a line terminator; a non-empty result neither starts nor ends with white space |
| Text.Utf16LengthBounds | components/dashboard.tsx:72 | `length` counts at least one code unit per character and at most two, and equals the number of characters exactly when none lies outside the Basic Multilingual Plane |
| Text.Utf16LengthAppend | components/dashboard.tsx:72 | the length of a concatenation is the sum of the lengths |
| Text.Utf16LengthAllAstral | components/dashboard.tsx:72 | a text of characters outside the Basic Multilingual Plane counts two code units per character |
| Directory.SetPage | app/api/facebook/pages/route.ts:41-52 | the upserted page id holds exactly the page's name and token; the key set grows by that id alone and every other record is unchanged |
| Directory.SetAccount | app/api/instagram/accounts/route.ts:68-82 | the upserted record has the detail reply's own name, username and picture and the page's id and name; its cached token is the stored one (absent on insert), because `$set` does not name it; other records are unchanged |
| Directory.SetUser | app/api/user/profile/route.ts:36-47 | the upserted user has the profile's name and email; the Supabase link is the one written when the write names it, otherwise the stored one; other records are unchanged |
| Directory.SavePagesKeys | app/api/facebook/pages/route.ts:40-53 | after saving a list of pages the keys are the old keys plus every listed id |
| Directory.SavePagesLastWins | app/api/facebook/pages/route.ts:40-53 | a page id listed more than once holds the name and token of its last occurrence |
| Directory.SavePagesKeepsOthers | app/api/facebook/pages/route.ts:40-53 | ids not listed keep their records, and none is deleted |
| Directory.Store.UpsertPage | app/api/facebook/pages/route.ts:41-52 | the pages collection becomes `SetPage` of the old one; no other collection can change |
| Directory.Store.UpsertAccount | app/api/instagram/accounts/route.ts:68-82 | the accounts collection becomes `SetAccount` of the old one; no other collection can change |
| Directory.Store.UpsertUser | lib/facebook-api.ts:35-47 | the users collection becomes `SetUser` of the old one; no other collection can change |
| Directory.Store.InsertPublication | app/api/instagram/publish/route.ts:91-98 | exactly one record is appended to the publications; nothing else changes |
| Resolver.ProbePage | app/api/instagram/accounts/route.ts:42-64 | a page yields an entry exactly when its lookup is ok, names a linked account and that account's detail fetch is ok; the entry's name falls back to the lookup's name when the detail's name is falsy; the page fields and token come from the page |
| Resolver.ResolvedAppend | app/api/instagram/accounts/route.ts:40-89 | the answer for two batches of pages is the two answers concatenated |
| Resolver.ResolverCallsAppend | app/api/instagram/accounts/route.ts:40-89 | the requests for two batches of pages are the two traces concatenated |
| Resolver.SinglePage | app/api/instagram/accounts/route.ts:41-88 | one page answers its own contribution and issues its own lookups |
| Resolver.SkippedPageIsolated | app/api/instagram/accounts/route.ts:41-88 | a page whose lookups fail is missing from the answer, and the pages around it answer as they would without it |
| Resolver.ResolvedMembers | app/api/instagram/accounts/route.ts:40-89 | an entry is answered if and only if some page's lookups all succeeded and built it |
| Resolver.ResolvedInPageOrder | app/api/instagram/accounts/route.ts:40-64 | the entries of earlier pages come before those of later pages |
| Resolver.ResolverCallsUsePageTokens | app/api/instagram/accounts/route.ts:42-52 | the resolver issues only page lookups and detail fetches, each with the token of one of the pages |
| Resolver.RecordedNeverWritesTokens | app/api/instagram/accounts/route.ts:68-82 | after the resolver's upserts no key is lost, and every cached account token is the one stored before, or absent |
| Resolver.RecordedKeepsOthers | app/api/instagram/accounts/route.ts:68-82 | account ids that no successful page answered keep their records, both presence and contents |
| Resolver.RecordedLastWins | app/api/instagram/accounts/route.ts:68-82 | the record of an account holds the detail of the last successful page that answered it, with that page's id and name and the write's timestamp |
| Resolver.SecondPageWithoutAccount | app/api/instagram/accounts/route.ts:46-48 | with two pages where the second has no linked account, the answer is the first page's account alone |
| Resolver.ResolvePage | app/api/instagram/accounts/route.ts:41-88 | one loop iteration answers the page's contribution, issues its lookups and upserts its account when found |
| Resolver.ResolvePages | app/api/instagram/accounts/route.ts:37-89 | the loop answers `Resolved`, issues `ResolverCalls` and leaves the accounts collection as `Recorded` of the old one |
| AccountsRoute.Get | app/api/instagram/accounts/route.ts:6-96 | 401 without a session and 400 without its token, both before any request; a failed listing answers 500 with the upstream message, or the fixed message when it threw, and writes nothing; otherwise the resolver's answer, requests and upserts over the listed pages |
| PagesRoute.Get | app/api/facebook/pages/route.ts:6-60 | 401 and 400 guards before any request; one listing with the session's token; on failure 500 with the upstream message or the fixed one, and no write; on success the listed pages, each of them saved |
| ProfileRoute.Get | app/api/user/profile/route.ts:6-54 | 401 and 400 guards before any request; one profile fetch; on failure 500 and no write; on success the profile unchanged, upserted with a stored Supabase link kept |
| FacebookApi.GetUserProfile | lib/facebook-api.ts:8-50 | a visitor without a session is redirected, then a missing provider token raises before any request; a failed fetch raises the fixed message and writes nothing; on success the profile is returned and upserted with the Supabase user id |
| FacebookApi.GetUserPages | lib/facebook-api.ts:52-76 | a missing provider token raises before any request; otherwise one listing, whose `data` (or no pages) is returned when ok, and the fixed message is raised when not |
| FacebookApi.GetInstagramAccounts | lib/facebook-api.ts:78-146 | a missing provider token raises and writes nothing; otherwise the resolver's answer, requests and upserts over the given pages, whatever each page's outcome |
| InstagramPublishRoute.Post | app/api/instagram/publish/route.ts:6-105 | 401, then 500 with the parse error's message for a body that is not JSON, then 400, 404 (account) and 404 (page), all before any request; both phases use the page record's token; a failed container stops before the commit; the answer on each failure; on success the committed id and exactly one publication with the account's username; no record on failure |
| InstagramApi.PublishCallsUseCachedToken | lib/instagram-api.ts:13-40 | the pipeline issues no request for an unknown account and otherwise at most the container and commit requests, all with the account record's cached token as interpolated; the commit is issued exactly when a container was created |
| InstagramApi.PublishToInstagram | lib/instagram-api.ts:5-65 | no session redirects before the try block; every raised error carries the prefix, a failed commit's twice; the requests are `PublishCalls`, both phases with the account record's cached token as interpolated; it returns exactly when both phases succeed, with the committed id and one publication record |
| InstagramApi.ResolvedAccountsHaveNoToken | lib/instagram-api.ts:19 | when no account held a cached token before, every account the resolver stored is published with the text "undefined" as its token |
| PublishRoute.Post | app/api/publish/route.ts:6-36 | 401, then the fixed 500 for a body that is not JSON, then 400, all before any request; past the guards the requests are the action's `PublishCalls`; success exactly when the action's pipeline commits, answering the committed id with one publication record; every other outcome answers 500 with the fixed message and records nothing |
| Middleware.Decide | middleware.ts:5-23 | redirect to "/" exactly when there is no token and the path starts with "/dashboard"; redirect to "/dashboard" exactly when there is a token and the path is "/"; otherwise pass through; a redirect changes only the pathname |
| Middleware.Effective | middleware.ts:25-27 | outside the matcher's paths every request passes through; on them the middleware decides |
| Middleware.RedirectsExclusive | middleware.ts:9-20 | the two redirects never both apply, the landing page is not gated, and a redirect's target is not redirected again |
| Middleware.MatchedGating | middleware.ts:5-27 | on the matched paths a visitor without a token is redirected if and only if the path is not "/" |
| Middleware.PrefixGatesUnmatchedPath | middleware.ts:9 | the prefix test alone would gate "/dashboardX"; the matcher keeps the middleware from running there |
| Auth.JwtCallback | lib/auth-options.ts:21-29 | with a provider account the three token fields are taken from it; without one the token is returned unchanged; other claims are never touched |
| Auth.SessionCallback | lib/auth-options.ts:30-37 | the session's access token becomes the JWT's; nothing else on the session changes |
| Auth.SignInPersists | lib/auth-options.ts:21-37 | after a sign-in, later requests without an account leave the JWT as the sign-in made it, and every session carries the provider's access token |
| Auth.LatestSignInWins | lib/auth-options.ts:21-29 | the latest sign-in's tokens replace whatever came before, and the claims are kept |
| Auth.ReplayKeepsClaims | lib/auth-options.ts:21-29 | no sequence of callback runs changes the JWT's own claims |
| Dashboard.Classify | components/dashboard.tsx:380-382 | "Too long" exactly above 2200, "Almost full" exactly above 1800 up to 2200, "Good length" otherwise |
| Dashboard.ClassifyMonotone | components/dashboard.tsx:380-382 | a longer caption never gets a milder label |
| Dashboard.LengthLabelText | components/dashboard.tsx:375-383 | the label reads "Too long", "Almost full" and "Good length" exactly on the three ranges, and the count turns bold red exactly above 2200 |
| Dashboard.LengthColoursAgree | components/dashboard.tsx:380-391 | the label and the progress bar are red exactly above 2200, amber exactly above 1800 up to 2200, and green otherwise |
| Dashboard.AstralCaptionTooLong | components/dashboard.tsx:72 | a caption of more than 1100 characters outside the Basic Multilingual Plane (most emoji) is "Too long" and cannot be published, because each such character counts two code units |
| Dashboard.TrimsToEmpty | components/dashboard.tsx:76 | `!text.trim()` holds exactly for blank text |
| Dashboard.PublishDisabled | components/dashboard.tsx:405 | the publish button is disabled exactly while publishing, for blank content, with no account selected or above 2200 characters |
| Dashboard.SummarizeDisabled | components/dashboard.tsx:340 | the summarize button is disabled exactly while summarizing or for blank content |
| Dashboard.ClientGuardImpliesServerGuard | components/dashboard.tsx:118-134 | content and an account that pass the client's guards also pass the server's truthiness guard |
| Dashboard.ServerAcceptsBlankContent | app/api/instagram/publish/route.ts:18-20 | the converse fails: white-space-only content passes the server's guard |
| Dashboard.DashboardState.PublishEnabled | components/dashboard.tsx:405 | on a consistent state, the button is enabled exactly when not publishing, the summary is not blank, an account is selected and the summary's `length` in UTF-16 code units is at most 2200 |
| Dashboard.DashboardState.constructor | components/dashboard.tsx:17-27 | the initial state: nothing loaded, nothing selected, empty texts, no flags set, count 0 |
| Dashboard.DashboardState.EditSummary | components/dashboard.tsx:71-73 | the character count follows the summary's `length` in UTF-16 code units |
| Dashboard.DashboardState.LoadUserData | components/dashboard.tsx:30-69 | nothing is fetched when signed out; otherwise profile, pages and (only when there are pages) accounts in order, the first failure stopping the load with the error banner; the first account is selected when any exist; loading ends cleared |
| Dashboard.DashboardState.HandleSummarize | components/dashboard.tsx:75-115 | blank original content raises "Empty Content" and sends nothing; otherwise the original is sent, a returned summary replaces the summarized text, the toast reports success or failure, and summarizing ends cleared |
| Dashboard.DashboardState.HandlePublish | components/dashboard.tsx:117-171 | blank summary, then no account, each raise their toast and send nothing; otherwise the account and summary are sent; success clears both texts and the count, failure keeps them; publishing ends cleared |

## Left out

- Network transport, URLs and `encodeURIComponent`: a request is identified by its arguments and the token in its URL. The placeholder image URLs are not modelled.
- The Graph API answers the same request the same way within one handler run; time-dependent upstream behaviour is not modelled.
- Document-store failures: every write succeeds. A database error would reach the route handler's catch block, or propagate out of a server action that has none (`getUserProfile`); inside the resolver loop it would also leave an answered entry without its upsert. Neither path is modelled.
- Timestamps (`new Date()`) are an opaque `Time` parameter shared by all writes of one handler run.
- Logging (`console.error`) and the debug page.
- JSON bodies whose fields are not strings: `instagramAccountId` and `content` are modelled as absent or a string. A body that is not JSON at all is modelled, with the parse error's message as a parameter.
- The Supabase client and `requireAuth`: the Supabase session and its `provider_token` are parameters of the server actions. `lib/supabase/server` is not part of this model.
- NextAuth's own machinery (the Facebook provider and its scopes, the MongoDB adapter, the JWT strategy and its secret): only the two callbacks are modelled. `getToken` and `getServerSession` become optional parameters.
- The summarization endpoint and its language-model call: the dashboard's summarize handler takes the returned summary, or its absence, as a parameter.
- Dashboard.DashboardState.HandlePublish: reports a toast by its title only; the failure toast's description (the server's error text) is not modelled.
- Dashboard.DashboardState.LoadUserData: each reply is either a body or a failure; a failing `json()` parse is treated as a failed response.
- The dashboard's asynchronous interleavings: each handler is one atomic step, so a state change from another handler while a request is in flight is not modelled.
- The dashboard's rendering: the progress-bar percentage (a floating-point quotient), the colour class names beyond their choice per label, the mobile menu, the textareas' disabled states, the account selector and sign-out (`handleSignOut` only calls `signOut`).
