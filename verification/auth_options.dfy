/**
 * The two NextAuth callbacks of the authentication options: `jwt` copies the
 * provider's tokens into the JWT when a sign-in hands it an account, and
 * `session` copies the JWT's access token onto the session.
 */
module Auth {
  import opened Wrappers

  /** The decoded JWT: the claims NextAuth puts there itself (`name`, `email`,
      `picture`, `sub`, ...) and the three fields the callback writes. */
  datatype Jwt = Jwt(
    claims: map<string, string>,
    accessToken: Option<string>, refreshToken: Option<string>, expiresAt: Option<int>)

  /** The provider account handed to `jwt` on sign-in. */
  datatype ProviderAccount = ProviderAccount(
    access_token: Option<string>, refresh_token: Option<string>, expires_at: Option<int>)

  datatype SessionUser = SessionUser(name: Option<string>, email: Option<string>, image: Option<string>)

  /** The session object `getServerSession` answers. */
  datatype Session = Session(user: Option<SessionUser>, expires: string, accessToken: Option<string>)

  /** The Supabase session that the server actions read (through
      `requireAuth`): only its user id is used. */
  datatype SupabaseSession = SupabaseSession(userId: string)

  /** `callbacks.jwt`: with an account, the three token fields are taken from
      it (absent ones become absent); without one the token is returned as it
      came. The other claims are never touched. */
  function JwtCallback(token: Jwt, account: Option<ProviderAccount>): (r: Jwt)
    ensures r.claims == token.claims
    ensures account.Some? ==>
      && r.accessToken == account.value.access_token
      && r.refreshToken == account.value.refresh_token
      && r.expiresAt == account.value.expires_at
    ensures account.None? ==> r == token
  {
    match account
    case Some(a) => token.(accessToken := a.access_token, refreshToken := a.refresh_token, expiresAt := a.expires_at)
    case None => token
  }

  /** `callbacks.session`: the session's access token becomes the JWT's, and
      nothing else about the session changes. */
  function SessionCallback(session: Session, token: Jwt): (r: Session)
    ensures r.accessToken == token.accessToken
    ensures r.user == session.user && r.expires == session.expires
  {
    session.(accessToken := token.accessToken)
  }

  /** The JWT after `jwt` has run once per request, with the account (if any)
      that request carried, in order. */
  function Replay(token: Jwt, accounts: seq<Option<ProviderAccount>>): Jwt {
    if accounts == [] then token
    else JwtCallback(Replay(token, accounts[..|accounts| - 1]), accounts[|accounts| - 1])
  }

  /** Tokens persist: after a sign-in, requests without an account leave the
      JWT as the sign-in made it, and every session built from it carries the
      provider's access token. */
  lemma {:induction false} SignInPersists(token: Jwt, account: ProviderAccount, later: seq<Option<ProviderAccount>>, session: Session)
    requires forall i | 0 <= i < |later| :: later[i].None?
    ensures Replay(token, [Some(account)] + later) == JwtCallback(token, Some(account))
    ensures SessionCallback(session, Replay(token, [Some(account)] + later)).accessToken == account.access_token
  {
    if later != [] {
      var init := later[..|later| - 1];
      assert ([Some(account)] + later)[..|later|] == [Some(account)] + init;
      SignInPersists(token, account, init, session);
    } else {
      assert [Some(account)][..0] == [];
    }
  }

  /** A later sign-in replaces all three token fields, whatever came before. */
  lemma {:induction false} LatestSignInWins(token: Jwt, earlier: seq<Option<ProviderAccount>>, account: ProviderAccount)
    ensures var r := Replay(token, earlier + [Some(account)]);
      && r.accessToken == account.access_token && r.refreshToken == account.refresh_token
      && r.expiresAt == account.expires_at && r.claims == token.claims
  {
    assert (earlier + [Some(account)])[..|earlier|] == earlier;
    ReplayKeepsClaims(token, earlier);
  }

  lemma {:induction false} ReplayKeepsClaims(token: Jwt, accounts: seq<Option<ProviderAccount>>)
    ensures Replay(token, accounts).claims == token.claims
  {
    if accounts != [] {
      ReplayKeepsClaims(token, accounts[..|accounts| - 1]);
    }
  }
}
