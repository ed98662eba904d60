/** The rows of `state.json` and the state object that holds them. Times are milliseconds. */
module Model {
  import opened Tables

  type Millis = int

  datatype AuthorizationCode = AuthorizationCode(
    codeHash: string, clientId: string, subjectId: string, workspaceId: string, sessionId: Option<string>,
    redirectUri: string, scopes: seq<string>, codeChallenge: string, expiresAt: Millis, usedAt: Option<Millis>)

  datatype AccessToken = AccessToken(
    accessToken: string, jti: string, subjectId: string, clientId: string, workspaceId: string,
    sessionId: Option<string>, scopes: seq<string>, expiresAt: Millis, revokedAt: Option<Millis>)

  datatype RefreshToken = RefreshToken(
    refreshTokenHash: string, familyId: string, subjectId: string, clientId: string, workspaceId: string,
    sessionId: Option<string>, scopes: seq<string>, expiresAt: Millis,
    parentRefreshTokenHash: Option<string>, replacedByHash: Option<string>,
    rotatedAt: Option<Millis>, revokedAt: Option<Millis>)

  datatype AuthSession = AuthSession(
    id: string, subjectId: string, workspaceId: string, createdAt: Millis, expiresAt: Millis, revokedAt: Option<Millis>)

  datatype UserAccount = UserAccount(
    id: string, subjectId: string, username: string, passwordHash: string, email: string, displayName: string,
    workspaceId: string, authProvider: string, bootstrapAccount: bool, active: bool, createdAt: Millis, lastLoginAt: Option<Millis>)

  datatype ClientType = Confidential | Public

  datatype OidcClient = OidcClient(
    id: string, productId: string, workspaceId: string, clientId: string, clientType: ClientType,
    tokenEndpointAuthMethod: string, clientSecretHash: Option<string>, allowedRedirectUris: seq<string>,
    allowedScopes: seq<string>, isActive: bool)

  datatype Product = Product(
    id: string, workspaceId: string, name: string, slug: string, environment: string, createdAt: Millis)

  datatype Workspace = Workspace(id: string, name: string, slug: string, createdAt: Millis)

  datatype RoutePolicy = RoutePolicy(
    id: string, productId: string, upstreamUrl: string, pathPattern: string, methods: seq<string>,
    requiredRoles: seq<string>, priority: int, active: bool)

  datatype Role = Role(id: string, name: string, workspaceId: Option<string>)

  datatype Assignment = Assignment(
    id: string, userId: string, role: string, workspaceId: Option<string>, productId: Option<string>)

  datatype ProviderLink = ProviderLink(
    id: string, userId: string, provider: string, providerSubject: string, email: Option<string>,
    createdAt: Millis, lastLoginAt: Option<Millis>)

  datatype PubAuthState = PubAuthState(
    products: seq<Product>,
    workspaces: seq<Workspace>,
    users: seq<UserAccount>,
    clients: seq<OidcClient>,
    routePolicies: seq<RoutePolicy>,
    assignments: seq<Assignment>,
    providerLinks: seq<ProviderLink>,
    authorizationCodes: seq<AuthorizationCode>,
    accessTokens: seq<AccessToken>,
    refreshTokens: seq<RefreshToken>,
    sessions: seq<AuthSession>)

  /* ---------- keys ---------- */

  function CodeKey(row: AuthorizationCode): string { row.codeHash }

  function AccessKey(row: AccessToken): string { row.accessToken }

  function RefreshKey(row: RefreshToken): string { row.refreshTokenHash }

  function SessionKey(row: AuthSession): string { row.id }

  /** The state file as the services see it: every read and every update is one step. */
  class StateFile {
    var state: PubAuthState

    constructor (state: PubAuthState)
      ensures this.state == state
    {
      this.state := state;
    }
  }

  /** Removes repeats, keeping the first of each: `[...new Set(items)]`. */
  function Distinct(items: seq<string>): (r: seq<string>)
    ensures forall x :: x in r <==> x in items
    ensures forall i, j :: 0 <= i < j < |r| ==> r[i] != r[j]
  {
    if items == [] then []
    else
      var n := |items| - 1;
      var head := Distinct(items[..n]);
      assert items == items[..n] + [items[n]];
      if items[n] in head then head else head + [items[n]]
  }

  lemma {:induction false} DistinctFixed(items: seq<string>)
    requires forall i, j :: 0 <= i < j < |items| ==> items[i] != items[j]
    ensures Distinct(items) == items
  {
    if items != [] {
      var n := |items| - 1;
      DistinctFixed(items[..n]);
      assert items == items[..n] + [items[n]];
    }
  }
}
