/** The token endpoint: code exchange, refresh rotation and reuse detection, one request at a time. */
module TokenIssuer {
  import opened Tables
  import opened Text
  import opened Jwt
  import opened SigningKeys
  import opened Model
  import opened Stores

  const ACCESS_SECONDS := 3600

  const REFRESH_MILLIS := 30 * 24 * 60 * 60 * 1000

  datatype GrantType = CodeGrant | RefreshGrant | OtherGrant

  datatype TokenRequest = TokenRequest(
    grantType: GrantType, clientId: string, redirectUri: Option<string>, code: Option<string>,
    codeVerifier: Option<string>, refreshToken: Option<string>, clientSecret: Option<string>, clientAuthMethod: Option<string>)

  datatype TokenResponse = TokenResponse(accessToken: string, idToken: string, refreshToken: string, expiresIn: int, scope: string)

  /** Who a token speaks for, carried from the code to every token that descends from it. */
  datatype Grant = Grant(clientId: string, subjectId: string, workspaceId: string, sessionId: Option<string>, scopes: seq<string>)

  /** The random values one request draws. */
  datatype Draw = Draw(jti: string, nextRefreshToken: string, refreshToken: string, familyId: string)

  /** The clock readings of one request, in the order in which the code takes them. */
  datatype Times = Times(find: Millis, mark: Millis, next: Millis, sign: Millis, signId: Millis, save: Millis, refresh: Millis)

  function CodeOf(code: AuthorizationCode): Grant {
    Grant(code.clientId, code.subjectId, code.workspaceId, code.sessionId, code.scopes)
  }

  function GrantOfRefresh(token: RefreshToken): Grant {
    Grant(token.clientId, token.subjectId, token.workspaceId, token.sessionId, token.scopes)
  }

  function GrantOfAccess(token: AccessToken): Grant {
    Grant(token.clientId, token.subjectId, token.workspaceId, token.sessionId, token.scopes)
  }

  /* ---------- client authentication ---------- */

  function FindClient(s: PubAuthState, clientId: string): (client: Option<OidcClient>)
    ensures client.Some? ==> client.value in s.clients && client.value.clientId == clientId && client.value.isActive
  {
    Find(s.clients, (c: OidcClient) => c.clientId == clientId && c.isActive)
  }

  predicate ClientAuthenticated(p: Platform, client: OidcClient, secret: Option<string>, authMethod: Option<string>) {
    if client.clientType.Public? then !Truthy(secret) && authMethod.None?
    else
      && Truthy(client.clientSecretHash)
      && Truthy(secret)
      && (authMethod.Some? ==> authMethod.value == client.tokenEndpointAuthMethod)
      && p.verifySecret(secret.value, client.clientSecretHash.value)
  }

  /** `requireClient` and `assertClientAuthentication`. */
  predicate ClientOk(p: Platform, s: PubAuthState, req: TokenRequest) {
    var client := FindClient(s, req.clientId);
    client.Some? && ClientAuthenticated(p, client.value, req.clientSecret, req.clientAuthMethod)
  }

  /* ---------- rows ---------- */

  function AccessRow(grant: Grant, accessToken: string, jti: string, savedAt: Millis): AccessToken {
    AccessToken(accessToken, jti, grant.subjectId, grant.clientId, grant.workspaceId, grant.sessionId, grant.scopes,
                savedAt + ACCESS_SECONDS * 1000, None)
  }

  function FreshRow(grant: Grant, hash: string, familyId: string, savedAt: Millis): RefreshToken {
    RefreshToken(hash, familyId, grant.subjectId, grant.clientId, grant.workspaceId, grant.sessionId, grant.scopes,
                 savedAt + REFRESH_MILLIS, None, None, None, None)
  }

  function RotatedRow(token: RefreshToken, now: Millis, nextHash: string): RefreshToken {
    token.(rotatedAt := Some(now), revokedAt := Some(now), replacedByHash := Some(nextHash))
  }

  function SuccessorRow(token: RefreshToken, nextHash: string, savedAt: Millis): RefreshToken {
    FreshRow(GrantOfRefresh(token), nextHash, token.familyId, savedAt).(parentRefreshTokenHash := Some(token.refreshTokenHash))
  }

  /* ---------- claims ---------- */

  /** The roles that assignments give a subject in a workspace, each once. */
  function ResolvedRoles(s: PubAuthState, subjectId: string, workspaceId: string): seq<string> {
    Distinct(MapRows(
               Filter(s.assignments, (a: Assignment) =>
                        a.userId == subjectId && (!Truthy(a.workspaceId) || a.workspaceId.value == workspaceId)),
               (a: Assignment) => a.role))
  }

  function AsJson(s: string): Json { JString(s) }

  function TokenClaims(grant: Grant, jti: string, tokenUse: string, roles: seq<string>): Claims {
    map["token_use" := JString(tokenUse),
        "scope" := JString(Join(grant.scopes, ' ')),
        "client_id" := JString(grant.clientId),
        "workspace_id" := JString(grant.workspaceId),
        "jti" := JString(jti)]
    + (if Truthy(grant.sessionId) then map["sid" := JString(grant.sessionId.value)] else map[])
    + map["roles" := JArray(MapRows(roles, AsJson)), "groups" := JArray([])]
  }

  function TokenOptions(grant: Grant, jti: string, tokenUse: string, roles: seq<string>): SignOptions {
    SignOptions(grant.clientId, grant.subjectId, ACCESS_SECONDS, TokenClaims(grant, jti, tokenUse, roles))
  }

  /** The signing service and issuer of the endpoint. */
  datatype Signer = Signer(service: KeyService, issuer: string)

  predicate CanSign(signer: Signer) {
    signer.service.usable != []
  }

  function MintToken(p: Platform, s: PubAuthState, signer: Signer, grant: Grant, jti: string, tokenUse: string,
                     now: Millis): string
    requires CanSign(signer)
  {
    ServiceSign(p, signer.service, signer.issuer,
                TokenOptions(grant, jti, tokenUse, ResolvedRoles(s, grant.subjectId, grant.workspaceId)), now)
  }

  /* ---------- requests ---------- */

  function SaveRefreshRow(s: PubAuthState, token: RefreshToken): PubAuthState {
    s.(refreshTokens := SaveRefresh(s.refreshTokens, token))
  }

  function IssueTokens(p: Platform, s: PubAuthState, signer: Signer, grant: Grant, draw: Draw,
                       at: Times): (PubAuthState, TokenResponse)
    requires CanSign(signer)
  {
    var accessToken := MintToken(p, s, signer, grant, draw.jti, "access_token", at.sign);
    var idToken := MintToken(p, s, signer, grant, draw.jti, "id_token", at.signId);
    var saved := SaveAccess(s, AccessRow(grant, accessToken, draw.jti, at.save));
    var row := FreshRow(grant, p.sha256Hex(draw.refreshToken), draw.familyId, at.refresh);
    (SaveRefreshRow(saved, row),
     TokenResponse(accessToken, idToken, draw.refreshToken, ACCESS_SECONDS, Join(grant.scopes, ' ')))
  }

  /** Everything a code exchange checks before it marks the code used. */
  function CheckCode(p: Platform, s: PubAuthState, req: TokenRequest, now: Millis): (code: Result<AuthorizationCode>)
    ensures code.Ok? ==> code.value in s.authorizationCodes
  {
    if !Truthy(req.code) || !Truthy(req.codeVerifier) then Err("invalid_request")
    else
      var code := FindUsable(s, p.sha256Hex(req.code.value), now);
      if code.None? then Err("invalid_grant")
      else if code.value.clientId != req.clientId then Err("invalid_client")
      else if Truthy(req.redirectUri) && code.value.redirectUri != req.redirectUri.value then Err("invalid_grant")
      else if p.sha256Base64Url(req.codeVerifier.value) != code.value.codeChallenge then Err("invalid_grant")
      else Ok(code.value)
  }

  function ExchangeCode(p: Platform, s: PubAuthState, signer: Signer, req: TokenRequest, draw: Draw,
                        at: Times): (PubAuthState, Result<TokenResponse>)
    requires CanSign(signer)
  {
    var code := CheckCode(p, s, req, at.find);
    if code.Err? then (s, Err(code.error))
    else
      var marked := MarkUsed(s, code.value.codeHash, at.mark);
      var (issued, response) := IssueTokens(p, marked, signer, CodeOf(code.value), draw, at);
      (issued, Ok(response))
  }

  function RotateRefresh(p: Platform, s: PubAuthState, signer: Signer, req: TokenRequest, draw: Draw,
                         at: Times): (PubAuthState, Result<TokenResponse>)
    requires CanSign(signer)
  {
    if !Truthy(req.refreshToken) then (s, Err("invalid_request"))
    else
      var token := FindRefresh(s.refreshTokens, p.sha256Hex(req.refreshToken.value), at.find);
      if token.None? || token.value.clientId != req.clientId then (s, Err("invalid_grant"))
      else if token.value.revokedAt.Some? || Truthy(token.value.replacedByHash) then
        (s.(refreshTokens := RevokeFamily(s.refreshTokens, token.value.familyId, at.find)), Err("invalid_grant"))
      else
        var nextHash := p.sha256Hex(draw.nextRefreshToken);
        var rotated := SaveRefreshRow(s, RotatedRow(token.value, at.find, nextHash));
        var chained := SaveRefreshRow(rotated, SuccessorRow(token.value, nextHash, at.next));
        var (issued, response) := IssueTokens(p, chained, signer, GrantOfRefresh(token.value), draw, at);
        (issued, Ok(response.(refreshToken := draw.nextRefreshToken)))
  }

  function IssueToken(p: Platform, s: PubAuthState, signer: Signer, req: TokenRequest, draw: Draw,
                      at: Times): (PubAuthState, Result<TokenResponse>)
    requires CanSign(signer)
  {
    if !ClientOk(p, s, req) then (s, Err("invalid_client"))
    else match req.grantType
      case CodeGrant => ExchangeCode(p, s, signer, req, draw, at)
      case RefreshGrant => RotateRefresh(p, s, signer, req, draw, at)
      case OtherGrant => (s, Err("unsupported_grant_type"))
  }

  /** The issuer object: each grant is a sequence of separate store operations. */
  class DevTokenIssuer {
    const p: Platform
    const file: StateFile
    const codes: FileAuthorizationCodeStore
    const accessTokens: FileAccessTokenStore
    const refreshTokens: FileRefreshTokenRepository
    const signer: Signer

    predicate Valid() {
      codes.file == accessTokens.file == refreshTokens.file == file && CanSign(signer)
    }

    constructor (p: Platform, file: StateFile, signer: Signer)
      requires CanSign(signer)
      ensures Valid() && this.file == file && this.p == p && this.signer == signer
    {
      this.p, this.file, this.signer := p, file, signer;
      var c := new FileAuthorizationCodeStore(file);
      var a := new FileAccessTokenStore(file);
      var r := new FileRefreshTokenRepository(file);
      codes, accessTokens, refreshTokens := c, a, r;
    }

    method Issue(req: TokenRequest, draw: Draw, at: Times) returns (r: Result<TokenResponse>)
      requires Valid()
      modifies file
      ensures (file.state, r) == IssueToken(p, old(file.state), signer, req, draw, at)
    {
      var client := FindClient(file.state, req.clientId);
      if client.None? || !ClientAuthenticated(p, client.value, req.clientSecret, req.clientAuthMethod) {
        return Err("invalid_client");
      }
      match req.grantType
      case CodeGrant => r := IssueAuthorizationCodeToken(req, draw, at);
      case RefreshGrant => r := IssueRefreshToken(req, draw, at);
      case OtherGrant => r := Err("unsupported_grant_type");
    }

    method IssueAuthorizationCodeToken(req: TokenRequest, draw: Draw, at: Times) returns (r: Result<TokenResponse>)
      requires Valid()
      modifies file
      ensures (file.state, r) == ExchangeCode(p, old(file.state), signer, req, draw, at)
    {
      if !Truthy(req.code) || !Truthy(req.codeVerifier) {
        return Err("invalid_request");
      }
      var codeHash := p.sha256Hex(req.code.value);
      var found := codes.Find(codeHash, at.find);
      if found.None? {
        return Err("invalid_grant");
      }
      var code := found.value;
      if code.clientId != req.clientId {
        return Err("invalid_client");
      }
      if Truthy(req.redirectUri) && code.redirectUri != req.redirectUri.value {
        return Err("invalid_grant");
      }
      if p.sha256Base64Url(req.codeVerifier.value) != code.codeChallenge {
        return Err("invalid_grant");
      }
      codes.Mark(codeHash, at.mark);
      var response := Tokens(CodeOf(code), draw, at);
      r := Ok(response);
    }

    method IssueRefreshToken(req: TokenRequest, draw: Draw, at: Times) returns (r: Result<TokenResponse>)
      requires Valid()
      modifies file
      ensures (file.state, r) == RotateRefresh(p, old(file.state), signer, req, draw, at)
    {
      if !Truthy(req.refreshToken) {
        return Err("invalid_request");
      }
      var found := refreshTokens.Find(p.sha256Hex(req.refreshToken.value), at.find);
      if found.None? || found.value.clientId != req.clientId {
        return Err("invalid_grant");
      }
      var token := found.value;
      if token.revokedAt.Some? || Truthy(token.replacedByHash) {
        refreshTokens.RevokeAll(token.familyId, at.find);
        return Err("invalid_grant");
      }
      var nextHash := p.sha256Hex(draw.nextRefreshToken);
      refreshTokens.Save(RotatedRow(token, at.find, nextHash));
      refreshTokens.Save(SuccessorRow(token, nextHash, at.next));
      var response := Tokens(GrantOfRefresh(token), draw, at);
      response := response.(refreshToken := draw.nextRefreshToken);
      r := Ok(response);
    }

    method Tokens(grant: Grant, draw: Draw, at: Times) returns (response: TokenResponse)
      requires Valid()
      modifies file
      ensures (file.state, response) == IssueTokens(p, old(file.state), signer, grant, draw, at)
    {
      var accessToken := MintToken(p, file.state, signer, grant, draw.jti, "access_token", at.sign);
      var idToken := MintToken(p, file.state, signer, grant, draw.jti, "id_token", at.signId);
      accessTokens.Save(AccessRow(grant, accessToken, draw.jti, at.save));
      refreshTokens.Save(FreshRow(grant, p.sha256Hex(draw.refreshToken), draw.familyId, at.refresh));
      response := TokenResponse(accessToken, idToken, draw.refreshToken, ACCESS_SECONDS, Join(grant.scopes, ' '));
    }
  }
}
