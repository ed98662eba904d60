/** Issuing authorization codes, logging in and logging out. */
module Authorization {
  import opened Tables
  import opened Text
  import opened Jwt
  import opened Model
  import opened Stores
  import opened TokenIssuer

  const CODE_MILLIS := 60000

  const SESSION_MILLIS := 8 * 60 * 60 * 1000

  datatype AuthorizationRequest = AuthorizationRequest(
    clientId: string, redirectUri: string, responseType: string, scope: string, codeChallenge: string,
    codeChallengeMethod: string, subjectId: string, workspaceId: string, sessionId: Option<string>)

  function ParseScopes(scope: string): seq<string> {
    Filter(MapRows(Split(scope, ' '), Trim), (s: string) => s != "")
  }

  predicate ScopesAllowed(client: OidcClient, scopes: seq<string>) {
    forall scope :: scope in scopes ==> scope in client.allowedScopes
  }

  /** What `start` checks; the scopes it then grants. */
  function CheckAuthorize(s: PubAuthState, req: AuthorizationRequest): (scopes: Result<seq<string>>)
    ensures scopes.Ok? ==> FindClient(s, req.clientId).Some? && ScopesAllowed(FindClient(s, req.clientId).value, scopes.value)
  {
    var client := FindClient(s, req.clientId);
    if client.None? then Err("invalid_client")
    else if req.responseType != "code" then Err("unsupported_response_type")
    else if req.codeChallengeMethod != "S256" then Err("invalid_code_challenge_method")
    else if req.redirectUri !in client.value.allowedRedirectUris then Err("invalid_redirect_uri")
    else if !ScopesAllowed(client.value, ParseScopes(req.scope)) then Err("invalid_scope")
    else Ok(ParseScopes(req.scope))
  }

  function CodeRow(req: AuthorizationRequest, scopes: seq<string>, codeHash: string, now: Millis): AuthorizationCode {
    AuthorizationCode(codeHash, req.clientId, req.subjectId, req.workspaceId, req.sessionId, req.redirectUri, scopes,
                      req.codeChallenge, now + CODE_MILLIS, None)
  }

  function Authorize(p: Platform, s: PubAuthState, req: AuthorizationRequest, code: string,
                     now: Millis): (PubAuthState, Result<string>) {
    var scopes := CheckAuthorize(s, req);
    if scopes.Err? then (s, Err(scopes.error))
    else (SaveCode(s, CodeRow(req, scopes.value, p.sha256Hex(code), now)), Ok(code))
  }

  class DefaultAuthorizationService {
    const p: Platform
    const file: StateFile
    const codes: FileAuthorizationCodeStore

    predicate Valid() {
      codes.file == file
    }

    constructor (p: Platform, file: StateFile)
      ensures Valid() && this.p == p && this.file == file
    {
      this.p, this.file := p, file;
      var c := new FileAuthorizationCodeStore(file);
      codes := c;
    }

    /** `code` is the random value the service draws. */
    method Start(req: AuthorizationRequest, code: string, now: Millis) returns (r: Result<string>)
      requires Valid()
      modifies file
      ensures (file.state, r) == Authorize(p, old(file.state), req, code, now)
    {
      var client := FindClient(file.state, req.clientId);
      if client.None? {
        return Err("invalid_client");
      }
      if req.responseType != "code" {
        return Err("unsupported_response_type");
      }
      if req.codeChallengeMethod != "S256" {
        return Err("invalid_code_challenge_method");
      }
      if req.redirectUri !in client.value.allowedRedirectUris {
        return Err("invalid_redirect_uri");
      }
      var scopes := ParseScopes(req.scope);
      if !ScopesAllowed(client.value, scopes) {
        return Err("invalid_scope");
      }
      codes.Save(CodeRow(req, scopes, p.sha256Hex(code), now));
      r := Ok(code);
    }
  }

  /* ---------- sessions ---------- */

  function UserKey(row: UserAccount): string { row.id }

  function SaveUser(s: PubAuthState, user: UserAccount): PubAuthState {
    s.(users := Upsert(s.users, UserKey, user))
  }

  function FindByUsername(s: PubAuthState, username: string): (user: Option<UserAccount>)
    ensures user.Some? ==> user.value in s.users && user.value.active
  {
    Find(s.users, (u: UserAccount) => u.username == username && u.active)
  }

  function SessionRow(user: UserAccount, id: string, now: Millis): AuthSession {
    AuthSession(id, user.subjectId, user.workspaceId, now, now + SESSION_MILLIS, None)
  }

  function CheckLogin(p: Platform, s: PubAuthState, username: string, password: string,
                      isLocal: bool): (user: Result<UserAccount>)
    ensures user.Ok? ==> user.value in s.users
  {
    var user := FindByUsername(s, p.toLowerCase(Trim(username)));
    if user.Some? && user.value.bootstrapAccount && !isLocal then Err("bootstrap_accounts_disabled")
    else if user.None? || !p.verifySecret(password, user.value.passwordHash) then Err("invalid_credentials")
    else Ok(user.value)
  }

  function Login(p: Platform, s: PubAuthState, username: string, password: string, isLocal: bool, sessionId: string,
                 now: Millis)
    : (PubAuthState, Result<AuthSession>)
  {
    var user := CheckLogin(p, s, username, password, isLocal);
    if user.Err? then (s, Err(user.error))
    else
      var session := SessionRow(user.value, sessionId, now);
      (SaveUser(SaveSession(s, session), user.value.(lastLoginAt := Some(now))), Ok(session))
  }

  class LocalAccountSessionService {
    const p: Platform
    const file: StateFile
    const sessions: FileSessionRepository
    const isLocal: bool

    predicate Valid() {
      sessions.file == file
    }

    constructor (p: Platform, file: StateFile, isLocal: bool)
      ensures Valid() && this.p == p && this.file == file && this.isLocal == isLocal
    {
      this.p, this.file, this.isLocal := p, file, isLocal;
      var r := new FileSessionRepository(file);
      sessions := r;
    }

    /** `sessionId` is the random value the service draws. */
    method LogIn(username: string, password: string, sessionId: string, now: Millis) returns (r: Result<AuthSession>)
      requires Valid()
      modifies file
      ensures (file.state, r) == Login(p, old(file.state), username, password, isLocal, sessionId, now)
    {
      var user := FindByUsername(file.state, p.toLowerCase(Trim(username)));
      if user.Some? && user.value.bootstrapAccount && !isLocal {
        return Err("bootstrap_accounts_disabled");
      }
      if user.None? || !p.verifySecret(password, user.value.passwordHash) {
        return Err("invalid_credentials");
      }
      var session := SessionRow(user.value, sessionId, now);
      sessions.Save(session);
      file.state := file.state.(users := Upsert(file.state.users, UserKey, user.value.(lastLoginAt := Some(now))));
      r := Ok(session);
    }

    method LogOut(sessionId: string, now: Millis)
      requires Valid()
      modifies file
      ensures file.state == RevokeSession(old(file.state), sessionId, now)
    {
      sessions.RevokeOne(sessionId, now);
    }
  }
}
