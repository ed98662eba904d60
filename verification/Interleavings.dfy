/**
 * Requests that overlap: every store operation is a step of its own, and any number of requests may
 * be under way. Two maps record, for every issued token, the code it descends from.
 */
module Interleavings {
  import opened Tables
  import opened Jwt
  import opened SigningKeys
  import opened Model
  import opened Stores
  import opened TokenIssuer
  import opened Authorization
  import opened TokenRuns
  import opened Acceptance

  /** Where a request stands, with the local variables it still needs. */
  datatype Task =
    | AuthorizeLookup(request: AuthorizationRequest)
    | AuthorizeSave(row: AuthorizationCode)
    | ClientLookup(req: TokenRequest)
    | CodeFind(req: TokenRequest)
    | CodeMark(codeHash: string, grant: Grant)
    | RefreshFind(req: TokenRequest)
    | FamilyRevoke(familyId: string, now: Millis)
    | RefreshRotate(token: RefreshToken, now: Millis, origin: string)
    | RefreshChain(token: RefreshToken, nextHash: string, issuedAt: Millis, origin: string)
    | IssueClaims(grant: Grant, origin: string)
    | IssueAccess(grant: Grant, origin: string, roles: seq<string>)
    | IssueRefresh(grant: Grant, origin: string)
    | Finished(ok: bool)

  datatype World = World(
    db: PubAuthState,
    tasks: seq<Task>,
    drawn: set<string>,                  // hashes of all secrets drawn so far
    accessOrigin: map<string, string>,   // access token -> hash of its code
    refreshOrigin: map<string, string>)  // refresh token hash -> hash of its code

  /** What one step reads from the clock, the random source and the signer. */
  datatype Input = Input(now: Millis, secret: string, accessToken: string, jti: string, familyId: string)

  datatype Move =
    | Begin(task: Task)
    | Proceed(i: nat, input: Input)
    | NewSession(session: AuthSession)
    | EndSession(sessionId: string, now: Millis)
    | Other(next: PubAuthState)

  function OriginOf(origins: map<string, string>, key: string): string {
    if key in origins then origins[key] else ""
  }

  /** The store operation of one step. */
  function Effect(p: Platform, db: PubAuthState, task: Task, input: Input): PubAuthState {
    match task
    case AuthorizeSave(row) => SaveCode(db, row)
    case CodeMark(codeHash, _) => MarkUsed(db, codeHash, input.now)
    case FamilyRevoke(familyId, now) => db.(refreshTokens := RevokeFamily(db.refreshTokens, familyId, now))
    case RefreshRotate(token, now, _) => SaveRefreshRow(db, RotatedRow(token, now, p.sha256Hex(input.secret)))
    case RefreshChain(token, nextHash, issuedAt, _) => SaveRefreshRow(db, SuccessorRow(token, nextHash, issuedAt))
    case IssueAccess(grant, _, _) => SaveAccess(db, AccessRow(grant, input.accessToken, input.jti, input.now))
    case IssueRefresh(grant, _) => SaveRefreshRow(db, FreshRow(grant, p.sha256Hex(input.secret), input.familyId, input.now))
    case _ => db
  }

  /** Where the request stands after its step; the reads it makes are of the state before the step. */
  function NextTask(p: Platform, w: World, task: Task, input: Input): Task {
    var db := w.db;
    match task
    case AuthorizeLookup(request) =>
      var scopes := CheckAuthorize(db, request);
      if scopes.Err? then Finished(false)
      else AuthorizeSave(CodeRow(request, scopes.value, p.sha256Hex(input.secret), input.now))
    case AuthorizeSave(_) => Finished(true)
    case ClientLookup(req) =>
      if !ClientOk(p, db, req) then Finished(false)
      else if req.grantType.CodeGrant? then CodeFind(req)
      else if req.grantType.RefreshGrant? then RefreshFind(req)
      else Finished(false)
    case CodeFind(req) =>
      var code := CheckCode(p, db, req, input.now);
      if code.Err? then Finished(false) else CodeMark(code.value.codeHash, CodeOf(code.value))
    case CodeMark(codeHash, grant) => IssueClaims(grant, codeHash)
    case RefreshFind(req) =>
      var token := if Truthy(req.refreshToken) then FindRefresh(db.refreshTokens, p.sha256Hex(req.refreshToken.value), input.now) else None;
      if token.None? || token.value.clientId != req.clientId then Finished(false)
      else if token.value.revokedAt.Some? || Truthy(token.value.replacedByHash) then FamilyRevoke(token.value.familyId, input.now)
      else RefreshRotate(token.value, input.now, OriginOf(w.refreshOrigin, token.value.refreshTokenHash))
    case FamilyRevoke(_, _) => Finished(false)
    case RefreshRotate(token, _, origin) => RefreshChain(token, p.sha256Hex(input.secret), input.now, origin)
    case RefreshChain(token, _, _, origin) => IssueClaims(GrantOfRefresh(token), origin)
    case IssueClaims(grant, origin) => IssueAccess(grant, origin, ResolvedRoles(db, grant.subjectId, grant.workspaceId))
    case IssueAccess(grant, origin, _) => IssueRefresh(grant, origin)
    case IssueRefresh(_, _) => Finished(true)
    case Finished(ok) => Finished(ok)
  }

  /** Steps that draw a secret. */
  predicate Draws(task: Task) {
    task.AuthorizeLookup? || task.RefreshRotate? || task.IssueRefresh?
  }

  function NextAccessOrigin(origins: map<string, string>, task: Task, input: Input): map<string, string> {
    if task.IssueAccess? then origins[input.accessToken := task.origin] else origins
  }

  function NextRefreshOrigin(p: Platform, origins: map<string, string>, task: Task, input: Input): map<string, string> {
    match task
    case RefreshChain(_, nextHash, _, origin) => origins[nextHash := origin]
    case IssueRefresh(_, origin) => origins[p.sha256Hex(input.secret) := origin]
    case _ => origins
  }

  /** One step of task `i`. */
  function Advance(p: Platform, w: World, i: nat, input: Input): World
    requires i < |w.tasks|
  {
    var task := w.tasks[i];
    World(Effect(p, w.db, task, input),
          w.tasks[i := NextTask(p, w, task, input)],
          if Draws(task) then w.drawn + {p.sha256Hex(input.secret)} else w.drawn,
          NextAccessOrigin(w.accessOrigin, task, input),
          NextRefreshOrigin(p, w.refreshOrigin, task, input))
  }

  /** The saved token is signed, by some key at some time, for the step's grant and token id. */
  ghost predicate Minted(p: Platform, task: Task, input: Input)
    requires task.IssueAccess?
  {
    exists key: RsaJwtSigner, signedAt: Millis ::
      input.accessToken == SignPayload(p, key, AccessPayload(key.issuer, task.grant, input.jti, task.roles, signedAt))
  }

  /** Only new secrets, token ids and session ids are drawn; other services leave the token tables alone. */
  ghost predicate Drawn(p: Platform, w: World, move: Move) {
    match move
    case Begin(task) => task.AuthorizeLookup? || task.ClientLookup?
    case Proceed(i, input) =>
      && i < |w.tasks|
      && (Draws(w.tasks[i]) ==> p.sha256Hex(input.secret) !in w.drawn)
      && (w.tasks[i].IssueAccess? ==>
            Minted(p, w.tasks[i], input) && forall a :: a in w.db.accessTokens ==> a.jti != input.jti)
    case NewSession(session) => forall x :: x in w.db.sessions ==> x.id != session.id
    case EndSession(_, _) => true
    case Other(next) => KeepsTokens(w.db, next)
  }

  /** The same, but saying of an access token only that it is a new one; see `ExecutionSteps`. */
  ghost predicate Permitted(p: Platform, w: World, move: Move) {
    match move
    case Begin(task) => task.AuthorizeLookup? || task.ClientLookup?
    case Proceed(i, input) =>
      && i < |w.tasks|
      && (Draws(w.tasks[i]) ==> p.sha256Hex(input.secret) !in w.drawn)
      && (w.tasks[i].IssueAccess? ==> input.accessToken !in w.accessOrigin)
    case NewSession(session) => forall x :: x in w.db.sessions ==> x.id != session.id
    case EndSession(_, _) => true
    case Other(next) => KeepsTokens(w.db, next)
  }

  function Do(p: Platform, w: World, move: Move): World
    requires move.Proceed? ==> move.i < |w.tasks|
  {
    match move
    case Begin(task) => w.(tasks := w.tasks + [task])
    case Proceed(i, input) => Advance(p, w, i, input)
    case NewSession(session) => w.(db := SaveSession(w.db, session))
    case EndSession(sessionId, now) => w.(db := RevokeSession(w.db, sessionId, now))
    case Other(next) => w.(db := next)
  }

  ghost predicate Initial(w: World) {
    && w.tasks == [] && w.drawn == {} && w.accessOrigin == map[] && w.refreshOrigin == map[]
    && w.db.authorizationCodes == [] && w.db.accessTokens == [] && w.db.refreshTokens == []
  }

  ghost predicate Execution(p: Platform, worlds: seq<World>, moves: seq<Move>) {
    && |worlds| == |moves| + 1
    && Initial(worlds[0])
    && forall k :: 0 <= k < |moves| ==> Drawn(p, worlds[k], moves[k]) && worlds[k + 1] == Do(p, worlds[k], moves[k])
  }

  ghost predicate Steps(p: Platform, worlds: seq<World>, moves: seq<Move>) {
    && |worlds| == |moves| + 1
    && Initial(worlds[0])
    && forall k :: 0 <= k < |moves| ==> Permitted(p, worlds[k], moves[k]) && worlds[k + 1] == Do(p, worlds[k], moves[k])
  }

  /* ---------- signed tokens never repeat ---------- */

  /** The token is a signature over a payload with this token id. */
  ghost predicate SignedWith(p: Platform, token: string, jti: string) {
    exists key: RsaJwtSigner, payload: Claims ::
      token == SignPayload(p, key, payload) && Claim(payload, "jti") == Some(JString(jti))
  }

  ghost predicate HasAccess(rows: seq<AccessToken>, token: string) {
    exists a :: a in rows && a.accessToken == token
  }

  /** Every recorded token is stored, signed with the token id of its row. */
  ghost predicate TokensSigned(p: Platform, w: World) {
    && (forall t :: t in w.accessOrigin ==> HasAccess(w.db.accessTokens, t))
    && (forall a :: a in w.db.accessTokens ==> SignedWith(p, a.accessToken, a.jti))
  }

  lemma SameTokenSameId(p: Platform, token: string, a: string, b: string)
    requires Sound(p) && SignedWith(p, token, a) && SignedWith(p, token, b)
    ensures a == b
  {
    var k1: RsaJwtSigner, x: Claims :| token == SignPayload(p, k1, x) && Claim(x, "jti") == Some(JString(a));
    var k2: RsaJwtSigner, y: Claims :| token == SignPayload(p, k2, y) && Claim(y, "jti") == Some(JString(b));
    SignInjective(p, k1, k2, x, y);
  }

  lemma MintedIsSigned(p: Platform, task: Task, input: Input)
    requires task.IssueAccess? && Minted(p, task, input)
    ensures SignedWith(p, input.accessToken, input.jti)
  {
    var key: RsaJwtSigner, signedAt: Millis :|
      input.accessToken == SignPayload(p, key, AccessPayload(key.issuer, task.grant, input.jti, task.roles, signedAt));
    PayloadClaims(key.issuer, task.grant, input.jti, task.roles, signedAt);
  }

  /** A token signed with a new id is a new token. */
  lemma DrawnIsPermitted(p: Platform, w: World, move: Move)
    requires Sound(p) && TokensSigned(p, w) && Drawn(p, w, move)
    ensures Permitted(p, w, move)
  {
    if move.Proceed? && w.tasks[move.i].IssueAccess? {
      var input := move.input;
      MintedIsSigned(p, w.tasks[move.i], input);
      if input.accessToken in w.accessOrigin {
        var a :| a in w.db.accessTokens && a.accessToken == input.accessToken;
        SameTokenSameId(p, input.accessToken, a.jti, input.jti);
      }
    }
  }

  lemma OtherStepsKeepAccess(p: Platform, w: World, move: Move)
    requires Drawn(p, w, move) && !(move.Proceed? && w.tasks[move.i].IssueAccess?)
    ensures Do(p, w, move).db.accessTokens == w.db.accessTokens && Do(p, w, move).accessOrigin == w.accessOrigin
  {
  }

  lemma SavedTokenSigned(p: Platform, rows: seq<AccessToken>, origins: map<string, string>, row: AccessToken, origin: string)
    requires (forall t :: t in origins ==> HasAccess(rows, t)) && forall a :: a in rows ==> SignedWith(p, a.accessToken, a.jti)
    requires SignedWith(p, row.accessToken, row.jti)
    ensures var rows' := Upsert(rows, AccessKey, row);
            && (forall t :: t in origins[row.accessToken := origin] ==> HasAccess(rows', t))
            && forall a :: a in rows' ==> SignedWith(p, a.accessToken, a.jti)
  {
    var rows' := Upsert(rows, AccessKey, row);
    assert row in rows';
    forall t | t in origins && t != row.accessToken
      ensures HasAccess(rows', t)
    {
      var a :| a in rows && a.accessToken == t;
      assert a in rows';
    }
  }

  lemma SavingTokenEffect(p: Platform, w: World, i: nat, input: Input)
    requires i < |w.tasks| && w.tasks[i].IssueAccess?
    ensures var task := w.tasks[i];
            var w' := Advance(p, w, i, input);
            && w'.db.accessTokens == Upsert(w.db.accessTokens, AccessKey, AccessRow(task.grant, input.accessToken, input.jti, input.now))
            && w'.accessOrigin == w.accessOrigin[input.accessToken := task.origin]
  {
  }

  lemma TokensStaySigned(p: Platform, w: World, move: Move)
    requires TokensSigned(p, w) && Drawn(p, w, move)
    ensures TokensSigned(p, Do(p, w, move))
  {
    if move.Proceed? && w.tasks[move.i].IssueAccess? {
      var task, input := w.tasks[move.i], move.input;
      MintedIsSigned(p, task, input);
      SavingTokenEffect(p, w, move.i, input);
      SavedTokenSigned(p, w.db.accessTokens, w.accessOrigin, AccessRow(task.grant, input.accessToken, input.jti, input.now), task.origin);
    } else {
      OtherStepsKeepAccess(p, w, move);
    }
  }

  /** In an execution that draws new token ids, no access token is ever minted twice. */
  lemma ExecutionSteps(p: Platform, worlds: seq<World>, moves: seq<Move>)
    requires Sound(p) && Execution(p, worlds, moves)
    ensures Steps(p, worlds, moves)
  {
    var inv := (w: World) => TokensSigned(p, w);
    forall j | 0 <= j < |worlds| - 1 && inv(worlds[j])
      ensures inv(worlds[j + 1])
    {
      TokensStaySigned(p, worlds[j], moves[j]);
    }
    forall k | 0 <= k < |moves|
      ensures Permitted(p, worlds[k], moves[k])
    {
      Kept(worlds, inv, 0, k);
      DrawnIsPermitted(p, worlds[k], moves[k]);
    }
  }

  /* ---------- what no step undoes ---------- */

  ghost predicate SameCode(c: AuthorizationCode, c': AuthorizationCode) {
    c'.codeHash == c.codeHash && CodeOf(c') == CodeOf(c) && (c.usedAt.Some? ==> c'.usedAt.Some?)
  }

  ghost predicate SameRefresh(r: RefreshToken, r': RefreshToken) {
    r'.refreshTokenHash == r.refreshTokenHash && GrantOfRefresh(r') == GrantOfRefresh(r) && (r.revokedAt.Some? ==> r'.revokedAt.Some?)
  }

  ghost predicate SameSession(x: AuthSession, x': AuthSession) {
    x'.id == x.id && (x.revokedAt.Some? ==> x'.revokedAt.Some?)
  }

  ghost predicate CodeKept(c: AuthorizationCode, codes: seq<AuthorizationCode>) {
    exists c' :: c' in codes && SameCode(c, c')
  }

  ghost predicate RefreshKept(r: RefreshToken, rows: seq<RefreshToken>) {
    exists r' :: r' in rows && SameRefresh(r, r')
  }

  ghost predicate SessionKept(x: AuthSession, rows: seq<AuthSession>) {
    exists x' :: x' in rows && SameSession(x, x')
  }

  ghost predicate CodesKept(codes: seq<AuthorizationCode>, codes': seq<AuthorizationCode>) {
    forall c :: c in codes ==> CodeKept(c, codes')
  }

  ghost predicate RefreshesKept(rows: seq<RefreshToken>, rows': seq<RefreshToken>) {
    forall r :: r in rows ==> RefreshKept(r, rows')
  }

  ghost predicate SessionsKept(rows: seq<AuthSession>, rows': seq<AuthSession>) {
    forall x :: x in rows ==> SessionKept(x, rows')
  }

  ghost predicate AccessKept(rows: seq<AccessToken>, rows': seq<AccessToken>) {
    forall a :: a in rows ==> a in rows'
  }

  /** Rows stay, with their grants; `usedAt` and `revokedAt`, once set, stay set. */
  ghost predicate Grows(db: PubAuthState, db': PubAuthState) {
    && CodesKept(db.authorizationCodes, db'.authorizationCodes)
    && RefreshesKept(db.refreshTokens, db'.refreshTokens)
    && SessionsKept(db.sessions, db'.sessions)
    && AccessKept(db.accessTokens, db'.accessTokens)
  }

  lemma GrowsReflexive(db: PubAuthState)
    ensures Grows(db, db)
  {
    forall c | c in db.authorizationCodes ensures CodeKept(c, db.authorizationCodes) { assert SameCode(c, c); }
    forall r | r in db.refreshTokens ensures RefreshKept(r, db.refreshTokens) { assert SameRefresh(r, r); }
    forall x | x in db.sessions ensures SessionKept(x, db.sessions) { assert SameSession(x, x); }
  }

  lemma GrowsTransitive(a: PubAuthState, b: PubAuthState, c: PubAuthState)
    requires Grows(a, b) && Grows(b, c)
    ensures Grows(a, c)
  {
    forall x | x in a.authorizationCodes ensures CodeKept(x, c.authorizationCodes) {
      var y :| y in b.authorizationCodes && SameCode(x, y);
      var z :| z in c.authorizationCodes && SameCode(y, z);
      assert SameCode(x, z);
    }
    forall x | x in a.refreshTokens ensures RefreshKept(x, c.refreshTokens) {
      var y :| y in b.refreshTokens && SameRefresh(x, y);
      var z :| z in c.refreshTokens && SameRefresh(y, z);
      assert SameRefresh(x, z);
    }
    forall x | x in a.sessions ensures SessionKept(x, c.sessions) {
      var y :| y in b.sessions && SameSession(x, y);
      var z :| z in c.sessions && SameSession(y, z);
      assert SameSession(x, z);
    }
  }

  /* ---------- the invariant ---------- */

  /** A stored code with this hash carries this grant. */
  ghost predicate Known(db: PubAuthState, origin: string, grant: Grant) {
    exists c :: c in db.authorizationCodes && c.codeHash == origin && CodeOf(c) == grant
  }

  /** A stored, used code with this hash carries this grant. */
  ghost predicate Vouched(db: PubAuthState, origin: string, grant: Grant) {
    exists c :: c in db.authorizationCodes && c.codeHash == origin && CodeOf(c) == grant && c.usedAt.Some?
  }

  /** Codes with one hash carry one grant, and every hash was drawn. */
  ghost predicate CodeTableOk(codes: seq<AuthorizationCode>, drawn: set<string>) {
    && (forall c :: c in codes ==> c.codeHash in drawn)
    && (forall c, d :: c in codes && d in codes && c.codeHash == d.codeHash ==> CodeOf(c) == CodeOf(d))
  }

  ghost predicate CodesOk(w: World) {
    CodeTableOk(w.db.authorizationCodes, w.drawn)
  }

  ghost predicate AccessOk(w: World) {
    forall a :: a in w.db.accessTokens ==>
      a.accessToken in w.accessOrigin && Vouched(w.db, w.accessOrigin[a.accessToken], GrantOfAccess(a))
  }

  ghost predicate RefreshOk(w: World) {
    && (forall h :: h in w.refreshOrigin ==> h in w.drawn)
    && forall r :: r in w.db.refreshTokens ==>
         r.refreshTokenHash in w.refreshOrigin && Vouched(w.db, w.refreshOrigin[r.refreshTokenHash], GrantOfRefresh(r))
  }

  /** The hash a request has drawn and not yet saved. */
  function Pending(task: Task): Option<string> {
    match task
    case AuthorizeSave(row) => Some(row.codeHash)
    case RefreshChain(_, nextHash, _, _) => Some(nextHash)
    case _ => None
  }

  ghost predicate NotSaved(w: World, hash: string) {
    && hash in w.drawn
    && hash !in w.refreshOrigin
    && forall c :: c in w.db.authorizationCodes ==> c.codeHash != hash
  }

  ghost predicate PendingOk(w: World) {
    && (forall i :: 0 <= i < |w.tasks| && Pending(w.tasks[i]).Some? ==> NotSaved(w, Pending(w.tasks[i]).value))
    && (forall i, j :: 0 <= i < j < |w.tasks| && Pending(w.tasks[i]).Some? ==> Pending(w.tasks[i]) != Pending(w.tasks[j]))
  }

  /** The code hash and grant that a request past its code or token carries. */
  function Vouches(task: Task): Option<(string, Grant)> {
    match task
    case RefreshRotate(token, _, origin) => Some((origin, GrantOfRefresh(token)))
    case RefreshChain(token, _, _, origin) => Some((origin, GrantOfRefresh(token)))
    case IssueClaims(grant, origin) => Some((origin, grant))
    case IssueAccess(grant, origin, _) => Some((origin, grant))
    case IssueRefresh(grant, origin) => Some((origin, grant))
    case _ => None
  }

  ghost predicate NoRepeats(items: seq<string>) {
    forall i, j :: 0 <= i < j < |items| ==> items[i] != items[j]
  }

  ghost predicate TaskOk(w: World, task: Task) {
    && (task.CodeMark? ==> Known(w.db, task.codeHash, task.grant))
    && (task.RefreshRotate? ==>
          task.token.refreshTokenHash in w.refreshOrigin && w.refreshOrigin[task.token.refreshTokenHash] == task.origin)
    && (task.IssueAccess? ==> NoRepeats(task.roles))
    && (Vouches(task).Some? ==> Vouched(w.db, Vouches(task).value.0, Vouches(task).value.1))
  }

  ghost predicate TasksOk(w: World) {
    forall i :: 0 <= i < |w.tasks| ==> TaskOk(w, w.tasks[i])
  }

  ghost predicate WorldInv(w: World) {
    CodesOk(w) && AccessOk(w) && RefreshOk(w) && PendingOk(w) && TasksOk(w)
  }

  /** `w'` keeps all that `w` recorded. */
  ghost predicate Extends(w: World, w': World) {
    && Grows(w.db, w'.db)
    && w.drawn <= w'.drawn
    && (forall k :: k in w.accessOrigin ==> k in w'.accessOrigin && w'.accessOrigin[k] == w.accessOrigin[k])
    && (forall k :: k in w.refreshOrigin ==> k in w'.refreshOrigin && w'.refreshOrigin[k] == w.refreshOrigin[k])
  }

  lemma VouchedGrows(db: PubAuthState, db': PubAuthState, origin: string, grant: Grant)
    requires Grows(db, db')
    ensures Known(db, origin, grant) ==> Known(db', origin, grant)
    ensures Vouched(db, origin, grant) ==> Vouched(db', origin, grant)
  {
    if Known(db, origin, grant) {
      var c :| c in db.authorizationCodes && c.codeHash == origin && CodeOf(c) == grant
               && (Vouched(db, origin, grant) ==> c.usedAt.Some?);
      var c' :| c' in db'.authorizationCodes && SameCode(c, c');
    }
  }

  lemma TaskOkExtends(w: World, w': World, task: Task)
    requires Extends(w, w') && TaskOk(w, task)
    ensures TaskOk(w', task)
  {
    if task.CodeMark? {
      VouchedGrows(w.db, w'.db, task.codeHash, task.grant);
    } else if Vouches(task).Some? {
      VouchedGrows(w.db, w'.db, Vouches(task).value.0, Vouches(task).value.1);
    }
  }

  /* ---------- store operations grow the state ---------- */

  lemma SaveCodeGrows(db: PubAuthState, row: AuthorizationCode)
    requires forall c :: c in db.authorizationCodes ==> c.codeHash != row.codeHash
    ensures Grows(db, SaveCode(db, row))
  {
    GrowsReflexive(db);
    forall c | c in db.authorizationCodes ensures CodeKept(c, SaveCode(db, row).authorizationCodes) {
      assert c in SaveCode(db, row).authorizationCodes && SameCode(c, c);
    }
  }

  lemma MarkUsedGrows(db: PubAuthState, hash: string, now: Millis)
    ensures Grows(db, MarkUsed(db, hash, now))
  {
    GrowsReflexive(db);
    MarkedMembers(db, hash, now);
    forall c | c in db.authorizationCodes ensures CodeKept(c, MarkUsed(db, hash, now).authorizationCodes) {
      var c' := if c.codeHash == hash then c.(usedAt := Some(now)) else c;
      assert c' in MarkUsed(db, hash, now).authorizationCodes && SameCode(c, c');
    }
  }

  lemma SaveRefreshGrows(db: PubAuthState, row: RefreshToken)
    requires forall r :: r in db.refreshTokens && r.refreshTokenHash == row.refreshTokenHash ==>
                           GrantOfRefresh(r) == GrantOfRefresh(row) && row.revokedAt.Some?
    ensures Grows(db, SaveRefreshRow(db, row))
  {
    GrowsReflexive(db);
    var rows' := SaveRefreshRow(db, row).refreshTokens;
    forall r | r in db.refreshTokens ensures RefreshKept(r, rows') {
      var r' := if r.refreshTokenHash == row.refreshTokenHash then row else r;
      assert r' in rows' && SameRefresh(r, r');
    }
  }

  lemma RevokeFamilyGrows(db: PubAuthState, familyId: string, now: Millis)
    ensures Grows(db, db.(refreshTokens := RevokeFamily(db.refreshTokens, familyId, now)))
  {
    GrowsReflexive(db);
    RevokedMembers(db.refreshTokens, familyId, now);
    var rows' := RevokeFamily(db.refreshTokens, familyId, now);
    forall r | r in db.refreshTokens ensures RefreshKept(r, rows') {
      var r' := if r.familyId == familyId then Revoke(r, now) else r;
      assert r' in rows' && SameRefresh(r, r');
    }
  }

  lemma SaveAccessGrows(db: PubAuthState, row: AccessToken)
    requires forall a :: a in db.accessTokens ==> a.accessToken != row.accessToken
    ensures Grows(db, SaveAccess(db, row))
  {
    GrowsReflexive(db);
  }

  lemma SaveSessionGrows(db: PubAuthState, session: AuthSession)
    requires forall x :: x in db.sessions ==> x.id != session.id
    ensures Grows(db, SaveSession(db, session))
  {
    GrowsReflexive(db);
    forall x | x in db.sessions ensures SessionKept(x, SaveSession(db, session).sessions) {
      assert x in SaveSession(db, session).sessions && SameSession(x, x);
    }
  }

  lemma RevokedSessionMembers(db: PubAuthState, id: string, now: Millis)
    ensures forall x :: x in RevokeSession(db, id, now).sessions <==>
                        exists o :: o in db.sessions && x == if o.id == id then o.(revokedAt := Some(now)) else o
  {
    var rows, rows' := db.sessions, RevokeSession(db, id, now).sessions;
    forall o | o in rows ensures (if o.id == id then o.(revokedAt := Some(now)) else o) in rows' {
      var i :| 0 <= i < |rows| && rows[i] == o;
      assert rows'[i] in rows';
    }
  }

  lemma RevokedSessionKept(db: PubAuthState, id: string, now: Millis, x: AuthSession)
    requires x in db.sessions
    ensures SessionKept(x, RevokeSession(db, id, now).sessions)
  {
    RevokedSessionMembers(db, id, now);
    var x' := if x.id == id then x.(revokedAt := Some(now)) else x;
    assert x' in RevokeSession(db, id, now).sessions && SameSession(x, x');
  }

  lemma RevokeSessionGrows(db: PubAuthState, id: string, now: Millis)
    ensures Grows(db, RevokeSession(db, id, now))
  {
    GrowsReflexive(db);
    forall x | x in db.sessions ensures SessionKept(x, RevokeSession(db, id, now).sessions) {
      RevokedSessionKept(db, id, now, x);
    }
  }

  /* ---------- every step keeps the invariant ---------- */

  lemma OneGrantPerOrigin(w: World, origin: string, a: Grant, b: Grant)
    requires CodesOk(w) && Vouched(w.db, origin, a) && Vouched(w.db, origin, b)
    ensures a == b
  {
  }

  /** What the invariant says about the request that moves. */
  ghost predicate MoverOk(p: Platform, w: World, task: Task, input: Input) {
    && TaskOk(w, task)
    && (Pending(task).Some? ==> NotSaved(w, Pending(task).value))
    && (Draws(task) ==> p.sha256Hex(input.secret) !in w.drawn)
    && (task.IssueAccess? ==> input.accessToken !in w.accessOrigin)
  }

  lemma RotationGrows(w: World, token: RefreshToken, origin: string, now: Millis, nextHash: string)
    requires CodesOk(w) && RefreshOk(w) && Vouched(w.db, origin, GrantOfRefresh(token))
    requires token.refreshTokenHash in w.refreshOrigin && w.refreshOrigin[token.refreshTokenHash] == origin
    ensures Grows(w.db, SaveRefreshRow(w.db, RotatedRow(token, now, nextHash)))
  {
    forall r | r in w.db.refreshTokens && r.refreshTokenHash == token.refreshTokenHash
      ensures GrantOfRefresh(r) == GrantOfRefresh(token)
    {
      OneGrantPerOrigin(w, origin, GrantOfRefresh(r), GrantOfRefresh(token));
    }
    SaveRefreshGrows(w.db, RotatedRow(token, now, nextHash));
  }

  lemma NewRowGrows(w: World, row: RefreshToken)
    requires RefreshOk(w) && row.refreshTokenHash !in w.refreshOrigin
    ensures Grows(w.db, SaveRefreshRow(w.db, row))
  {
    SaveRefreshGrows(w.db, row);
  }

  lemma NewCodeGrows(w: World, row: AuthorizationCode)
    requires NotSaved(w, row.codeHash)
    ensures Grows(w.db, SaveCode(w.db, row))
  {
    SaveCodeGrows(w.db, row);
  }

  lemma NewAccessGrows(w: World, row: AccessToken)
    requires AccessOk(w) && row.accessToken !in w.accessOrigin
    ensures Grows(w.db, SaveAccess(w.db, row))
  {
    SaveAccessGrows(w.db, row);
  }

  lemma RotateEffectGrows(p: Platform, w: World, task: Task, input: Input)
    requires CodesOk(w) && RefreshOk(w) && task.RefreshRotate? && TaskOk(w, task)
    ensures Grows(w.db, Effect(p, w.db, task, input))
  {
    RotateEffect(p, w.db, task, input);
    RotationGrows(w, task.token, task.origin, task.now, p.sha256Hex(input.secret));
  }

  lemma RotateEffect(p: Platform, db: PubAuthState, task: Task, input: Input)
    requires task.RefreshRotate?
    ensures Effect(p, db, task, input) == SaveRefreshRow(db, RotatedRow(task.token, task.now, p.sha256Hex(input.secret)))
  {
  }

  lemma NewRowEffectGrows(p: Platform, w: World, task: Task, input: Input)
    requires RefreshOk(w) && (task.RefreshChain? || task.IssueRefresh?)
    requires Written(p, task, input).value.refreshTokenHash !in w.refreshOrigin
    ensures Grows(w.db, Effect(p, w.db, task, input))
  {
    NewRowEffect(p, w.db, task, input);
    NewRowGrows(w, Written(p, task, input).value);
  }

  lemma NewRowEffect(p: Platform, db: PubAuthState, task: Task, input: Input)
    requires task.RefreshChain? || task.IssueRefresh?
    ensures Effect(p, db, task, input) == SaveRefreshRow(db, Written(p, task, input).value)
  {
  }

  lemma SaveCodeEffectGrows(p: Platform, w: World, task: Task, input: Input)
    requires task.AuthorizeSave? && NotSaved(w, task.row.codeHash)
    ensures Grows(w.db, Effect(p, w.db, task, input))
  {
    NewCodeGrows(w, task.row);
  }

  lemma SaveAccessEffectGrows(p: Platform, w: World, task: Task, input: Input)
    requires AccessOk(w) && task.IssueAccess? && input.accessToken !in w.accessOrigin
    ensures Grows(w.db, Effect(p, w.db, task, input))
  {
    SaveAccessEffect(p, w.db, task, input);
    NewAccessGrows(w, AccessRow(task.grant, input.accessToken, input.jti, input.now));
  }

  lemma SaveAccessEffect(p: Platform, db: PubAuthState, task: Task, input: Input)
    requires task.IssueAccess?
    ensures Effect(p, db, task, input) == SaveAccess(db, AccessRow(task.grant, input.accessToken, input.jti, input.now))
  {
  }

  lemma MapEffectGrows(p: Platform, db: PubAuthState, task: Task, input: Input)
    requires task.CodeMark? || task.FamilyRevoke?
    ensures Grows(db, Effect(p, db, task, input))
  {
    if task.CodeMark? {
      MarkUsedGrows(db, task.codeHash, input.now);
    } else {
      RevokeFamilyGrows(db, task.familyId, task.now);
    }
  }

  lemma NewHashIsUnused(p: Platform, w: World, task: Task, input: Input)
    requires RefreshOk(w) && MoverOk(p, w, task, input) && (task.RefreshChain? || task.IssueRefresh?)
    ensures Written(p, task, input).value.refreshTokenHash !in w.refreshOrigin
  {
  }

  lemma RefreshEffectGrows(p: Platform, w: World, task: Task, input: Input)
    requires CodesOk(w) && RefreshOk(w) && MoverOk(p, w, task, input)
    requires task.RefreshRotate? || task.RefreshChain? || task.IssueRefresh?
    ensures Grows(w.db, Effect(p, w.db, task, input))
  {
    if task.RefreshRotate? {
      RotateEffectGrows(p, w, task, input);
    } else {
      NewHashIsUnused(p, w, task, input);
      NewRowEffectGrows(p, w, task, input);
    }
  }

  lemma OtherEffectGrows(p: Platform, w: World, task: Task, input: Input)
    requires AccessOk(w) && MoverOk(p, w, task, input)
    requires !task.RefreshRotate? && !task.RefreshChain? && !task.IssueRefresh?
    ensures Grows(w.db, Effect(p, w.db, task, input))
  {
    if task.AuthorizeSave? {
      SaveCodeEffectGrows(p, w, task, input);
    } else if task.IssueAccess? {
      SaveAccessEffectGrows(p, w, task, input);
    } else if task.CodeMark? || task.FamilyRevoke? {
      MapEffectGrows(p, w.db, task, input);
    } else {
      GrowsReflexive(w.db);
    }
  }

  lemma EffectGrows(p: Platform, w: World, task: Task, input: Input)
    requires CodesOk(w) && RefreshOk(w) && AccessOk(w) && MoverOk(p, w, task, input)
    ensures Grows(w.db, Effect(p, w.db, task, input))
  {
    if task.RefreshRotate? || task.RefreshChain? || task.IssueRefresh? {
      RefreshEffectGrows(p, w, task, input);
    } else {
      OtherEffectGrows(p, w, task, input);
    }
  }

  lemma MoverIsOk(p: Platform, w: World, i: nat, input: Input)
    requires TasksOk(w) && PendingOk(w) && Permitted(p, w, Proceed(i, input))
    ensures MoverOk(p, w, w.tasks[i], input)
  {
  }

  lemma AdvanceExtends(p: Platform, w: World, i: nat, input: Input)
    requires WorldInv(w) && Permitted(p, w, Proceed(i, input))
    ensures Extends(w, Advance(p, w, i, input))
  {
    MoverIsOk(p, w, i, input);
    EffectGrows(p, w, w.tasks[i], input);
  }

  ghost predicate CodeAmong(codes: seq<AuthorizationCode>, c: AuthorizationCode) {
    exists o :: o in codes && o.codeHash == c.codeHash && CodeOf(o) == CodeOf(c)
  }

  lemma MarkedCodeAmong(db: PubAuthState, hash: string, now: Millis, c: AuthorizationCode)
    requires c in MarkUsed(db, hash, now).authorizationCodes
    ensures CodeAmong(db.authorizationCodes, c)
  {
    MarkedMembers(db, hash, now);
    var o :| o in db.authorizationCodes && c == if o.codeHash == hash then o.(usedAt := Some(now)) else o;
    assert o.codeHash == c.codeHash && CodeOf(o) == CodeOf(c);
  }

  lemma MarkKeepsCodeTable(db: PubAuthState, drawn: set<string>, hash: string, now: Millis)
    requires CodeTableOk(db.authorizationCodes, drawn)
    ensures CodeTableOk(MarkUsed(db, hash, now).authorizationCodes, drawn)
  {
    forall c | c in MarkUsed(db, hash, now).authorizationCodes
      ensures CodeAmong(db.authorizationCodes, c)
    {
      MarkedCodeAmong(db, hash, now, c);
    }
  }

  lemma SaveKeepsCodeTable(db: PubAuthState, drawn: set<string>, row: AuthorizationCode)
    requires CodeTableOk(db.authorizationCodes, drawn) && row.codeHash in drawn
    ensures CodeTableOk(SaveCode(db, row).authorizationCodes, drawn)
  {
  }

  lemma AdvanceKeepsCodes(p: Platform, w: World, i: nat, input: Input)
    requires CodesOk(w) && i < |w.tasks| && MoverOk(p, w, w.tasks[i], input)
    ensures CodesOk(Advance(p, w, i, input))
  {
    match w.tasks[i]
    case CodeMark(codeHash, _) => MarkKeepsCodeTable(w.db, w.drawn, codeHash, input.now);
    case AuthorizeSave(row) => SaveKeepsCodeTable(w.db, w.drawn, row);
    case _ => OtherStepsKeepCodes(p, w.db, w.tasks[i], input);
  }

  lemma OtherStepsKeepCodes(p: Platform, db: PubAuthState, task: Task, input: Input)
    requires !task.CodeMark? && !task.AuthorizeSave?
    ensures Effect(p, db, task, input).authorizationCodes == db.authorizationCodes
  {
  }

  lemma AccessRowOk(p: Platform, w: World, task: Task, input: Input, db': PubAuthState, row: AccessToken)
    requires AccessOk(w) && MoverOk(p, w, task, input) && Grows(w.db, db')
    requires row in w.db.accessTokens || (task.IssueAccess? && row == AccessRow(task.grant, input.accessToken, input.jti, input.now))
    ensures var origins := NextAccessOrigin(w.accessOrigin, task, input);
            row.accessToken in origins && Vouched(db', origins[row.accessToken], GrantOfAccess(row))
  {
    if row in w.db.accessTokens {
      VouchedGrows(w.db, db', w.accessOrigin[row.accessToken], GrantOfAccess(row));
    } else {
      VouchedGrows(w.db, db', task.origin, task.grant);
    }
  }

  lemma AdvanceKeepsAccess(p: Platform, w: World, i: nat, input: Input)
    requires AccessOk(w) && i < |w.tasks| && MoverOk(p, w, w.tasks[i], input)
    requires Grows(w.db, Advance(p, w, i, input).db)
    ensures AccessOk(Advance(p, w, i, input))
  {
    var w', task := Advance(p, w, i, input), w.tasks[i];
    forall a | a in w'.db.accessTokens
      ensures a.accessToken in w'.accessOrigin && Vouched(w'.db, w'.accessOrigin[a.accessToken], GrantOfAccess(a))
    {
      assert a in w.db.accessTokens || (task.IssueAccess? && a == AccessRow(task.grant, input.accessToken, input.jti, input.now));
      AccessRowOk(p, w, task, input, w'.db, a);
    }
  }

  /** The refresh row that a step writes, if it writes one. */
  function Written(p: Platform, task: Task, input: Input): Option<RefreshToken> {
    match task
    case RefreshRotate(token, now, _) => Some(RotatedRow(token, now, p.sha256Hex(input.secret)))
    case RefreshChain(token, nextHash, issuedAt, _) => Some(SuccessorRow(token, nextHash, issuedAt))
    case IssueRefresh(grant, _) => Some(FreshRow(grant, p.sha256Hex(input.secret), input.familyId, input.now))
    case _ => None
  }

  ghost predicate HasRefresh(db: PubAuthState, hash: string, grant: Grant) {
    exists o :: o in db.refreshTokens && o.refreshTokenHash == hash && GrantOfRefresh(o) == grant
  }

  lemma WrittenRows(p: Platform, db: PubAuthState, task: Task, input: Input)
    ensures forall r :: r in Effect(p, db, task, input).refreshTokens ==>
                          Written(p, task, input) == Some(r) || HasRefresh(db, r.refreshTokenHash, GrantOfRefresh(r))
  {
    match task
    case FamilyRevoke(familyId, now) => RevokedMembers(db.refreshTokens, familyId, now);
    case _ =>
  }

  lemma WrittenOk(p: Platform, w: World, task: Task, input: Input, db': PubAuthState, row: RefreshToken)
    requires MoverOk(p, w, task, input) && Written(p, task, input) == Some(row) && Grows(w.db, db')
    ensures var origins := NextRefreshOrigin(p, w.refreshOrigin, task, input);
            row.refreshTokenHash in origins && Vouched(db', origins[row.refreshTokenHash], GrantOfRefresh(row))
  {
    VouchedGrows(w.db, db', task.origin, GrantOfRefresh(row));
  }

  lemma CarriedOk(p: Platform, w: World, task: Task, input: Input, db': PubAuthState, row: RefreshToken)
    requires RefreshOk(w) && MoverOk(p, w, task, input) && Grows(w.db, db')
    requires HasRefresh(w.db, row.refreshTokenHash, GrantOfRefresh(row))
    ensures var origins := NextRefreshOrigin(p, w.refreshOrigin, task, input);
            row.refreshTokenHash in origins && Vouched(db', origins[row.refreshTokenHash], GrantOfRefresh(row))
  {
    VouchedGrows(w.db, db', w.refreshOrigin[row.refreshTokenHash], GrantOfRefresh(row));
  }

  lemma AdvanceKeepsRefresh(p: Platform, w: World, i: nat, input: Input)
    requires RefreshOk(w) && i < |w.tasks| && MoverOk(p, w, w.tasks[i], input)
    requires Grows(w.db, Advance(p, w, i, input).db)
    ensures RefreshOk(Advance(p, w, i, input))
  {
    var w', task := Advance(p, w, i, input), w.tasks[i];
    WrittenRows(p, w.db, task, input);
    forall r | r in w'.db.refreshTokens
      ensures r.refreshTokenHash in w'.refreshOrigin && Vouched(w'.db, w'.refreshOrigin[r.refreshTokenHash], GrantOfRefresh(r))
    {
      if Written(p, task, input) == Some(r) {
        WrittenOk(p, w, task, input, w'.db, r);
      } else {
        CarriedOk(p, w, task, input, w'.db, r);
      }
    }
  }

  lemma StaysUnsaved(p: Platform, w: World, i: nat, input: Input, hash: string)
    requires i < |w.tasks| && MoverOk(p, w, w.tasks[i], input) && NotSaved(w, hash) && Pending(w.tasks[i]) != Some(hash)
    ensures NotSaved(Advance(p, w, i, input), hash)
    ensures Pending(NextTask(p, w, w.tasks[i], input)) != Some(hash)
  {
    CodesStayUnsaved(p, w.db, w.tasks[i], input, hash);
  }

  lemma CodesStayUnsaved(p: Platform, db: PubAuthState, task: Task, input: Input, hash: string)
    requires (forall c :: c in db.authorizationCodes ==> c.codeHash != hash) && Pending(task) != Some(hash)
    ensures forall c :: c in Effect(p, db, task, input).authorizationCodes ==> c.codeHash != hash
  {
    if task.CodeMark? {
      MarkedMembers(db, task.codeHash, input.now);
    }
  }

  lemma NewPendingUnsaved(p: Platform, w: World, i: nat, input: Input)
    requires CodesOk(w) && RefreshOk(w) && i < |w.tasks| && MoverOk(p, w, w.tasks[i], input)
    requires Pending(NextTask(p, w, w.tasks[i], input)).Some?
    ensures NotSaved(Advance(p, w, i, input), Pending(NextTask(p, w, w.tasks[i], input)).value)
  {
  }

  lemma AdvanceKeepsPending(p: Platform, w: World, i: nat, input: Input)
    requires WorldInv(w) && i < |w.tasks| && MoverOk(p, w, w.tasks[i], input)
    ensures PendingOk(Advance(p, w, i, input))
  {
    var w' := Advance(p, w, i, input);
    if Pending(w'.tasks[i]).Some? {
      NewPendingUnsaved(p, w, i, input);
    }
    forall j | 0 <= j < |w.tasks| && j != i && Pending(w.tasks[j]).Some?
      ensures NotSaved(w', Pending(w.tasks[j]).value) && Pending(w'.tasks[i]) != Pending(w.tasks[j])
    {
      assert Pending(w.tasks[j]) != Pending(w.tasks[i]);
      StaysUnsaved(p, w, i, input, Pending(w.tasks[j]).value);
    }
  }

  lemma MarkVouches(db: PubAuthState, codeHash: string, grant: Grant, now: Millis)
    requires Known(db, codeHash, grant)
    ensures Vouched(MarkUsed(db, codeHash, now), codeHash, grant)
  {
    MarkedMembers(db, codeHash, now);
    var c :| c in db.authorizationCodes && c.codeHash == codeHash && CodeOf(c) == grant;
    assert CodeOf(c.(usedAt := Some(now))) == grant;
    assert c.(usedAt := Some(now)) in MarkUsed(db, codeHash, now).authorizationCodes;
  }

  /** After a step that only reads, the new task is fine in the same world. */
  lemma ReadTaskOk(p: Platform, w: World, task: Task, input: Input)
    requires RefreshOk(w) && TaskOk(w, task) && (task.CodeFind? || task.RefreshFind?)
    ensures TaskOk(w, NextTask(p, w, task, input))
  {
    if task.CodeFind? {
      var code := CheckCode(p, w.db, task.req, input.now);
      if code.Ok? {
        assert Known(w.db, code.value.codeHash, CodeOf(code.value));
      }
    }
  }

  /** A request past its code or token carries the same grant into its next step. */
  lemma CarriedGrantOk(p: Platform, w: World, task: Task, input: Input, w': World)
    requires TaskOk(w, task) && Vouches(task).Some? && Grows(w.db, w'.db)
    ensures TaskOk(w', NextTask(p, w, task, input))
  {
    VouchedGrows(w.db, w'.db, Vouches(task).value.0, Vouches(task).value.1);
    var next := NextTask(p, w, task, input);
    assert Vouches(next).Some? ==> Vouches(next) == Vouches(task);
  }

  /** The new task is fine in any world that keeps what this one recorded. */
  lemma NextTaskOk(p: Platform, w: World, task: Task, input: Input, w': World)
    requires RefreshOk(w) && MoverOk(p, w, task, input)
    requires Extends(w, w') && w'.db == Effect(p, w.db, task, input)
    ensures TaskOk(w', NextTask(p, w, task, input))
  {
    if task.CodeFind? || task.RefreshFind? {
      ReadTaskOk(p, w, task, input);
      TaskOkExtends(w, w', NextTask(p, w, task, input));
    } else if task.CodeMark? {
      MarkedTaskOk(p, w, task, input, w');
    } else if Vouches(task).Some? {
      CarriedGrantOk(p, w, task, input, w');
    } else {
      PlainTaskOk(p, w, task, input, w');
    }
  }

  lemma MarkedTaskOk(p: Platform, w: World, task: Task, input: Input, w': World)
    requires task.CodeMark? && TaskOk(w, task) && w'.db == MarkUsed(w.db, task.codeHash, input.now)
    ensures TaskOk(w', NextTask(p, w, task, input))
  {
    MarkVouches(w.db, task.codeHash, task.grant, input.now);
  }

  lemma PlainTaskOk(p: Platform, w: World, task: Task, input: Input, w': World)
    requires !task.CodeFind? && !task.RefreshFind? && !task.CodeMark? && Vouches(task).None?
    ensures TaskOk(w', NextTask(p, w, task, input))
  {
    var next := NextTask(p, w, task, input);
    assert Vouches(next).None? && !next.CodeMark? && !next.RefreshRotate? && !next.IssueAccess?;
  }

  lemma AdvanceKeepsTasks(p: Platform, w: World, i: nat, input: Input)
    requires RefreshOk(w) && TasksOk(w) && i < |w.tasks| && MoverOk(p, w, w.tasks[i], input)
    requires Extends(w, Advance(p, w, i, input))
    ensures TasksOk(Advance(p, w, i, input))
  {
    var w' := Advance(p, w, i, input);
    NextTaskOk(p, w, w.tasks[i], input, w');
    forall j | 0 <= j < |w.tasks| && j != i
      ensures TaskOk(w', w.tasks[j])
    {
      TaskOkExtends(w, w', w.tasks[j]);
    }
  }

  lemma OtherMoveExtends(p: Platform, w: World, move: Move)
    requires Permitted(p, w, move) && !move.Proceed?
    ensures Extends(w, Do(p, w, move))
  {
    GrowsReflexive(w.db);
    match move
    case NewSession(session) => SaveSessionGrows(w.db, session);
    case EndSession(sessionId, now) => RevokeSessionGrows(w.db, sessionId, now);
    case _ =>
  }

  lemma OtherMoveKeepsInv(p: Platform, w: World, move: Move)
    requires WorldInv(w) && Permitted(p, w, move) && !move.Proceed?
    ensures WorldInv(Do(p, w, move))
  {
    var w' := Do(p, w, move);
    OtherMoveExtends(p, w, move);
    forall j | 0 <= j < |w.tasks|
      ensures TaskOk(w', w.tasks[j])
    {
      TaskOkExtends(w, w', w.tasks[j]);
    }
    forall a | a in w.db.accessTokens
      ensures Vouched(w'.db, w.accessOrigin[a.accessToken], GrantOfAccess(a))
    {
      VouchedGrows(w.db, w'.db, w.accessOrigin[a.accessToken], GrantOfAccess(a));
    }
    forall r | r in w.db.refreshTokens
      ensures Vouched(w'.db, w.refreshOrigin[r.refreshTokenHash], GrantOfRefresh(r))
    {
      VouchedGrows(w.db, w'.db, w.refreshOrigin[r.refreshTokenHash], GrantOfRefresh(r));
    }
    forall j | 0 <= j < |w.tasks| && Pending(w.tasks[j]).Some?
      ensures NotSaved(w', Pending(w.tasks[j]).value)
    {
      assert NotSaved(w, Pending(w.tasks[j]).value);
    }
  }

  lemma MoveKeepsInv(p: Platform, w: World, move: Move)
    requires WorldInv(w) && Permitted(p, w, move)
    ensures WorldInv(Do(p, w, move)) && Extends(w, Do(p, w, move))
  {
    if move.Proceed? {
      MoverIsOk(p, w, move.i, move.input);
      AdvanceExtends(p, w, move.i, move.input);
      AdvanceKeepsCodes(p, w, move.i, move.input);
      AdvanceKeepsAccess(p, w, move.i, move.input);
      AdvanceKeepsRefresh(p, w, move.i, move.input);
      AdvanceKeepsPending(p, w, move.i, move.input);
      AdvanceKeepsTasks(p, w, move.i, move.input);
    } else {
      OtherMoveExtends(p, w, move);
      OtherMoveKeepsInv(p, w, move);
    }
  }

  lemma WorldInvAt(p: Platform, worlds: seq<World>, moves: seq<Move>, k: nat)
    requires Steps(p, worlds, moves) && k < |worlds|
    ensures WorldInv(worlds[k])
  {
    forall j | 0 <= j < |worlds| - 1 && WorldInv(worlds[j])
      ensures WorldInv(worlds[j + 1])
    {
      MoveKeepsInv(p, worlds[j], moves[j]);
    }
    Kept(worlds, WorldInv, 0, k);
  }

  /* ---------- main results ---------- */

  /**
   * No step, in any interleaving, drops a row, changes whom it speaks for, or clears a `usedAt` or
   * `revokedAt`.
   */
  lemma FlagsStaySet(p: Platform, worlds: seq<World>, moves: seq<Move>, i: nat, k: nat)
    requires Sound(p) && Execution(p, worlds, moves) && i <= k < |worlds|
    ensures Grows(worlds[i].db, worlds[k].db)
  {
    ExecutionSteps(p, worlds, moves);
    GrowsFrom(p, worlds, moves, i, k);
  }

  lemma GrowsNext(p: Platform, worlds: seq<World>, moves: seq<Move>, k: nat)
    requires Steps(p, worlds, moves) && k < |moves|
    ensures Grows(worlds[k].db, worlds[k + 1].db)
  {
    WorldInvAt(p, worlds, moves, k);
    MoveKeepsInv(p, worlds[k], moves[k]);
  }

  lemma {:induction false} GrowsFrom(p: Platform, worlds: seq<World>, moves: seq<Move>, i: nat, k: nat)
    requires Steps(p, worlds, moves) && i <= k < |worlds|
    ensures Grows(worlds[i].db, worlds[k].db)
  {
    if i == k {
      GrowsReflexive(worlds[i].db);
    } else {
      var n := k - 1;
      GrowsFrom(p, worlds, moves, i, n);
      var before, middle, after := worlds[i].db, worlds[n].db, worlds[k].db;
      GrowsNext(p, worlds, moves, n);
      GrowsTransitive(before, middle, after);
    }
  }

  /**
   * In this world this move passes all checks of an authorization request for a code with this hash
   * and grant; the client is active and allows the scopes.
   */
  ghost predicate Approves(p: Platform, w: World, move: Move, hash: string, grant: Grant) {
    && move.Proceed? && move.i < |w.tasks| && w.tasks[move.i].AuthorizeLookup?
    && var request := w.tasks[move.i].request;
    var scopes := CheckAuthorize(w.db, request);
    && scopes.Ok?
    && p.sha256Hex(move.input.secret) == hash
    && grant == Grant(request.clientId, request.subjectId, request.workspaceId, request.sessionId, scopes.value)
    && FindClient(w.db, grant.clientId).Some?
    && ScopesAllowed(FindClient(w.db, grant.clientId).value, grant.scopes)
  }

  ghost predicate Approved(p: Platform, worlds: seq<World>, moves: seq<Move>, n: nat, hash: string, grant: Grant)
    requires n <= |moves| < |worlds|
  {
    exists k :: 0 <= k < n && Approves(p, worlds[k], moves[k], hash, grant)
  }

  ghost predicate AllApproved(p: Platform, worlds: seq<World>, moves: seq<Move>, n: nat)
    requires n <= |moves| < |worlds|
  {
    && (forall c :: c in worlds[n].db.authorizationCodes ==> Approved(p, worlds, moves, n, c.codeHash, CodeOf(c)))
    && (forall i :: 0 <= i < |worlds[n].tasks| && worlds[n].tasks[i].AuthorizeSave? ==>
          var row := worlds[n].tasks[i].row;
          Approved(p, worlds, moves, n, row.codeHash, CodeOf(row)))
  }

  /** A code row after a step is an old one, or the one that the step saved. */
  lemma CodesAfter(p: Platform, db: PubAuthState, task: Task, input: Input, c: AuthorizationCode)
    requires c in Effect(p, db, task, input).authorizationCodes
    ensures (task.AuthorizeSave? && c == task.row)
            || exists o :: o in db.authorizationCodes && o.codeHash == c.codeHash && CodeOf(o) == CodeOf(c)
  {
    match task
    case CodeMark(codeHash, _) => MarkedMembers(db, codeHash, input.now);
    case AuthorizeSave(row) => assert CodeOf(c) == CodeOf(c);
    case _ => assert CodeOf(c) == CodeOf(c);
  }

  lemma ApprovalStep(p: Platform, worlds: seq<World>, moves: seq<Move>, n: nat)
    requires Steps(p, worlds, moves) && n < |moves| && AllApproved(p, worlds, moves, n)
    ensures AllApproved(p, worlds, moves, n + 1)
  {
    var w, w', move := worlds[n], worlds[n + 1], moves[n];
    forall c | c in w'.db.authorizationCodes
      ensures Approved(p, worlds, moves, n + 1, c.codeHash, CodeOf(c))
    {
      if move.Proceed? {
        CodesAfter(p, w.db, w.tasks[move.i], move.input, c);
      }
      assert Approved(p, worlds, moves, n, c.codeHash, CodeOf(c));
    }
    forall i | 0 <= i < |w'.tasks| && w'.tasks[i].AuthorizeSave?
      ensures Approved(p, worlds, moves, n + 1, w'.tasks[i].row.codeHash, CodeOf(w'.tasks[i].row))
    {
      if move.Proceed? && move.i == i {
        assert Approves(p, w, move, w'.tasks[i].row.codeHash, CodeOf(w'.tasks[i].row));
      } else {
        assert w'.tasks[i] == w.tasks[i];
      }
    }
  }

  lemma {:induction false} ApprovalsAt(p: Platform, worlds: seq<World>, moves: seq<Move>, n: nat)
    requires Steps(p, worlds, moves) && n <= |moves|
    ensures AllApproved(p, worlds, moves, n)
  {
    if n > 0 {
      ApprovalsAt(p, worlds, moves, n - 1);
      ApprovalStep(p, worlds, moves, n - 1);
    }
  }

  /**
   * Provenance, in any interleaving: every access and refresh token row agrees on client, subject,
   * workspace, session and scopes with a stored, used code, and that code's grant passed an earlier
   * authorization check, by a then active client that allowed its scopes.
   */
  lemma Provenance(p: Platform, worlds: seq<World>, moves: seq<Move>, k: nat)
    requires Sound(p) && Execution(p, worlds, moves) && k < |worlds|
    ensures var w := worlds[k];
            && (forall a :: a in w.db.accessTokens ==>
                  a.accessToken in w.accessOrigin
                  && Vouched(w.db, w.accessOrigin[a.accessToken], GrantOfAccess(a))
                  && Approved(p, worlds, moves, k, w.accessOrigin[a.accessToken], GrantOfAccess(a)))
            && (forall r :: r in w.db.refreshTokens ==>
                  r.refreshTokenHash in w.refreshOrigin
                  && Vouched(w.db, w.refreshOrigin[r.refreshTokenHash], GrantOfRefresh(r))
                  && Approved(p, worlds, moves, k, w.refreshOrigin[r.refreshTokenHash], GrantOfRefresh(r)))
  {
    ExecutionSteps(p, worlds, moves);
    WorldInvAt(p, worlds, moves, k);
    ApprovalsAt(p, worlds, moves, k);
  }

  /* ---------- logout ---------- */

  ghost predicate LoggedOut(db: PubAuthState, sessionId: string) {
    && (exists x :: x in db.sessions && x.id == sessionId)
    && (forall x :: x in db.sessions && x.id == sessionId ==> x.revokedAt.Some?)
  }

  lemma RevokingLogsOut(db: PubAuthState, sessionId: string, other: string, now: Millis)
    requires exists x :: x in db.sessions && x.id == sessionId
    requires other == sessionId || LoggedOut(db, sessionId)
    ensures LoggedOut(RevokeSession(db, other, now), sessionId)
  {
    RevokedSessionMembers(db, other, now);
    var x :| x in db.sessions && x.id == sessionId;
    assert (if x.id == other then x.(revokedAt := Some(now)) else x) in RevokeSession(db, other, now).sessions;
  }

  lemma MoveKeepsLoggedOut(p: Platform, w: World, move: Move, sessionId: string)
    requires Permitted(p, w, move) && LoggedOut(w.db, sessionId)
    ensures LoggedOut(Do(p, w, move).db, sessionId)
  {
    match move
    case EndSession(other, now) => RevokingLogsOut(w.db, sessionId, other, now);
    case NewSession(session) =>
      var x :| x in w.db.sessions && x.id == sessionId;
      assert x in Do(p, w, move).db.sessions;
    case _ => assert Do(p, w, move).db.sessions == w.db.sessions;
  }

  lemma LoggedOutFrom(p: Platform, worlds: seq<World>, moves: seq<Move>, i: nat, k: nat, sessionId: string)
    requires Steps(p, worlds, moves) && i <= k < |worlds| && LoggedOut(worlds[i].db, sessionId)
    ensures LoggedOut(worlds[k].db, sessionId)
  {
    var inv := (w: World) => LoggedOut(w.db, sessionId);
    forall j | i <= j < |worlds| - 1 && inv(worlds[j])
      ensures inv(worlds[j + 1])
    {
      MoveKeepsLoggedOut(p, worlds[j], moves[j], sessionId);
    }
    Kept(worlds, inv, i, k);
  }

  lemma RejectedWithoutSession(p: Platform, s: PubAuthState, service: KeyService, issuer: string, token: string,
                               now: Millis, sessionId: string)
    requires LoggedOut(s, sessionId) && sessionId != ""
    requires forall a :: a in s.accessTokens && a.accessToken == token ==> a.sessionId == Some(sessionId)
    ensures VerifyBearer(p, s, service, issuer, token, now).None?
    ensures GetUserInfo(p, s, service, issuer, token, now).Err?
  {
    assert !SessionLive(FindSession(s, sessionId), now);
  }

  /**
   * After a session has been logged out, every access token that descends from a code bound to it,
   * through however many refreshes and whether issued before or after, is rejected by the gateway
   * and by UserInfo in every later state of every interleaving.
   */
  lemma LogoutIsFinal(p: Platform, worlds: seq<World>, moves: seq<Move>, i: nat, k: nat, sessionId: string, token: string,
                      code: AuthorizationCode, service: KeyService, issuer: string, now: Millis)
    requires Sound(p) && Execution(p, worlds, moves) && i < k < |worlds|
    requires moves[i].EndSession? && moves[i].sessionId == sessionId && sessionId != ""
    requires exists x :: x in worlds[i].db.sessions && x.id == sessionId
    requires code in worlds[k].db.authorizationCodes && code.sessionId == Some(sessionId)
    requires token in worlds[k].accessOrigin && worlds[k].accessOrigin[token] == code.codeHash
    ensures VerifyBearer(p, worlds[k].db, service, issuer, token, now).None?
    ensures GetUserInfo(p, worlds[k].db, service, issuer, token, now).Err?
  {
    ExecutionSteps(p, worlds, moves);
    RevokingLogsOut(worlds[i].db, sessionId, sessionId, moves[i].now);
    LoggedOutFrom(p, worlds, moves, i + 1, k, sessionId);
    WorldInvAt(p, worlds, moves, k);
    var w := worlds[k];
    forall a | a in w.db.accessTokens && a.accessToken == token
      ensures a.sessionId == Some(sessionId)
    {
      var c :| c in w.db.authorizationCodes && c.codeHash == w.accessOrigin[token] && CodeOf(c) == GrantOfAccess(a);
      assert CodeOf(c) == CodeOf(code);
    }
    RejectedWithoutSession(p, w.db, service, issuer, token, now, sessionId);
  }

  /* ---------- completeness ---------- */

  ghost predicate Recorded(w: World, row: AccessToken) {
    row.accessToken in w.accessOrigin && Lookup(w.db.accessTokens, AccessKey, row.accessToken) == Some(row)
  }

  lemma MoveKeepsRecord(p: Platform, w: World, move: Move, row: AccessToken)
    requires Permitted(p, w, move) && Recorded(w, row)
    ensures Recorded(Do(p, w, move), row)
  {
    if move.Proceed? && w.tasks[move.i].IssueAccess? {
      var input, task := move.input, w.tasks[move.i];
      LookupUpsert(w.db.accessTokens, AccessKey, AccessRow(task.grant, input.accessToken, input.jti, input.now), row.accessToken);
    } else {
      assert Do(p, w, move).db.accessTokens == w.db.accessTokens;
    }
  }

  lemma RecordedFrom(p: Platform, worlds: seq<World>, moves: seq<Move>, i: nat, k: nat, row: AccessToken)
    requires Steps(p, worlds, moves) && i <= k < |worlds| && Recorded(worlds[i], row)
    ensures Recorded(worlds[k], row)
  {
    var inv := (w: World) => Recorded(w, row);
    forall j | i <= j < |worlds| - 1 && inv(worlds[j])
      ensures inv(worlds[j + 1])
    {
      MoveKeepsRecord(p, worlds[j], moves[j], row);
    }
    Kept(worlds, inv, i, k);
  }

  lemma NewRecord(p: Platform, w: World, j: nat, input: Input)
    requires j < |w.tasks| && w.tasks[j].IssueAccess?
    ensures Recorded(Advance(p, w, j, input), AccessRow(w.tasks[j].grant, input.accessToken, input.jti, input.now))
  {
    var row := AccessRow(w.tasks[j].grant, input.accessToken, input.jti, input.now);
    LookupUpsert(w.db.accessTokens, AccessKey, row, input.accessToken);
  }

  /**
   * An access token saved by move `i` is accepted by both checks, with its subject, workspace and
   * roles, in every later state `k` of every interleaving, at every time before its JWT expires, by
   * every key service that trusted the signing key and reloaded any number of listings none of which
   * disabled or dropped it, while its session (if any) is live.
   */
  lemma IssuedTokenStaysAccepted(p: Platform, worlds: seq<World>, moves: seq<Move>, i: nat, k: nat, signer: Signer,
                                 signedAt: Millis,
                                 service: KeyService, listings: seq<seq<SigningKey>>, now: Millis)
    requires Sound(p) && Execution(p, worlds, moves) && i < k < |worlds|
    requires moves[i].Proceed? && worlds[i].tasks[moves[i].i].IssueAccess?
    requires CanSign(signer) && p.isKeyPair(KeyOf(signer).privateKey, KeyOf(signer).publicKey)
    requires var task, input := worlds[i].tasks[moves[i].i], moves[i].input;
             && input.accessToken == SignPayload(p, KeyOf(signer), AccessPayload(signer.issuer, task.grant, input.jti, task.roles, signedAt))
             && task.grant.clientId != "" && task.grant.subjectId != "" && task.grant.workspaceId != ""
             && 0 < signedAt <= input.now
             && (Truthy(task.grant.sessionId) ==> SessionLive(FindSession(worlds[k].db, task.grant.sessionId.value), now))
    requires now < (Seconds(signedAt) + ACCESS_SECONDS) * 1000
    requires Trusts(service, KeyOf(signer).keyId, KeyOf(signer).publicKey)
    requires forall l :: 0 <= l < |listings| ==> listings[l] == [] || Lists(listings[l], KeyOf(signer).keyId, KeyOf(signer).publicKey)
    ensures var task, token := worlds[i].tasks[moves[i].i], moves[i].input.accessToken;
            var reloaded := ReloadedAll(service, listings);
            && VerifyBearer(p, worlds[k].db, reloaded, signer.issuer, token, now)
               == Some(Principal(task.grant.subjectId, task.grant.workspaceId, task.roles, []))
            && GetUserInfo(p, worlds[k].db, reloaded, signer.issuer, token, now)
               == Ok(UserInfo(task.grant.subjectId, Some(task.grant.workspaceId), Some(task.roles), Some([])))
  {
    var task, input := worlds[i].tasks[moves[i].i], moves[i].input;
    ExecutionSteps(p, worlds, moves);
    WorldInvAt(p, worlds, moves, i);
    assert TaskOk(worlds[i], task);
    NewRecord(p, worlds[i], moves[i].i, input);
    RecordedFrom(p, worlds, moves, i + 1, k, AccessRow(task.grant, input.accessToken, input.jti, input.now));
    ReloadsKeepTrust(service, listings, KeyOf(signer).keyId, KeyOf(signer).publicKey);
    IssuedTokenAccepted(p, worlds[k].db, ReloadedAll(service, listings), signer, task.grant, input.jti, task.roles, signedAt, input.now, now);
  }

  /* ---------- a request that runs alone ---------- */

  /** The steps of request `i`, one per input, with nothing in between. */
  function Solo(p: Platform, w: World, i: nat, inputs: seq<Input>): (w': World)
    requires i < |w.tasks|
    ensures |w'.tasks| == |w.tasks|
    decreases |inputs|
  {
    if inputs == [] then w else Solo(p, Advance(p, w, i, inputs[0]), i, inputs[1..])
  }

  lemma {:induction false} SoloAppend(p: Platform, w: World, i: nat, a: seq<Input>, b: seq<Input>)
    requires i < |w.tasks|
    ensures Solo(p, w, i, a + b) == Solo(p, Solo(p, w, i, a), i, b)
    decreases |a|
  {
    if a == [] {
      assert a + b == b;
    } else {
      assert (a + b)[1..] == a[1..] + b;
      SoloAppend(p, Advance(p, w, i, a[0]), i, a[1..], b);
    }
  }

  lemma SoloOne(p: Platform, w: World, i: nat, a: Input)
    requires i < |w.tasks|
    ensures Solo(p, w, i, [a]) == Advance(p, w, i, a)
  {
    assert [a][1..] == [];
  }

  lemma SoloThree(p: Platform, w: World, i: nat, a: Input, b: Input, c: Input)
    requires i < |w.tasks|
    ensures Solo(p, w, i, [a, b, c]) == Advance(p, Advance(p, Advance(p, w, i, a), i, b), i, c)
  {
    var w1 := Advance(p, w, i, a);
    assert [a, b, c][1..] == [b, c] && [b, c][1..] == [c];
    SoloOne(p, Advance(p, w1, i, b), i, c);
  }

  lemma {:induction false} FinishedStays(p: Platform, w: World, i: nat, inputs: seq<Input>)
    requires i < |w.tasks| && w.tasks[i].Finished?
    ensures Solo(p, w, i, inputs).db == w.db && Solo(p, w, i, inputs).tasks[i] == w.tasks[i]
    decreases |inputs|
  {
    if inputs != [] {
      FinishedStays(p, Advance(p, w, i, inputs[0]), i, inputs[1..]);
    }
  }

  function IdleInput(now: Millis): Input {
    Input(now, "", "", "", "")
  }

  /** What issuing reads: the minted token, the id drawn for it, and the draws of the last row. */
  function IssueInputs(accessToken: string, draw: Draw, at: Times): seq<Input> {
    [IdleInput(at.save), Input(at.save, "", accessToken, draw.jti, ""), Input(at.refresh, draw.refreshToken, "", "", draw.familyId)]
  }

  lemma SoloIssue(p: Platform, w: World, i: nat, signer: Signer, draw: Draw, at: Times)
    requires i < |w.tasks| && w.tasks[i].IssueClaims? && CanSign(signer)
    ensures var (db, response) := IssueTokens(p, w.db, signer, w.tasks[i].grant, draw, at);
            var w' := Solo(p, w, i, IssueInputs(response.accessToken, draw, at));
            w'.db == db && w'.tasks[i] == Finished(true)
  {
    var inputs := IssueInputs(IssueTokens(p, w.db, signer, w.tasks[i].grant, draw, at).1.accessToken, draw, at);
    SoloThree(p, w, i, inputs[0], inputs[1], inputs[2]);
  }

  /** Run without interruption, the two steps of an authorization request do what it does as a whole. */
  lemma SoloAuthorize(p: Platform, w: World, i: nat, request: AuthorizationRequest, code: string, now: Millis, later: Millis)
    requires i < |w.tasks| && w.tasks[i] == AuthorizeLookup(request)
    ensures var (db, r) := Authorize(p, w.db, request, code, now);
            var w' := Solo(p, w, i, [IdleInput(now).(secret := code), IdleInput(later)]);
            w'.db == db && w'.tasks[i] == Finished(r.Ok?)
  {
    var a, b := IdleInput(now).(secret := code), IdleInput(later);
    assert [a, b][1..] == [b];
    SoloOne(p, Advance(p, w, i, a), i, b);
  }

  /** The inputs before issuing: look up the client, find the code, mark it used. */
  function ExchangeInputs(at: Times): seq<Input> {
    [IdleInput(at.find), IdleInput(at.find), IdleInput(at.mark)]
  }

  lemma SoloMark(p: Platform, w: World, i: nat, req: TokenRequest, at: Times)
    requires i < |w.tasks| && w.tasks[i] == ClientLookup(req) && req.grantType.CodeGrant?
    ensures var code := CheckCode(p, w.db, req, at.find);
            var w' := Solo(p, w, i, ExchangeInputs(at));
            if !ClientOk(p, w.db, req) || code.Err? then w'.db == w.db && w'.tasks[i] == Finished(false)
            else w'.db == MarkUsed(w.db, code.value.codeHash, at.mark) && w'.tasks[i] == IssueClaims(CodeOf(code.value), code.value.codeHash)
  {
    SoloThree(p, w, i, IdleInput(at.find), IdleInput(at.find), IdleInput(at.mark));
  }

  /** Run without interruption, the steps of a code exchange do what the request does as a whole. */
  lemma SoloExchange(p: Platform, w: World, i: nat, signer: Signer, req: TokenRequest, draw: Draw, at: Times)
    requires i < |w.tasks| && w.tasks[i] == ClientLookup(req) && CanSign(signer) && req.grantType.CodeGrant?
    ensures var (db, r) := IssueToken(p, w.db, signer, req, draw, at);
            var accessToken := if r.Ok? then r.value.accessToken else "";
            var w' := Solo(p, w, i, ExchangeInputs(at) + IssueInputs(accessToken, draw, at));
            w'.db == db && w'.tasks[i] == Finished(r.Ok?)
  {
    var r := IssueToken(p, w.db, signer, req, draw, at).1;
    var rest := IssueInputs(if r.Ok? then r.value.accessToken else "", draw, at);
    SoloAppend(p, w, i, ExchangeInputs(at), rest);
    SoloMark(p, w, i, req, at);
    var marked := Solo(p, w, i, ExchangeInputs(at));
    if marked.tasks[i].Finished? {
      FinishedStays(p, marked, i, rest);
    } else {
      SoloIssue(p, marked, i, signer, draw, at);
    }
  }

  /** Look up the client, find the token, rotate or revoke, chain the successor. */
  function RotationInputs(draw: Draw, at: Times): seq<Input> {
    [IdleInput(at.find), IdleInput(at.find), IdleInput(at.next).(secret := draw.nextRefreshToken)] + [IdleInput(at.next)]
  }

  /** What a refresh request does to the state before it issues, and the token it rotates, if any. */
  function RotationEffect(p: Platform, s: PubAuthState, req: TokenRequest, draw: Draw, at: Times): (PubAuthState,
                          Option<RefreshToken>) {
    if !ClientOk(p, s, req) || !Truthy(req.refreshToken) then (s, None)
    else
      var token := FindRefresh(s.refreshTokens, p.sha256Hex(req.refreshToken.value), at.find);
      if token.None? || token.value.clientId != req.clientId then (s, None)
      else if token.value.revokedAt.Some? || Truthy(token.value.replacedByHash) then
        (s.(refreshTokens := RevokeFamily(s.refreshTokens, token.value.familyId, at.find)), None)
      else
        (s.(refreshTokens := Rotated(s.refreshTokens, token.value, at.find, p.sha256Hex(draw.nextRefreshToken), at.next)), token)
  }

  lemma SoloFind(p: Platform, w: World, i: nat, req: TokenRequest, now: Millis, rotation: Input)
    requires i < |w.tasks| && w.tasks[i] == ClientLookup(req) && req.grantType.RefreshGrant?
    ensures var token := if Truthy(req.refreshToken) then FindRefresh(w.db.refreshTokens, p.sha256Hex(req.refreshToken.value), now) else None;
            var w' := Solo(p, w, i, [IdleInput(now), IdleInput(now), rotation]);
            if !ClientOk(p, w.db, req) || token.None? || token.value.clientId != req.clientId then
              w'.db == w.db && w'.tasks[i] == Finished(false)
            else if token.value.revokedAt.Some? || Truthy(token.value.replacedByHash) then
              w'.db == w.db.(refreshTokens := RevokeFamily(w.db.refreshTokens, token.value.familyId, now)) && w'.tasks[i] == Finished(false)
            else
              && w'.db == SaveRefreshRow(w.db, RotatedRow(token.value, now, p.sha256Hex(rotation.secret)))
              && w'.tasks[i].RefreshChain?
              && w'.tasks[i].token == token.value
              && w'.tasks[i].nextHash == p.sha256Hex(rotation.secret)
              && w'.tasks[i].issuedAt == rotation.now
  {
    var a, looked := IdleInput(now), Advance(p, w, i, IdleInput(now));
    SoloThree(p, w, i, a, a, rotation);
    assert looked.db == w.db && looked.tasks[i] == if ClientOk(p, w.db, req) then RefreshFind(req) else Finished(false);
    if ClientOk(p, w.db, req) {
      FindThenRotate(p, looked, i, req, now, rotation);
    }
  }

  lemma FindThenRotate(p: Platform, w: World, i: nat, req: TokenRequest, now: Millis, rotation: Input)
    requires i < |w.tasks| && w.tasks[i] == RefreshFind(req)
    ensures var token := if Truthy(req.refreshToken) then FindRefresh(w.db.refreshTokens, p.sha256Hex(req.refreshToken.value), now) else None;
            var w' := Advance(p, Advance(p, w, i, IdleInput(now)), i, rotation);
            if token.None? || token.value.clientId != req.clientId then w'.db == w.db && w'.tasks[i] == Finished(false)
            else if token.value.revokedAt.Some? || Truthy(token.value.replacedByHash) then
              w'.db == w.db.(refreshTokens := RevokeFamily(w.db.refreshTokens, token.value.familyId, now)) && w'.tasks[i] == Finished(false)
            else
              && w'.db == SaveRefreshRow(w.db, RotatedRow(token.value, now, p.sha256Hex(rotation.secret)))
              && w'.tasks[i].RefreshChain?
              && w'.tasks[i].token == token.value
              && w'.tasks[i].nextHash == p.sha256Hex(rotation.secret)
              && w'.tasks[i].issuedAt == rotation.now
  {
  }

  lemma SoloRotate(p: Platform, w: World, i: nat, req: TokenRequest, draw: Draw, at: Times)
    requires i < |w.tasks| && w.tasks[i] == ClientLookup(req) && req.grantType.RefreshGrant?
    ensures var (db, token) := RotationEffect(p, w.db, req, draw, at);
            var w' := Solo(p, w, i, RotationInputs(draw, at));
            && w'.db == db
            && (token.None? ==> w'.tasks[i] == Finished(false))
            && (token.Some? ==> w'.tasks[i].IssueClaims? && w'.tasks[i].grant == GrantOfRefresh(token.value))
  {
    var a, c, d := IdleInput(at.find), IdleInput(at.next).(secret := draw.nextRefreshToken), IdleInput(at.next);
    SoloAppend(p, w, i, [a, a, c], [d]);
    SoloFind(p, w, i, req, at.find, c);
    SoloOne(p, Solo(p, w, i, [a, a, c]), i, d);
  }

  lemma RefreshIsRotateThenIssue(p: Platform, s: PubAuthState, signer: Signer, req: TokenRequest, draw: Draw, at: Times)
    requires CanSign(signer) && req.grantType.RefreshGrant?
    ensures var (db, token) := RotationEffect(p, s, req, draw, at);
            var (db', r) := IssueToken(p, s, signer, req, draw, at);
            && (r.Ok? <==> token.Some?)
            && (token.None? ==> db' == db)
            && (token.Some? ==>
                  var (issued, response) := IssueTokens(p, db, signer, GrantOfRefresh(token.value), draw, at);
                  db' == issued && r.value.accessToken == response.accessToken)
  {
  }

  /** The same for a refresh request, whether it rotates, detects reuse, or is refused. */
  lemma SoloRefresh(p: Platform, w: World, i: nat, signer: Signer, req: TokenRequest, draw: Draw, at: Times)
    requires i < |w.tasks| && w.tasks[i] == ClientLookup(req) && CanSign(signer) && req.grantType.RefreshGrant?
    ensures var (db, r) := IssueToken(p, w.db, signer, req, draw, at);
            var accessToken := if r.Ok? then r.value.accessToken else "";
            var w' := Solo(p, w, i, RotationInputs(draw, at) + IssueInputs(accessToken, draw, at));
            w'.db == db && w'.tasks[i] == Finished(r.Ok?)
  {
    var r := IssueToken(p, w.db, signer, req, draw, at).1;
    var rest := IssueInputs(if r.Ok? then r.value.accessToken else "", draw, at);
    SoloAppend(p, w, i, RotationInputs(draw, at), rest);
    SoloRotate(p, w, i, req, draw, at);
    RefreshIsRotateThenIssue(p, w.db, signer, req, draw, at);
    var rotated := Solo(p, w, i, RotationInputs(draw, at));
    if rotated.tasks[i].Finished? {
      FinishedStays(p, rotated, i, rest);
    } else {
      SoloIssue(p, rotated, i, signer, draw, at);
    }
  }

  /* ---------- what overlapping requests lose ---------- */

  /** The steps that a request still has before it, once its code or token was found good. */
  function StepsLeft(task: Task): Option<nat> {
    match task
    case RefreshRotate(_, _, _) => Some(5)
    case RefreshChain(_, _, _, _) => Some(4)
    case CodeMark(_, _) => Some(4)
    case IssueClaims(_, _) => Some(3)
    case IssueAccess(_, _, _) => Some(2)
    case IssueRefresh(_, _) => Some(1)
    case Finished(ok) => if ok then Some(0) else None
    case _ => None
  }

  /** Nothing stops a request whose code or token was found good. */
  lemma OneStepLess(p: Platform, w: World, task: Task, input: Input)
    requires StepsLeft(task).Some? && StepsLeft(task).value > 0
    ensures StepsLeft(NextTask(p, w, task, input)) == Some(StepsLeft(task).value - 1)
  {
  }

  lemma {:induction false} FoundFinishes(p: Platform, w: World, i: nat, inputs: seq<Input>)
    requires i < |w.tasks| && StepsLeft(w.tasks[i]) == Some(|inputs|)
    ensures Solo(p, w, i, inputs).tasks == w.tasks[i := Finished(true)]
    decreases |inputs|
  {
    if inputs != [] {
      OneStepLess(p, w, w.tasks[i], inputs[0]);
      FoundFinishes(p, Advance(p, w, i, inputs[0]), i, inputs[1..]);
    }
  }

  /** The request finds its code usable, or its refresh token neither rotated nor revoked. */
  predicate FindsGood(p: Platform, db: PubAuthState, task: Task, now: Millis) {
    || (task.CodeFind? && CheckCode(p, db, task.req, now).Ok?)
    || (task.RefreshFind? && Truthy(task.req.refreshToken)
        && var token := FindRefresh(db.refreshTokens, p.sha256Hex(task.req.refreshToken.value), now);
           token.Some? && token.value.clientId == task.req.clientId && token.value.revokedAt.None? && !Truthy(token.value.replacedByHash))
  }

  lemma FindReads(p: Platform, w: World, i: nat, input: Input)
    requires i < |w.tasks| && FindsGood(p, w.db, w.tasks[i], input.now)
    ensures var next := NextTask(p, w, w.tasks[i], input);
            StepsLeft(next) == Some(if w.tasks[i].CodeFind? then 4 else 5)
            && Advance(p, w, i, input).db == w.db && Advance(p, w, i, input).tasks == w.tasks[i := next]
  {
  }

  /**
   * Single use and single rotation need requests that do not overlap: two requests that both find the
   * same code, or the same refresh token, before either marks it, both succeed.
   */
  lemma OverlapBothSucceed(p: Platform, w: World, i: nat, j: nat, a: Input, b: Input, first: seq<Input>, second: seq<Input>)
    requires i < |w.tasks| && j < |w.tasks| && i != j && w.tasks[i] == w.tasks[j]
    requires FindsGood(p, w.db, w.tasks[i], a.now) && FindsGood(p, w.db, w.tasks[j], b.now)
    requires |first| == |second| == if w.tasks[i].CodeFind? then 4 else 5
    ensures var found := Advance(p, Advance(p, w, i, a), j, b);
            var end := Solo(p, Solo(p, found, i, first), j, second);
            end.tasks[i] == Finished(true) && end.tasks[j] == Finished(true)
  {
    var one := Advance(p, w, i, a);
    FindReads(p, w, i, a);
    FindReads(p, one, j, b);
    var found := Advance(p, one, j, b);
    FoundFinishes(p, found, i, first);
    FoundFinishes(p, Solo(p, found, i, first), j, second);
  }
}
