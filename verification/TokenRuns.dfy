/** Whole runs of non-overlapping requests: refresh families, reuse detection, single-use codes. */
module TokenRuns {
  import opened Tables
  import opened Jwt
  import opened Model
  import opened Stores
  import opened TokenIssuer
  import opened Authorization

  /** One request, run from start to end. Random values and clock readings are part of the step. */
  datatype Step =
    | AuthorizeStep(request: AuthorizationRequest, code: string, now: Millis)
    | TokenStep(signer: Signer, req: TokenRequest, draw: Draw, at: Times)
    | LoginStep(username: string, password: string, isLocal: bool, sessionId: string, now: Millis)
    | SessionStep(session: AuthSession)
    | LogoutStep(sessionId: string, now: Millis)
    | OtherStep(next: PubAuthState)

  /** Some other service changed other tables. */
  ghost predicate KeepsTokens(s: PubAuthState, next: PubAuthState) {
    && next.authorizationCodes == s.authorizationCodes
    && next.accessTokens == s.accessTokens
    && next.refreshTokens == s.refreshTokens
    && next.sessions == s.sessions
  }

  ghost predicate FreshHash(rows: seq<RefreshToken>, hash: string) {
    forall r :: r in rows ==> r.refreshTokenHash != hash
  }

  ghost predicate FreshFamily(rows: seq<RefreshToken>, familyId: string) {
    forall r :: r in rows ==> r.familyId != familyId
  }

  /** The drawn secrets hash to values no row carries yet, and the family id is new. */
  ghost predicate FreshDraw(p: Platform, rows: seq<RefreshToken>, draw: Draw) {
    && FreshHash(rows, p.sha256Hex(draw.nextRefreshToken))
    && FreshHash(rows, p.sha256Hex(draw.refreshToken))
    && p.sha256Hex(draw.nextRefreshToken) != p.sha256Hex(draw.refreshToken)
    && FreshFamily(rows, draw.familyId)
  }

  ghost predicate FreshCode(s: PubAuthState, hash: string) {
    forall c :: c in s.authorizationCodes ==> c.codeHash != hash
  }

  ghost predicate Allowed(p: Platform, s: PubAuthState, step: Step) {
    match step
    case AuthorizeStep(_, code, _) => FreshCode(s, p.sha256Hex(code))
    case TokenStep(signer, _, draw, _) => CanSign(signer) && FreshDraw(p, s.refreshTokens, draw)
    case OtherStep(next) => KeepsTokens(s, next)
    case _ => true
  }

  function Apply(p: Platform, s: PubAuthState, step: Step): PubAuthState
    requires step.TokenStep? ==> CanSign(step.signer)
  {
    match step
    case AuthorizeStep(request, code, now) => Authorize(p, s, request, code, now).0
    case TokenStep(signer, req, draw, at) => IssueToken(p, s, signer, req, draw, at).0
    case LoginStep(username, password, isLocal, sessionId, now) => Login(p, s, username, password, isLocal, sessionId, now).0
    case SessionStep(session) => SaveSession(s, session)
    case LogoutStep(sessionId, now) => RevokeSession(s, sessionId, now)
    case OtherStep(next) => next
  }

  /** A property that every step of a list of states keeps holds from state `i` on. */
  lemma {:induction false} Kept<S>(states: seq<S>, inv: S -> bool, i: nat, k: nat)
    requires i <= k < |states| && inv(states[i])
    requires forall j :: i <= j < |states| - 1 && inv(states[j]) ==> inv(states[j + 1])
    ensures inv(states[k])
  {
    if i < k {
      Kept(states, inv, i, k - 1);
      assert k == (k - 1) + 1;
    }
  }

  /** A run: each state follows from the one before by an allowed step. */
  ghost predicate Run(p: Platform, states: seq<PubAuthState>, steps: seq<Step>) {
    && |states| == |steps| + 1
    && forall k :: 0 <= k < |steps| ==> Allowed(p, states[k], steps[k]) && states[k + 1] == Apply(p, states[k], steps[k])
  }

  function ResponseOf(p: Platform, s: PubAuthState, step: Step): Result<TokenResponse>
    requires step.TokenStep? && CanSign(step.signer)
  {
    IssueToken(p, s, step.signer, step.req, step.draw, step.at).1
  }

  /* ---------- refresh families are chains ---------- */

  ghost predicate Linked(parent: RefreshToken, child: RefreshToken) {
    && child.parentRefreshTokenHash == Some(parent.refreshTokenHash)
    && parent.replacedByHash == Some(child.refreshTokenHash)
    && parent.revokedAt.Some?
  }

  /** A duplicate-free list that starts without parent, links each row to the next, and ends unreplaced. */
  ghost predicate Links(chain: seq<RefreshToken>) {
    && chain != []
    && UniqueKeys(chain, RefreshKey)
    && chain[0].parentRefreshTokenHash.None?
    && (forall i :: 0 <= i < |chain| - 1 ==> Linked(chain[i], chain[i + 1]))
    && chain[|chain| - 1].replacedByHash.None?
  }

  /** `chain` lists exactly the rows of the family, each once, from the first to the tail. */
  ghost predicate FamilyChain(rows: seq<RefreshToken>, familyId: string, chain: seq<RefreshToken>) {
    Links(chain) && forall r :: r in chain <==> r in rows && r.familyId == familyId
  }

  ghost predicate Chained(rows: seq<RefreshToken>, familyId: string) {
    exists chain :: FamilyChain(rows, familyId, chain)
  }

  ghost predicate RefreshInv(rows: seq<RefreshToken>) {
    && UniqueKeys(rows, RefreshKey)
    && forall r :: r in rows ==> Chained(rows, r.familyId)
  }

  lemma OneRowPerHash(rows: seq<RefreshToken>, a: RefreshToken, b: RefreshToken)
    requires UniqueKeys(rows, RefreshKey) && a in rows && b in rows && a.refreshTokenHash == b.refreshTokenHash
    ensures a == b
  {
    var i :| 0 <= i < |rows| && rows[i] == a;
    var j :| 0 <= j < |rows| && rows[j] == b;
    assert i != j ==> RefreshKey(rows[i]) != RefreshKey(rows[j]);
  }

  /** Rows of other families carry their chains over. */
  lemma ChainSurvives(rows: seq<RefreshToken>, rows': seq<RefreshToken>, familyId: string)
    requires Chained(rows, familyId)
    requires forall r: RefreshToken :: r.familyId == familyId ==> (r in rows <==> r in rows')
    ensures Chained(rows', familyId)
  {
    var chain :| FamilyChain(rows, familyId, chain);
    assert FamilyChain(rows', familyId, chain);
  }

  lemma FreshFamilyKeepsInv(rows: seq<RefreshToken>, row: RefreshToken)
    requires RefreshInv(rows) && FreshHash(rows, row.refreshTokenHash) && FreshFamily(rows, row.familyId)
    requires row.parentRefreshTokenHash.None? && row.replacedByHash.None?
    ensures RefreshInv(SaveRefresh(rows, row))
  {
    var rows' := SaveRefresh(rows, row);
    UpsertUnique(rows, RefreshKey, row);
    forall r | r in rows'
      ensures Chained(rows', r.familyId)
    {
      if r == row {
        assert FamilyChain(rows', row.familyId, [row]);
      } else {
        ChainSurvives(rows, rows', r.familyId);
      }
    }
  }

  /** An unrevoked row is the tail of its chain. */
  lemma UnrevokedIsTail(rows: seq<RefreshToken>, token: RefreshToken, chain: seq<RefreshToken>)
    requires FamilyChain(rows, token.familyId, chain) && token in rows && token.revokedAt.None?
    ensures chain[|chain| - 1] == token
  {
    var i :| 0 <= i < |chain| && chain[i] == token;
    assert i < |chain| - 1 ==> Linked(chain[i], chain[i + 1]);
  }

  function Rotated(rows: seq<RefreshToken>, token: RefreshToken, now: Millis, nextHash: string,
                   savedAt: Millis): seq<RefreshToken> {
    SaveRefresh(SaveRefresh(rows, RotatedRow(token, now, nextHash)), SuccessorRow(token, nextHash, savedAt))
  }

  lemma RotatedMembers(rows: seq<RefreshToken>, token: RefreshToken, now: Millis, nextHash: string, savedAt: Millis)
    requires UniqueKeys(rows, RefreshKey) && token in rows && FreshHash(rows, nextHash)
    ensures forall r :: r in Rotated(rows, token, now, nextHash, savedAt) <==>
                        (r in rows && r != token) || r == RotatedRow(token, now, nextHash) || r == SuccessorRow(token, nextHash, savedAt)
  {
    forall r | r in rows && r.refreshTokenHash == token.refreshTokenHash
      ensures r == token
    {
      OneRowPerHash(rows, r, token);
    }
  }

  /** Rotating the tail lengthens the chain by one. */
  lemma ExtendLinks(chain: seq<RefreshToken>, now: Millis, nextHash: string, savedAt: Millis)
    requires Links(chain) && FreshHash(chain, nextHash)
    ensures var n := |chain| - 1;
            var token := chain[n];
            Links(chain[..n] + [RotatedRow(token, now, nextHash), SuccessorRow(token, nextHash, savedAt)])
  {
    var n := |chain| - 1;
    var token := chain[n];
    var next := chain[..n] + [RotatedRow(token, now, nextHash), SuccessorRow(token, nextHash, savedAt)];
    forall i | 0 <= i < |next| - 1
      ensures Linked(next[i], next[i + 1])
    {
      assert i < n ==> Linked(chain[i], chain[i + 1]);
    }
    assert forall i :: 0 <= i <= n ==> chain[i] in chain && RefreshKey(next[i]) == RefreshKey(chain[i]);
  }

  lemma RotatedChain(rows: seq<RefreshToken>, token: RefreshToken, now: Millis, nextHash: string, savedAt: Millis)
    requires RefreshInv(rows) && token in rows && token.revokedAt.None? && FreshHash(rows, nextHash)
    ensures Chained(Rotated(rows, token, now, nextHash, savedAt), token.familyId)
  {
    var rows' := Rotated(rows, token, now, nextHash, savedAt);
    var chain: seq<RefreshToken> :| FamilyChain(rows, token.familyId, chain);
    UnrevokedIsTail(rows, token, chain);
    ExtendLinks(chain, now, nextHash, savedAt);
    RotatedMembers(rows, token, now, nextHash, savedAt);
    var n := |chain| - 1;
    var next := chain[..n] + [RotatedRow(token, now, nextHash), SuccessorRow(token, nextHash, savedAt)];
    LastIsOnce(chain);
    assert forall r :: r in next <==> r in chain[..n] || r == RotatedRow(token, now, nextHash) || r == SuccessorRow(token, nextHash, savedAt);
    assert FamilyChain(rows', token.familyId, next);
  }

  lemma LastIsOnce(chain: seq<RefreshToken>)
    requires chain != [] && UniqueKeys(chain, RefreshKey)
    ensures forall r :: r in chain[..|chain| - 1] <==> r in chain && r != chain[|chain| - 1]
  {
    var n := |chain| - 1;
    assert chain == chain[..n] + [chain[n]];
    assert forall i :: 0 <= i < n ==> RefreshKey(chain[i]) != RefreshKey(chain[n]);
  }

  lemma RotationKeepsInv(rows: seq<RefreshToken>, token: RefreshToken, now: Millis, nextHash: string, savedAt: Millis)
    requires RefreshInv(rows) && token in rows && token.revokedAt.None? && FreshHash(rows, nextHash)
    ensures RefreshInv(Rotated(rows, token, now, nextHash, savedAt))
  {
    var rows' := Rotated(rows, token, now, nextHash, savedAt);
    UpsertUnique(rows, RefreshKey, RotatedRow(token, now, nextHash));
    UpsertUnique(SaveRefresh(rows, RotatedRow(token, now, nextHash)), RefreshKey, SuccessorRow(token, nextHash, savedAt));
    RotatedMembers(rows, token, now, nextHash, savedAt);
    forall r | r in rows'
      ensures Chained(rows', r.familyId)
    {
      if r.familyId == token.familyId {
        RotatedChain(rows, token, now, nextHash, savedAt);
      } else {
        ChainSurvives(rows, rows', r.familyId);
      }
    }
  }

  lemma RevokedMembers(rows: seq<RefreshToken>, familyId: string, now: Millis)
    ensures forall r :: r in RevokeFamily(rows, familyId, now) <==>
                        exists o :: o in rows && r == if o.familyId == familyId then Revoke(o, now) else o
  {
    var rows' := RevokeFamily(rows, familyId, now);
    forall o | o in rows
      ensures (if o.familyId == familyId then Revoke(o, now) else o) in rows'
    {
      var i :| 0 <= i < |rows| && rows[i] == o;
      assert rows'[i] in rows';
    }
  }

  function RevokeEach(rows: seq<RefreshToken>, now: Millis): seq<RefreshToken> {
    MapRows(rows, (o: RefreshToken) => Revoke(o, now))
  }

  lemma RevokeLinks(chain: seq<RefreshToken>, now: Millis)
    requires Links(chain)
    ensures Links(RevokeEach(chain, now))
  {
    var next := RevokeEach(chain, now);
    assert forall i :: 0 <= i < |chain| ==> RefreshKey(next[i]) == RefreshKey(chain[i]);
    assert forall i :: 0 <= i < |chain| - 1 ==> Linked(chain[i], chain[i + 1]);
  }

  lemma RevokedChain(rows: seq<RefreshToken>, familyId: string, now: Millis)
    requires Chained(rows, familyId)
    ensures Chained(RevokeFamily(rows, familyId, now), familyId)
  {
    var rows' := RevokeFamily(rows, familyId, now);
    RevokedMembers(rows, familyId, now);
    var chain: seq<RefreshToken> :| FamilyChain(rows, familyId, chain);
    var next := RevokeEach(chain, now);
    RevokeLinks(chain, now);
    forall x
      ensures x in next <==> x in rows' && x.familyId == familyId
    {
      if x in rows' && x.familyId == familyId {
        var o :| o in rows && x == if o.familyId == familyId then Revoke(o, now) else o;
        assert o in chain;
        var i :| 0 <= i < |chain| && chain[i] == o;
        assert next[i] == x;
      }
    }
    assert FamilyChain(rows', familyId, next);
  }

  lemma RevocationKeepsInv(rows: seq<RefreshToken>, familyId: string, now: Millis)
    requires RefreshInv(rows)
    ensures RefreshInv(RevokeFamily(rows, familyId, now))
  {
    var rows' := RevokeFamily(rows, familyId, now);
    RevokedMembers(rows, familyId, now);
    assert forall i :: 0 <= i < |rows| ==> RefreshKey(rows'[i]) == RefreshKey(rows[i]);
    forall r | r in rows'
      ensures Chained(rows', r.familyId)
    {
      if r.familyId == familyId {
        RevokedChain(rows, familyId, now);
      } else {
        ChainSurvives(rows, rows', r.familyId);
      }
    }
  }

  /** The refresh rows one token request leaves. */
  function RefreshEffect(p: Platform, s: PubAuthState, step: Step): seq<RefreshToken>
    requires step.TokenStep?
  {
    var rows, req, draw, at := s.refreshTokens, step.req, step.draw, step.at;
    if !ClientOk(p, s, req) then rows
    else if req.grantType.CodeGrant? then
      var code := CheckCode(p, s, req, at.find);
      if code.Err? then rows
      else SaveRefresh(rows, FreshRow(CodeOf(code.value), p.sha256Hex(draw.refreshToken), draw.familyId, at.refresh))
    else if req.grantType.RefreshGrant? && Truthy(req.refreshToken) then
      var token := FindRefresh(rows, p.sha256Hex(req.refreshToken.value), at.find);
      if token.None? || token.value.clientId != req.clientId then rows
      else if token.value.revokedAt.Some? || Truthy(token.value.replacedByHash) then RevokeFamily(rows, token.value.familyId, at.find)
      else
        SaveRefresh(Rotated(rows, token.value, at.find, p.sha256Hex(draw.nextRefreshToken), at.next),
                    FreshRow(GrantOfRefresh(token.value), p.sha256Hex(draw.refreshToken), draw.familyId, at.refresh))
    else rows
  }

  lemma TokenStepEffect(p: Platform, s: PubAuthState, step: Step)
    requires step.TokenStep? && CanSign(step.signer)
    ensures Apply(p, s, step).refreshTokens == RefreshEffect(p, s, step)
  {
  }

  lemma OtherStepEffect(p: Platform, s: PubAuthState, step: Step)
    requires Allowed(p, s, step) && !step.TokenStep?
    ensures Apply(p, s, step).refreshTokens == s.refreshTokens
  {
  }

  lemma RotationAndFreshKeepInv(rows: seq<RefreshToken>, token: RefreshToken, now: Millis, nextHash: string,
                                savedAt: Millis, row: RefreshToken)
    requires RefreshInv(rows) && token in rows && token.revokedAt.None?
    requires FreshHash(rows, nextHash) && FreshHash(rows, row.refreshTokenHash) && nextHash != row.refreshTokenHash
    requires FreshFamily(rows, row.familyId) && row.parentRefreshTokenHash.None? && row.replacedByHash.None?
    ensures RefreshInv(SaveRefresh(Rotated(rows, token, now, nextHash, savedAt), row))
  {
    RotationKeepsInv(rows, token, now, nextHash, savedAt);
    RotatedMembers(rows, token, now, nextHash, savedAt);
    FreshFamilyKeepsInv(Rotated(rows, token, now, nextHash, savedAt), row);
  }

  lemma TokenStepKeepsInv(p: Platform, s: PubAuthState, step: Step)
    requires RefreshInv(s.refreshTokens) && Allowed(p, s, step) && step.TokenStep?
    ensures RefreshInv(RefreshEffect(p, s, step))
  {
    var rows, req, draw, at := s.refreshTokens, step.req, step.draw, step.at;
    if ClientOk(p, s, req) && req.grantType.CodeGrant? {
      var code := CheckCode(p, s, req, at.find);
      if code.Ok? {
        FreshFamilyKeepsInv(rows, FreshRow(CodeOf(code.value), p.sha256Hex(draw.refreshToken), draw.familyId, at.refresh));
      }
    } else if ClientOk(p, s, req) && req.grantType.RefreshGrant? && Truthy(req.refreshToken) {
      var token := FindRefresh(rows, p.sha256Hex(req.refreshToken.value), at.find);
      if token.Some? && token.value.clientId == req.clientId {
        if token.value.revokedAt.Some? || Truthy(token.value.replacedByHash) {
          RevocationKeepsInv(rows, token.value.familyId, at.find);
        } else {
          RotationAndFreshKeepInv(rows, token.value, at.find, p.sha256Hex(draw.nextRefreshToken), at.next,
                                  FreshRow(GrantOfRefresh(token.value), p.sha256Hex(draw.refreshToken), draw.familyId, at.refresh));
        }
      }
    }
  }

  lemma StepKeepsInv(p: Platform, s: PubAuthState, step: Step)
    requires RefreshInv(s.refreshTokens) && Allowed(p, s, step)
    ensures RefreshInv(Apply(p, s, step).refreshTokens)
  {
    if step.TokenStep? {
      TokenStepEffect(p, s, step);
      TokenStepKeepsInv(p, s, step);
    } else {
      OtherStepEffect(p, s, step);
    }
  }

  lemma {:induction false} InvAt(p: Platform, states: seq<PubAuthState>, steps: seq<Step>, k: nat)
    requires Run(p, states, steps) && RefreshInv(states[0].refreshTokens) && k < |states|
    ensures RefreshInv(states[k].refreshTokens)
  {
    if k > 0 {
      InvAt(p, states, steps, k - 1);
      StepKeepsInv(p, states[k - 1], steps[k - 1]);
    }
  }

  /**
   * In every state of every run that starts without refresh tokens, the rows of each family form one
   * chain: every child's parent is in the family, revoked, and names the child; at most one row of
   * the family is unrevoked, and only the tail can be.
   */
  lemma FamiliesAreChains(p: Platform, states: seq<PubAuthState>, steps: seq<Step>, k: nat)
    requires Run(p, states, steps) && states[0].refreshTokens == [] && k < |states|
    ensures var rows := states[k].refreshTokens;
            && (forall r :: r in rows ==> Chained(rows, r.familyId))
            && (forall c :: c in rows && c.parentRefreshTokenHash.Some? ==>
                  exists r :: r in rows && r.familyId == c.familyId && Linked(r, c))
            && (forall a, b :: a in rows && b in rows && a.familyId == b.familyId && a.revokedAt.None? && b.revokedAt.None? ==> a == b)
  {
    InvAt(p, states, steps, k);
    var rows := states[k].refreshTokens;
    forall c | c in rows && c.parentRefreshTokenHash.Some?
      ensures exists r :: r in rows && r.familyId == c.familyId && Linked(r, c)
    {
      var chain: seq<RefreshToken> :| FamilyChain(rows, c.familyId, chain);
      var i :| 0 <= i < |chain| && chain[i] == c;
      assert i > 0;
      assert chain[i - 1] in chain && Linked(chain[i - 1], chain[i - 1 + 1]);
    }
    forall a, b | a in rows && b in rows && a.familyId == b.familyId && a.revokedAt.None? && b.revokedAt.None?
      ensures a == b
    {
      var chain: seq<RefreshToken> :| FamilyChain(rows, a.familyId, chain);
      UnrevokedIsTail(rows, a, chain);
      UnrevokedIsTail(rows, b, chain);
    }
  }

  /* ---------- reuse detection is final ---------- */

  /** The family has rows and all of them are revoked. */
  ghost predicate Dead(rows: seq<RefreshToken>, familyId: string) {
    && (exists r :: r in rows && r.familyId == familyId)
    && (forall r :: r in rows && r.familyId == familyId ==> r.revokedAt.Some?)
  }

  lemma SavedElsewhere(rows: seq<RefreshToken>, row: RefreshToken, familyId: string)
    requires Dead(rows, familyId) && FreshHash(rows, row.refreshTokenHash) && row.familyId != familyId
    ensures Dead(SaveRefresh(rows, row), familyId)
  {
    var r :| r in rows && r.familyId == familyId;
    assert r in SaveRefresh(rows, row);
  }

  lemma RevokedElsewhere(rows: seq<RefreshToken>, other: string, now: Millis, familyId: string)
    requires Dead(rows, familyId)
    ensures Dead(RevokeFamily(rows, other, now), familyId)
  {
    RevokedMembers(rows, other, now);
    var r :| r in rows && r.familyId == familyId;
    assert (if r.familyId == other then Revoke(r, now) else r) in RevokeFamily(rows, other, now);
  }

  lemma RotatedElsewhere(rows: seq<RefreshToken>, token: RefreshToken, now: Millis, nextHash: string, savedAt: Millis,
                         familyId: string)
    requires UniqueKeys(rows, RefreshKey) && Dead(rows, familyId)
    requires token in rows && token.revokedAt.None? && FreshHash(rows, nextHash)
    ensures Dead(Rotated(rows, token, now, nextHash, savedAt), familyId)
  {
    RotatedMembers(rows, token, now, nextHash, savedAt);
    var r :| r in rows && r.familyId == familyId;
    assert r in Rotated(rows, token, now, nextHash, savedAt);
  }

  lemma RotatedAndFreshElsewhere(rows: seq<RefreshToken>, token: RefreshToken, now: Millis, nextHash: string,
                                 savedAt: Millis, row: RefreshToken, familyId: string)
    requires UniqueKeys(rows, RefreshKey) && Dead(rows, familyId)
    requires token in rows && token.revokedAt.None? && row.familyId != familyId
    requires FreshHash(rows, nextHash) && FreshHash(rows, row.refreshTokenHash) && nextHash != row.refreshTokenHash
    ensures Dead(SaveRefresh(Rotated(rows, token, now, nextHash, savedAt), row), familyId)
  {
    RotatedElsewhere(rows, token, now, nextHash, savedAt, familyId);
    RotatedMembers(rows, token, now, nextHash, savedAt);
    SavedElsewhere(Rotated(rows, token, now, nextHash, savedAt), row, familyId);
  }

  lemma DeadStaysDead(p: Platform, s: PubAuthState, step: Step, familyId: string)
    requires RefreshInv(s.refreshTokens) && Allowed(p, s, step) && Dead(s.refreshTokens, familyId)
    requires step.TokenStep?
    ensures Dead(RefreshEffect(p, s, step), familyId)
  {
    var rows, req, draw, at := s.refreshTokens, step.req, step.draw, step.at;
    if ClientOk(p, s, req) && req.grantType.CodeGrant? {
      var code := CheckCode(p, s, req, at.find);
      if code.Ok? {
        SavedElsewhere(rows, FreshRow(CodeOf(code.value), p.sha256Hex(draw.refreshToken), draw.familyId, at.refresh), familyId);
      }
    } else if ClientOk(p, s, req) && req.grantType.RefreshGrant? && Truthy(req.refreshToken) {
      var token := FindRefresh(rows, p.sha256Hex(req.refreshToken.value), at.find);
      if token.Some? && token.value.clientId == req.clientId {
        if token.value.revokedAt.Some? || Truthy(token.value.replacedByHash) {
          RevokedElsewhere(rows, token.value.familyId, at.find, familyId);
        } else {
          RotatedAndFreshElsewhere(rows, token.value, at.find, p.sha256Hex(draw.nextRefreshToken), at.next,
                                   FreshRow(GrantOfRefresh(token.value), p.sha256Hex(draw.refreshToken), draw.familyId, at.refresh), familyId);
        }
      }
    }
  }

  /** The stored row that a refresh request presents belongs to the family. */
  ghost predicate Presents(p: Platform, s: PubAuthState, step: Step, familyId: string) {
    && step.TokenStep?
    && step.req.grantType.RefreshGrant?
    && Truthy(step.req.refreshToken)
    && var row := Lookup(s.refreshTokens, RefreshKey, p.sha256Hex(step.req.refreshToken.value));
    row.Some? && row.value.familyId == familyId
  }

  /** A refresh token that was rotated or revoked is presented, unexpired, by its own authenticated client. */
  ghost predicate Reuse(p: Platform, s: PubAuthState, step: Step, familyId: string) {
    && Presents(p, s, step, familyId)
    && ClientOk(p, s, step.req)
    && var row := Lookup(s.refreshTokens, RefreshKey, p.sha256Hex(step.req.refreshToken.value)).value;
    && row.clientId == step.req.clientId
    && row.expiresAt > step.at.find
    && (row.revokedAt.Some? || Truthy(row.replacedByHash))
  }

  lemma DeadFrom(p: Platform, states: seq<PubAuthState>, steps: seq<Step>, i: nat, k: nat, familyId: string)
    requires Run(p, states, steps) && i <= k < |states|
    requires RefreshInv(states[i].refreshTokens) && Dead(states[i].refreshTokens, familyId)
    ensures Dead(states[k].refreshTokens, familyId)
  {
    var inv := (s: PubAuthState) => RefreshInv(s.refreshTokens) && Dead(s.refreshTokens, familyId);
    forall j | i <= j < |states| - 1 && inv(states[j])
      ensures inv(states[j + 1])
    {
      StepKeepsInv(p, states[j], steps[j]);
      if steps[j].TokenStep? {
        TokenStepEffect(p, states[j], steps[j]);
        DeadStaysDead(p, states[j], steps[j], familyId);
      } else {
        OtherStepEffect(p, states[j], steps[j]);
      }
    }
    Kept(states, inv, i, k);
  }

  lemma RevokedIsDead(rows: seq<RefreshToken>, row: RefreshToken, now: Millis)
    requires row in rows
    ensures Dead(RevokeFamily(rows, row.familyId, now), row.familyId)
  {
    RevokedMembers(rows, row.familyId, now);
    assert Revoke(row, now) in RevokeFamily(rows, row.familyId, now);
  }

  lemma ReuseKills(p: Platform, s: PubAuthState, step: Step, familyId: string)
    requires Allowed(p, s, step) && Reuse(p, s, step, familyId)
    ensures Dead(Apply(p, s, step).refreshTokens, familyId)
  {
    var row := Lookup(s.refreshTokens, RefreshKey, p.sha256Hex(step.req.refreshToken.value)).value;
    assert RefreshEffect(p, s, step) == RevokeFamily(s.refreshTokens, row.familyId, step.at.find);
    TokenStepEffect(p, s, step);
    RevokedIsDead(s.refreshTokens, row, step.at.find);
  }

  lemma ReuseFails(p: Platform, s: PubAuthState, step: Step, familyId: string)
    requires Allowed(p, s, step) && Reuse(p, s, step, familyId)
    ensures ResponseOf(p, s, step) == Err("invalid_grant")
  {
  }

  lemma DeadTokenFails(p: Platform, s: PubAuthState, step: Step, familyId: string)
    requires Allowed(p, s, step) && Presents(p, s, step, familyId) && Dead(s.refreshTokens, familyId)
    ensures ResponseOf(p, s, step).Err?
  {
  }

  /**
   * Once reuse is detected the request fails, every row of the family is revoked in every later
   * state, and no later request that presents a token of the family succeeds.
   */
  lemma ReuseIsFinal(p: Platform, states: seq<PubAuthState>, steps: seq<Step>, i: nat, familyId: string)
    requires Run(p, states, steps) && states[0].refreshTokens == [] && i < |steps|
    requires Reuse(p, states[i], steps[i], familyId)
    ensures ResponseOf(p, states[i], steps[i]) == Err("invalid_grant")
    ensures forall k :: i < k < |states| ==> Dead(states[k].refreshTokens, familyId)
    ensures forall k :: i < k < |steps| && Presents(p, states[k], steps[k], familyId) ==> ResponseOf(p, states[k], steps[k]).Err?
  {
    InvAt(p, states, steps, i + 1);
    ReuseKills(p, states[i], steps[i], familyId);
    ReuseFails(p, states[i], steps[i], familyId);
    forall k | i < k < |states|
      ensures Dead(states[k].refreshTokens, familyId)
    {
      DeadFrom(p, states, steps, i + 1, k, familyId);
    }
    forall k | i < k < |steps| && Presents(p, states[k], steps[k], familyId)
      ensures ResponseOf(p, states[k], steps[k]).Err?
    {
      DeadTokenFails(p, states[k], steps[k], familyId);
    }
  }

  /* ---------- codes are single use ---------- */

  /** The code exists and every row with its hash is used. */
  ghost predicate Spent(s: PubAuthState, hash: string) {
    && (exists c :: c in s.authorizationCodes && c.codeHash == hash)
    && (forall c :: c in s.authorizationCodes && c.codeHash == hash ==> c.usedAt.Some?)
  }

  lemma MarkedMembers(s: PubAuthState, hash: string, now: Millis)
    ensures forall c :: c in MarkUsed(s, hash, now).authorizationCodes <==>
                        exists o :: o in s.authorizationCodes && c == if o.codeHash == hash then o.(usedAt := Some(now)) else o
  {
    var rows, rows' := s.authorizationCodes, MarkUsed(s, hash, now).authorizationCodes;
    forall o | o in rows
      ensures (if o.codeHash == hash then o.(usedAt := Some(now)) else o) in rows'
    {
      var i :| 0 <= i < |rows| && rows[i] == o;
      assert rows'[i] in rows';
    }
  }

  lemma MarkingSpends(s: PubAuthState, hash: string, marked: string, now: Millis)
    requires hash == marked || Spent(s, hash)
    requires exists c :: c in s.authorizationCodes && c.codeHash == hash
    ensures Spent(MarkUsed(s, marked, now), hash)
  {
    MarkedMembers(s, marked, now);
    var c :| c in s.authorizationCodes && c.codeHash == hash;
    assert (if c.codeHash == marked then c.(usedAt := Some(now)) else c) in MarkUsed(s, marked, now).authorizationCodes;
  }

  lemma SpentStaysSpent(p: Platform, s: PubAuthState, step: Step, hash: string)
    requires Allowed(p, s, step) && Spent(s, hash)
    ensures Spent(Apply(p, s, step), hash)
  {
    match step
    case TokenStep(signer, req, draw, at) => TokenKeepsSpent(p, s, signer, req, draw, at, hash);
    case AuthorizeStep(request, code, now) => AuthorizeKeepsSpent(p, s, request, code, now, hash);
    case _ =>
  }

  lemma TokenKeepsSpent(p: Platform, s: PubAuthState, signer: Signer, req: TokenRequest, draw: Draw, at: Times, hash: string)
    requires CanSign(signer) && Spent(s, hash)
    ensures Spent(IssueToken(p, s, signer, req, draw, at).0, hash)
  {
    var code := CheckCode(p, s, req, at.find);
    if ClientOk(p, s, req) && req.grantType.CodeGrant? && code.Ok? {
      ExchangeMarks(p, s, signer, req, draw, at);
      MarkingSpends(s, hash, code.value.codeHash, at.mark);
    } else {
      OtherTokensKeepCodes(p, s, signer, req, draw, at);
    }
  }

  lemma ExchangeMarks(p: Platform, s: PubAuthState, signer: Signer, req: TokenRequest, draw: Draw, at: Times)
    requires CanSign(signer) && ClientOk(p, s, req) && req.grantType.CodeGrant? && CheckCode(p, s, req, at.find).Ok?
    ensures IssueToken(p, s, signer, req, draw, at).0.authorizationCodes
            == MarkUsed(s, CheckCode(p, s, req, at.find).value.codeHash, at.mark).authorizationCodes
  {
  }

  lemma OtherTokensKeepCodes(p: Platform, s: PubAuthState, signer: Signer, req: TokenRequest, draw: Draw, at: Times)
    requires CanSign(signer) && !(ClientOk(p, s, req) && req.grantType.CodeGrant? && CheckCode(p, s, req, at.find).Ok?)
    ensures IssueToken(p, s, signer, req, draw, at).0.authorizationCodes == s.authorizationCodes
  {
  }

  lemma AuthorizeKeepsSpent(p: Platform, s: PubAuthState, request: AuthorizationRequest, code: string, now: Millis,
                            hash: string)
    requires FreshCode(s, p.sha256Hex(code)) && Spent(s, hash)
    ensures Spent(Authorize(p, s, request, code, now).0, hash)
  {
    var c :| c in s.authorizationCodes && c.codeHash == hash;
    if CheckAuthorize(s, request).Ok? {
      assert c in Authorize(p, s, request, code, now).0.authorizationCodes;
    }
  }

  lemma SpentFrom(p: Platform, states: seq<PubAuthState>, steps: seq<Step>, i: nat, k: nat, hash: string)
    requires Run(p, states, steps) && i <= k < |states| && Spent(states[i], hash)
    ensures Spent(states[k], hash)
  {
    var inv := (s: PubAuthState) => Spent(s, hash);
    forall j | i <= j < |states| - 1 && inv(states[j])
      ensures inv(states[j + 1])
    {
      SpentStaysSpent(p, states[j], steps[j], hash);
    }
    Kept(states, inv, i, k);
  }

  /** Step `k` exchanges the code successfully. */
  ghost predicate Exchanges(p: Platform, s: PubAuthState, step: Step, code: string) {
    && step.TokenStep?
    && CanSign(step.signer)
    && step.req.grantType.CodeGrant?
    && step.req.code == Some(code)
    && ResponseOf(p, s, step).Ok?
  }

  /**
   * Over any run each code is exchanged at most once, and only by its own authenticated client,
   * before it expires, with a verifier whose S256 is the recorded challenge.
   */
  lemma CodesAreSingleUse(p: Platform, states: seq<PubAuthState>, steps: seq<Step>, code: string, i: nat)
    requires Run(p, states, steps) && i < |steps| && Exchanges(p, states[i], steps[i], code)
    ensures forall j :: 0 <= j < |steps| && j != i ==> !Exchanges(p, states[j], steps[j], code)
    ensures var req := steps[i].req;
            ClientOk(p, states[i], req)
            && exists row :: row in states[i].authorizationCodes
                 && row.codeHash == p.sha256Hex(code)
                 && row.usedAt.None?
                 && steps[i].at.find < row.expiresAt
                 && row.clientId == req.clientId
                 && (Truthy(req.redirectUri) ==> row.redirectUri == req.redirectUri.value)
                 && Truthy(req.codeVerifier)
                 && p.sha256Base64Url(req.codeVerifier.value) == row.codeChallenge
  {
    ExchangeIsChecked(p, states[i], steps[i], code);
    forall j | 0 <= j < |steps| && j != i
      ensures !Exchanges(p, states[j], steps[j], code)
    {
      if i < j {
        NoSecondExchange(p, states, steps, code, i, j);
      } else if Exchanges(p, states[j], steps[j], code) {
        NoSecondExchange(p, states, steps, code, j, i);
      }
    }
  }

  lemma NoSecondExchange(p: Platform, states: seq<PubAuthState>, steps: seq<Step>, code: string, i: nat, j: nat)
    requires Run(p, states, steps) && i < j < |steps| && Exchanges(p, states[i], steps[i], code)
    ensures !Exchanges(p, states[j], steps[j], code)
  {
    ExchangeSpends(p, states, steps, code, i);
    SpentFrom(p, states, steps, i + 1, j, p.sha256Hex(code));
    if Exchanges(p, states[j], steps[j], code) {
      ExchangeSpends(p, states, steps, code, j);
    }
  }

  lemma ExchangeIsChecked(p: Platform, s: PubAuthState, step: Step, code: string)
    requires Exchanges(p, s, step, code)
    ensures ClientOk(p, s, step.req) && CheckCode(p, s, step.req, step.at.find).Ok?
  {
  }

  lemma ExchangeSpends(p: Platform, states: seq<PubAuthState>, steps: seq<Step>, code: string, i: nat)
    requires Run(p, states, steps) && i < |steps| && Exchanges(p, states[i], steps[i], code)
    ensures !Spent(states[i], p.sha256Hex(code)) && Spent(states[i + 1], p.sha256Hex(code))
    ensures CheckCode(p, states[i], steps[i].req, steps[i].at.find).Ok?
  {
    ExchangeIsChecked(p, states[i], steps[i], code);
    var row := CheckCode(p, states[i], steps[i].req, steps[i].at.find).value;
    ExchangeMarks(p, states[i], steps[i].signer, steps[i].req, steps[i].draw, steps[i].at);
    MarkingSpends(states[i], row.codeHash, row.codeHash, steps[i].at.mark);
  }
}
