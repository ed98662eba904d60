/** What must succeed: codes, refresh tokens, sessions, clients and policies do what they were issued for, and only that. */
module Completeness {
  import opened Tables
  import opened Text
  import opened Jwt
  import opened Model
  import opened Stores
  import opened TokenIssuer
  import opened Authorization
  import opened TokenRuns
  import opened Acceptance
  import opened Catalog
  import opened Gateway

  /* ---------- codes ---------- */

  /** The request presents this code as it was issued: its client, its redirect URI, its verifier, in time. */
  predicate Presented(p: Platform, request: AuthorizationRequest, issuedAt: Millis, req: TokenRequest, now: Millis) {
    && Truthy(req.codeVerifier)
    && p.sha256Base64Url(req.codeVerifier.value) == request.codeChallenge
    && req.clientId == request.clientId
    && (Truthy(req.redirectUri) ==> req.redirectUri.value == request.redirectUri)
    && now < issuedAt + CODE_MILLIS
  }

  /** This step exchanges a code of this hash. */
  predicate ExchangesHash(p: Platform, s: PubAuthState, step: Step, hash: string) {
    && step.TokenStep? && CanSign(step.signer) && step.req.grantType.CodeGrant?
    && Truthy(step.req.code) && p.sha256Hex(step.req.code.value) == hash
    && ClientOk(p, s, step.req) && CheckCode(p, s, step.req, step.at.find).Ok?
  }

  ghost predicate ExchangedBetween(p: Platform, states: seq<PubAuthState>, steps: seq<Step>, i: nat, k: nat, hash: string)
    requires k <= |steps| < |states|
  {
    exists j :: i < j < k && ExchangesHash(p, states[j], steps[j], hash)
  }

  /** A stored code row changes only by being marked when it is exchanged. */
  lemma CodeAfterStep(p: Platform, s: PubAuthState, step: Step, hash: string)
    requires Allowed(p, s, step) && Lookup(s.authorizationCodes, CodeKey, hash).Some?
    ensures var code, next := Lookup(s.authorizationCodes, CodeKey, hash).value, Lookup(Apply(p, s, step).authorizationCodes, CodeKey, hash);
            next == Some(if ExchangesHash(p, s, step, hash) then code.(usedAt := Some(step.at.mark)) else code)
  {
    match step
    case TokenStep(signer, req, draw, at) => CodeAfterToken(p, s, signer, req, draw, at, hash);
    case AuthorizeStep(request, code, now) => CodeAfterAuthorize(p, s, request, code, now, hash);
    case _ =>
  }

  lemma CodeAfterAuthorize(p: Platform, s: PubAuthState, request: AuthorizationRequest, code: string, now: Millis,
                           hash: string)
    requires FreshCode(s, p.sha256Hex(code)) && Lookup(s.authorizationCodes, CodeKey, hash).Some?
    ensures Lookup(Authorize(p, s, request, code, now).0.authorizationCodes, CodeKey, hash) == Lookup(s.authorizationCodes, CodeKey, hash)
  {
    if CheckAuthorize(s, request).Ok? {
      LookupUpsert(s.authorizationCodes, CodeKey, CodeRow(request, CheckAuthorize(s, request).value, p.sha256Hex(code), now), hash);
    }
  }

  lemma CodeAfterToken(p: Platform, s: PubAuthState, signer: Signer, req: TokenRequest, draw: Draw, at: Times, hash: string)
    requires CanSign(signer) && Lookup(s.authorizationCodes, CodeKey, hash).Some?
    ensures var code := Lookup(s.authorizationCodes, CodeKey, hash).value;
            Lookup(IssueToken(p, s, signer, req, draw, at).0.authorizationCodes, CodeKey, hash)
            == Some(if ExchangesHash(p, s, TokenStep(signer, req, draw, at), hash) then code.(usedAt := Some(at.mark)) else code)
  {
    if ClientOk(p, s, req) && req.grantType.CodeGrant? && CheckCode(p, s, req, at.find).Ok? {
      ExchangeMarks(p, s, signer, req, draw, at);
      FoundByHash(p, s, req, at.find);
      CodeAfterMark(s, p.sha256Hex(req.code.value), at.mark, hash);
    } else {
      OtherTokensKeepCodes(p, s, signer, req, draw, at);
    }
  }

  lemma FoundByHash(p: Platform, s: PubAuthState, req: TokenRequest, now: Millis)
    requires CheckCode(p, s, req, now).Ok?
    ensures Truthy(req.code) && CheckCode(p, s, req, now).value.codeHash == p.sha256Hex(req.code.value)
  {
  }

  lemma CodeAfterMark(s: PubAuthState, marked: string, now: Millis, hash: string)
    requires Lookup(s.authorizationCodes, CodeKey, hash).Some?
    ensures var code := Lookup(s.authorizationCodes, CodeKey, hash).value;
            Lookup(MarkUsed(s, marked, now).authorizationCodes, CodeKey, hash)
            == Some(if marked == hash then code.(usedAt := Some(now)) else code)
  {
    LookupUpdate(s.authorizationCodes, CodeKey, (c: AuthorizationCode) => c.codeHash == marked,
                 (c: AuthorizationCode) => c.(usedAt := Some(now)), hash);
  }

  /** The hash is held by this row, but perhaps marked as used. */
  ghost predicate HeldAs(s: PubAuthState, row: AuthorizationCode, used: bool) {
    var found := Lookup(s.authorizationCodes, CodeKey, row.codeHash);
    found.Some? && found.value.(usedAt := None) == row && (found.value.usedAt.Some? <==> used)
  }

  lemma HeldAfterStep(p: Platform, s: PubAuthState, step: Step, row: AuthorizationCode, used: bool)
    requires Allowed(p, s, step) && HeldAs(s, row, used)
    ensures HeldAs(Apply(p, s, step), row, used || ExchangesHash(p, s, step, row.codeHash))
  {
    CodeAfterStep(p, s, step, row.codeHash);
  }

  lemma ExchangedByNext(p: Platform, states: seq<PubAuthState>, steps: seq<Step>, i: nat, k: nat, hash: string)
    requires i < k < |steps| < |states|
    ensures ExchangedBetween(p, states, steps, i, k + 1, hash)
            <==> ExchangedBetween(p, states, steps, i, k, hash) || ExchangesHash(p, states[k], steps[k], hash)
  {
  }

  lemma {:induction false} HeldAt(p: Platform, states: seq<PubAuthState>, steps: seq<Step>, i: nat, k: nat,
                                  row: AuthorizationCode)
    requires Run(p, states, steps) && i < k < |states| && HeldAs(states[i + 1], row, false)
    ensures HeldAs(states[k], row, ExchangedBetween(p, states, steps, i, k, row.codeHash))
  {
    if k > i + 1 {
      var n := k - 1;
      HeldAt(p, states, steps, i, n, row);
      HeldAfterStep(p, states[n], steps[n], row, ExchangedBetween(p, states, steps, i, n, row.codeHash));
      ExchangedByNext(p, states, steps, i, n, row.codeHash);
      assert states[n + 1] == Apply(p, states[n], steps[n]);
    }
  }

  /** The row that step `i` issued, as it stands at `k`. */
  lemma IssuedRowAt(p: Platform, states: seq<PubAuthState>, steps: seq<Step>, i: nat, k: nat)
    requires Run(p, states, steps) && i < k < |states| && steps[i].AuthorizeStep? && CheckAuthorize(states[i], steps[i].request).Ok?
    ensures var AuthorizeStep(request, code, now) := steps[i];
            var row := CodeRow(request, CheckAuthorize(states[i], request).value, p.sha256Hex(code), now);
            HeldAs(states[k], row, ExchangedBetween(p, states, steps, i, k, p.sha256Hex(code)))
  {
    var AuthorizeStep(request, code, now) := steps[i];
    var row := CodeRow(request, CheckAuthorize(states[i], request).value, p.sha256Hex(code), now);
    LookupUpsert(states[i].authorizationCodes, CodeKey, row, row.codeHash);
    assert states[i + 1] == Apply(p, states[i], steps[i]);
    HeldAt(p, states, steps, i, k, row);
  }

  lemma StoredCodeChecks(p: Platform, s: PubAuthState, row: AuthorizationCode, request: AuthorizationRequest,
                         issuedAt: Millis,
                         code: string, req: TokenRequest, now: Millis)
    requires code != "" && req.code == Some(code) && Lookup(s.authorizationCodes, CodeKey, p.sha256Hex(code)) == Some(row)
    requires exists scopes :: row.(usedAt := None) == CodeRow(request, scopes, p.sha256Hex(code), issuedAt)
    ensures CheckCode(p, s, req, now).Ok? <==> Presented(p, request, issuedAt, req, now) && row.usedAt.None?
  {
  }

  /**
   * Over any run, a code issued at step `i` is exchanged at step `k` exactly when its authenticated
   * client presents it there as issued and within 60 seconds, and no step in between exchanged it. The
   * tokens then carry the scopes that step `i` authorized.
   */
  lemma ExchangeInRunIff(p: Platform, states: seq<PubAuthState>, steps: seq<Step>, i: nat, k: nat)
    requires Run(p, states, steps) && i < k < |steps|
    requires steps[i].AuthorizeStep? && CheckAuthorize(states[i], steps[i].request).Ok? && steps[i].code != ""
    requires steps[k].TokenStep? && steps[k].req.grantType.CodeGrant? && steps[k].req.code == Some(steps[i].code)
    ensures ResponseOf(p, states[k], steps[k]).Ok?
            <==> && ClientOk(p, states[k], steps[k].req)
                 && Presented(p, steps[i].request, steps[i].now, steps[k].req, steps[k].at.find)
                 && !ExchangedBetween(p, states, steps, i, k, p.sha256Hex(steps[i].code))
    ensures ResponseOf(p, states[k], steps[k]).Ok? ==>
              && ResponseOf(p, states[k], steps[k]).value.scope == Join(CheckAuthorize(states[i], steps[i].request).value, ' ')
              && ResponseOf(p, states[k], steps[k]).value.refreshToken == steps[k].draw.refreshToken
  {
    var code := steps[i].code;
    IssuedRowAt(p, states, steps, i, k);
    StoredCodeChecks(p, states[k], Lookup(states[k].authorizationCodes, CodeKey, p.sha256Hex(code)).value, steps[i].request, steps[i].now,
                     code, steps[k].req, steps[k].at.find);
    ExchangeAnswers(p, states[k], steps[k]);
    if ResponseOf(p, states[k], steps[k]).Ok? {
      ExchangeScopes(p, states[k], steps[k], code);
    }
  }

  lemma ExchangeScopes(p: Platform, s: PubAuthState, step: Step, code: string)
    requires step.TokenStep? && CanSign(step.signer) && step.req.grantType.CodeGrant? && step.req.code == Some(code)
    requires ResponseOf(p, s, step).Ok?
    ensures var row := Lookup(s.authorizationCodes, CodeKey, p.sha256Hex(code));
            row.Some? && ResponseOf(p, s, step).value.scope == Join(row.value.scopes, ' ')
            && ResponseOf(p, s, step).value.refreshToken == step.draw.refreshToken
  {
    ExchangeAnswers(p, s, step);
    AnswerScope(p, s, step);
    CheckedIsStored(p, s, step.req, code, step.at.find);
  }

  lemma AnswerScope(p: Platform, s: PubAuthState, step: Step)
    requires step.TokenStep? && CanSign(step.signer) && step.req.grantType.CodeGrant?
    requires ClientOk(p, s, step.req) && CheckCode(p, s, step.req, step.at.find).Ok?
    ensures ResponseOf(p, s, step).Ok?
            && ResponseOf(p, s, step).value.scope == Join(CheckCode(p, s, step.req, step.at.find).value.scopes, ' ')
            && ResponseOf(p, s, step).value.refreshToken == step.draw.refreshToken
  {
  }

  lemma CheckedIsStored(p: Platform, s: PubAuthState, req: TokenRequest, code: string, now: Millis)
    requires req.code == Some(code) && CheckCode(p, s, req, now).Ok?
    ensures Lookup(s.authorizationCodes, CodeKey, p.sha256Hex(code)) == Some(CheckCode(p, s, req, now).value)
  {
  }

  lemma ExchangeAnswers(p: Platform, s: PubAuthState, step: Step)
    requires step.TokenStep? && CanSign(step.signer) && step.req.grantType.CodeGrant?
    ensures ResponseOf(p, s, step).Ok? <==> ClientOk(p, s, step.req) && CheckCode(p, s, step.req, step.at.find).Ok?
  {
  }

  /* ---------- refresh tokens ---------- */

  /** Presenting an unspent row succeeds exactly for its authenticated client, before it expires. */
  lemma UnspentSucceedsIff(p: Platform, s: PubAuthState, signer: Signer, req: TokenRequest, draw: Draw, at: Times,
                           row: RefreshToken)
    requires CanSign(signer) && req.grantType.RefreshGrant? && Truthy(req.refreshToken)
    requires Lookup(s.refreshTokens, RefreshKey, p.sha256Hex(req.refreshToken.value)) == Some(row)
    requires row.revokedAt.None? && row.replacedByHash.None?
    ensures IssueToken(p, s, signer, req, draw, at).1.Ok? <==> ClientOk(p, s, req) && req.clientId == row.clientId && at.find < row.expiresAt
  {
  }

  /** When the row of the refresh token in a response was saved. */
  function RefreshSavedAt(req: TokenRequest, at: Times): Millis {
    if req.grantType.CodeGrant? then at.refresh else at.next
  }

  lemma ReturnedRowStored(p: Platform, s: PubAuthState, signer: Signer, req: TokenRequest, draw: Draw, at: Times)
    requires CanSign(signer) && FreshDraw(p, s.refreshTokens, draw) && IssueToken(p, s, signer, req, draw, at).1.Ok?
    ensures var (next, r) := IssueToken(p, s, signer, req, draw, at);
            var row := Lookup(next.refreshTokens, RefreshKey, p.sha256Hex(r.value.refreshToken));
            && row.Some? && row.value.revokedAt.None? && row.value.replacedByHash.None?
            && row.value.clientId == req.clientId && row.value.expiresAt == RefreshSavedAt(req, at) + REFRESH_MILLIS
  {
    TokenStepEffect(p, s, TokenStep(signer, req, draw, at));
    if req.grantType.CodeGrant? {
      var code := CheckCode(p, s, req, at.find).value;
      var row := FreshRow(CodeOf(code), p.sha256Hex(draw.refreshToken), draw.familyId, at.refresh);
      LookupUpsert(s.refreshTokens, RefreshKey, row, p.sha256Hex(draw.refreshToken));
    } else {
      RotatedRowStored(p, s, signer, req, draw, at);
    }
  }

  lemma RotatedRowStored(p: Platform, s: PubAuthState, signer: Signer, req: TokenRequest, draw: Draw, at: Times)
    requires CanSign(signer) && FreshDraw(p, s.refreshTokens, draw) && IssueToken(p, s, signer, req, draw, at).1.Ok?
    requires req.grantType.RefreshGrant?
    ensures var (next, r) := IssueToken(p, s, signer, req, draw, at);
            var token := FindRefresh(s.refreshTokens, p.sha256Hex(req.refreshToken.value), at.find);
            && r.value.refreshToken == draw.nextRefreshToken
            && token.Some? && token.value.clientId == req.clientId
            && Lookup(next.refreshTokens, RefreshKey, p.sha256Hex(draw.nextRefreshToken))
               == Some(SuccessorRow(token.value, p.sha256Hex(draw.nextRefreshToken), at.next))
  {
    var token := FindRefresh(s.refreshTokens, p.sha256Hex(req.refreshToken.value), at.find).value;
    var hash := p.sha256Hex(draw.nextRefreshToken);
    TokenStepEffect(p, s, TokenStep(signer, req, draw, at));
    var rotated := SaveRefresh(s.refreshTokens, RotatedRow(token, at.find, hash));
    LookupUpsert(rotated, RefreshKey, SuccessorRow(token, hash, at.next), hash);
    var row := FreshRow(GrantOfRefresh(token), p.sha256Hex(draw.refreshToken), draw.familyId, at.refresh);
    LookupUpsert(Rotated(s.refreshTokens, token, at.find, hash, at.next), RefreshKey, row, hash);
  }

  /** An authenticated client presents an unexpired token of its own in this family. */
  ghost predicate Strikes(p: Platform, s: PubAuthState, step: Step, familyId: string) {
    && Presents(p, s, step, familyId)
    && ClientOk(p, s, step.req)
    && var row := Lookup(s.refreshTokens, RefreshKey, p.sha256Hex(step.req.refreshToken.value)).value;
    row.clientId == step.req.clientId && row.expiresAt > step.at.find
  }

  ghost predicate StruckBetween(p: Platform, states: seq<PubAuthState>, steps: seq<Step>, i: nat, k: nat, familyId: string)
    requires k <= |steps| < |states|
  {
    exists j :: i < j < k && Strikes(p, states[j], steps[j], familyId)
  }

  /** The row under the hash is this one, but for the fields that revoking and rotating set. */
  ghost predicate StoredAs(rows: seq<RefreshToken>, row: RefreshToken, revoked: bool) {
    var found := Lookup(rows, RefreshKey, row.refreshTokenHash);
    && found.Some? && found.value.clientId == row.clientId && found.value.familyId == row.familyId
    && (revoked ==> found.value.revokedAt.Some?)
    && (!revoked ==> found.value == row)
  }

  /** Saving under another hash leaves the row alone. */
  lemma SaveElsewhereKeeps(rows: seq<RefreshToken>, other: RefreshToken, row: RefreshToken, revoked: bool)
    requires StoredAs(rows, row, revoked) && other.refreshTokenHash != row.refreshTokenHash
    ensures StoredAs(SaveRefresh(rows, other), row, revoked)
  {
    LookupUpsert(rows, RefreshKey, other, row.refreshTokenHash);
  }

  lemma RevokeFamilyStores(rows: seq<RefreshToken>, familyId: string, now: Millis, row: RefreshToken, revoked: bool)
    requires StoredAs(rows, row, revoked)
    ensures StoredAs(RevokeFamily(rows, familyId, now), row, revoked || familyId == row.familyId)
  {
    LookupUpdate(rows, RefreshKey, (r: RefreshToken) => r.familyId == familyId, (r: RefreshToken) => Revoke(r, now), row.refreshTokenHash);
  }

  lemma RotationStores(rows: seq<RefreshToken>, token: RefreshToken, now: Millis, nextHash: string, savedAt: Millis,
                       row: RefreshToken,
                       revoked: bool)
    requires StoredAs(rows, row, revoked) && nextHash != row.refreshTokenHash
    requires Lookup(rows, RefreshKey, token.refreshTokenHash) == Some(token) && token.revokedAt.None?
    ensures StoredAs(Rotated(rows, token, now, nextHash, savedAt), row, revoked || token.refreshTokenHash == row.refreshTokenHash)
  {
    var spent := RotatedRow(token, now, nextHash);
    LookupUpsert(rows, RefreshKey, spent, row.refreshTokenHash);
    var mid := SaveRefresh(rows, spent);
    assert StoredAs(mid, row, revoked || token.refreshTokenHash == row.refreshTokenHash);
    SaveElsewhereKeeps(mid, SuccessorRow(token, nextHash, savedAt), row, revoked || token.refreshTokenHash == row.refreshTokenHash);
  }

  /** Among the rows of a family the live one is unique, so a good token of the family is that row. */
  lemma LiveRowIsUnique(rows: seq<RefreshToken>, a: RefreshToken, b: RefreshToken)
    requires RefreshInv(rows) && a in rows && b in rows && a.familyId == b.familyId && a.revokedAt.None? && b.revokedAt.None?
    ensures a == b
  {
    var chain :| FamilyChain(rows, a.familyId, chain);
    UnrevokedIsTail(rows, a, chain);
    UnrevokedIsTail(rows, b, chain);
  }

  /** What a refresh request that finds its token does to a stored row: a strike on its family revokes it, nothing else touches it. */
  lemma RowAfterRefresh(p: Platform, s: PubAuthState, step: Step, row: RefreshToken, revoked: bool)
    requires Allowed(p, s, step) && step.TokenStep? && step.req.grantType.RefreshGrant? && ClientOk(p, s, step.req)
    requires RefreshInv(s.refreshTokens) && StoredAs(s.refreshTokens, row, revoked) && row.revokedAt.None?
    ensures StoredAs(RefreshEffect(p, s, step), row, revoked || Strikes(p, s, step, row.familyId))
  {
    var rows, req, draw, at := s.refreshTokens, step.req, step.draw, step.at;
    var stored := Lookup(rows, RefreshKey, row.refreshTokenHash).value;
    if Truthy(req.refreshToken) && FindRefresh(rows, p.sha256Hex(req.refreshToken.value), at.find).Some? {
      var token := FindRefresh(rows, p.sha256Hex(req.refreshToken.value), at.find).value;
      if token.clientId == req.clientId {
        assert Strikes(p, s, step, token.familyId);
        if token.revokedAt.Some? || Truthy(token.replacedByHash) {
          RevokeFamilyStores(rows, token.familyId, at.find, row, revoked);
        } else {
          var next := p.sha256Hex(draw.nextRefreshToken);
          RotationStores(rows, token, at.find, next, at.next, row, revoked);
          if token.familyId == row.familyId && !revoked {
            LiveRowIsUnique(rows, token, stored);
          }
          var newFamily := FreshRow(GrantOfRefresh(token), p.sha256Hex(draw.refreshToken), draw.familyId, at.refresh);
          SaveElsewhereKeeps(Rotated(rows, token, at.find, next, at.next), newFamily, row, revoked || Strikes(p, s, step, row.familyId));
        }
      }
    }
  }

  lemma RowAfterStep(p: Platform, s: PubAuthState, step: Step, row: RefreshToken, revoked: bool)
    requires Allowed(p, s, step) && RefreshInv(s.refreshTokens) && StoredAs(s.refreshTokens, row, revoked) && row.revokedAt.None?
    ensures StoredAs(Apply(p, s, step).refreshTokens, row, revoked || Strikes(p, s, step, row.familyId))
  {
    if !step.TokenStep? {
      OtherStepEffect(p, s, step);
    } else {
      TokenStepEffect(p, s, step);
      if ClientOk(p, s, step.req) {
        if step.req.grantType.RefreshGrant? {
          RowAfterRefresh(p, s, step, row, revoked);
        } else if step.req.grantType.CodeGrant? && CheckCode(p, s, step.req, step.at.find).Ok? {
          var grant := CodeOf(CheckCode(p, s, step.req, step.at.find).value);
          SaveElsewhereKeeps(s.refreshTokens, FreshRow(grant, p.sha256Hex(step.draw.refreshToken), step.draw.familyId, step.at.refresh), row, revoked);
        }
      }
    }
  }

  lemma StruckByNext(p: Platform, states: seq<PubAuthState>, steps: seq<Step>, i: nat, k: nat, familyId: string)
    requires i < k < |steps| < |states|
    ensures StruckBetween(p, states, steps, i, k + 1, familyId)
            <==> StruckBetween(p, states, steps, i, k, familyId) || Strikes(p, states[k], steps[k], familyId)
  {
  }

  lemma {:induction false} RowAt(p: Platform, states: seq<PubAuthState>, steps: seq<Step>, i: nat, k: nat, row: RefreshToken)
    requires Run(p, states, steps) && states[0].refreshTokens == [] && i < k < |states|
    requires row.revokedAt.None? && StoredAs(states[i + 1].refreshTokens, row, false)
    ensures StoredAs(states[k].refreshTokens, row, StruckBetween(p, states, steps, i, k, row.familyId))
  {
    if k > i + 1 {
      var n := k - 1;
      RowAt(p, states, steps, i, n, row);
      InvAt(p, states, steps, n);
      RowAfterStep(p, states[n], steps[n], row, StruckBetween(p, states, steps, i, n, row.familyId));
      StruckByNext(p, states, steps, i, n, row.familyId);
      assert states[n + 1] == Apply(p, states[n], steps[n]);
    }
  }

  lemma RevokedRowFails(p: Platform, s: PubAuthState, step: Step, row: RefreshToken)
    requires step.TokenStep? && CanSign(step.signer) && step.req.grantType.RefreshGrant? && Truthy(step.req.refreshToken)
    requires Lookup(s.refreshTokens, RefreshKey, p.sha256Hex(step.req.refreshToken.value)) == Some(row) && row.revokedAt.Some?
    ensures ResponseOf(p, s, step).Err?
  {
  }

  /** The row of the refresh token that the response of step `i` carries. */
  function ReturnedRow(p: Platform, states: seq<PubAuthState>, steps: seq<Step>, i: nat): Option<RefreshToken>
    requires |states| == |steps| + 1 && i < |steps| && steps[i].TokenStep? && CanSign(steps[i].signer) && ResponseOf(p, states[i], steps[i]).Ok?
  {
    Lookup(states[i + 1].refreshTokens, RefreshKey, p.sha256Hex(ResponseOf(p, states[i], steps[i]).value.refreshToken))
  }

  /**
   * Over any run, the refresh token that step `i` returned, by either grant, is accepted at step `k`
   * exactly when its own authenticated client presents it within 30 days of its being saved and no
   * step in between presented any token of its family, authenticated and in time.
   */
  lemma RefreshInRunIff(p: Platform, states: seq<PubAuthState>, steps: seq<Step>, i: nat, k: nat)
    requires Run(p, states, steps) && states[0].refreshTokens == [] && i < k < |steps|
    requires steps[i].TokenStep? && ResponseOf(p, states[i], steps[i]).Ok?
    requires steps[k].TokenStep? && steps[k].req.grantType.RefreshGrant? && Truthy(steps[k].req.refreshToken)
    requires steps[k].req.refreshToken == Some(ResponseOf(p, states[i], steps[i]).value.refreshToken)
    ensures ReturnedRow(p, states, steps, i).Some?
    ensures ResponseOf(p, states[k], steps[k]).Ok?
            <==> && ClientOk(p, states[k], steps[k].req)
                 && steps[k].req.clientId == steps[i].req.clientId
                 && steps[k].at.find < RefreshSavedAt(steps[i].req, steps[i].at) + REFRESH_MILLIS
                 && !StruckBetween(p, states, steps, i, k, ReturnedRow(p, states, steps, i).value.familyId)
  {
    var TokenStep(signer, req, draw, at) := steps[i];
    ReturnedRowStored(p, states[i], signer, req, draw, at);
    assert states[i + 1] == Apply(p, states[i], steps[i]);
    var row := ReturnedRow(p, states, steps, i).value;
    RowAt(p, states, steps, i, k, row);
    if StruckBetween(p, states, steps, i, k, row.familyId) {
      RevokedRowFails(p, states[k], steps[k], Lookup(states[k].refreshTokens, RefreshKey, row.refreshTokenHash).value);
    } else {
      var TokenStep(signer', req', draw', at') := steps[k];
      UnspentSucceedsIff(p, states[k], signer', req', draw', at', row);
    }
  }

  /** No row of this hash is ever removed. */
  lemma HashStays(p: Platform, s: PubAuthState, step: Step, hash: string)
    requires Allowed(p, s, step) && !FreshHash(s.refreshTokens, hash)
    ensures !FreshHash(Apply(p, s, step).refreshTokens, hash)
  {
    if !step.TokenStep? {
      OtherStepEffect(p, s, step);
    } else {
      TokenStepEffect(p, s, step);
      HashStaysInEffect(p, s, step, hash);
    }
  }

  lemma SaveKeepsHash(rows: seq<RefreshToken>, row: RefreshToken, hash: string)
    requires !FreshHash(rows, hash) || row.refreshTokenHash == hash
    ensures !FreshHash(SaveRefresh(rows, row), hash)
  {
    assert row in SaveRefresh(rows, row);
  }

  lemma RevokeKeepsHash(rows: seq<RefreshToken>, familyId: string, now: Millis, hash: string)
    requires !FreshHash(rows, hash)
    ensures !FreshHash(RevokeFamily(rows, familyId, now), hash)
  {
    RevokedMembers(rows, familyId, now);
    var r :| r in rows && r.refreshTokenHash == hash;
    assert (if r.familyId == familyId then Revoke(r, now) else r) in RevokeFamily(rows, familyId, now);
  }

  lemma RotationKeepsHash(rows: seq<RefreshToken>, token: RefreshToken, now: Millis, next: string, nextAt: Millis,
                          saved: RefreshToken, hash: string)
    requires !FreshHash(rows, hash)
    ensures !FreshHash(SaveRefresh(Rotated(rows, token, now, next, nextAt), saved), hash)
  {
    SaveKeepsHash(rows, RotatedRow(token, now, next), hash);
    SaveKeepsHash(SaveRefresh(rows, RotatedRow(token, now, next)), SuccessorRow(token, next, nextAt), hash);
    SaveKeepsHash(Rotated(rows, token, now, next, nextAt), saved, hash);
  }

  lemma HashStaysInEffect(p: Platform, s: PubAuthState, step: Step, hash: string)
    requires step.TokenStep? && !FreshHash(s.refreshTokens, hash)
    ensures !FreshHash(RefreshEffect(p, s, step), hash)
  {
    var rows, req, draw, at := s.refreshTokens, step.req, step.draw, step.at;
    if ClientOk(p, s, req) && req.grantType.CodeGrant? && CheckCode(p, s, req, at.find).Ok? {
      SaveKeepsHash(rows, FreshRow(CodeOf(CheckCode(p, s, req, at.find).value), p.sha256Hex(draw.refreshToken), draw.familyId, at.refresh), hash);
    } else if ClientOk(p, s, req) && req.grantType.RefreshGrant? && Truthy(req.refreshToken) {
      var found := FindRefresh(rows, p.sha256Hex(req.refreshToken.value), at.find);
      if found.Some? {
        RevokeKeepsHash(rows, found.value.familyId, at.find, hash);
        RotationKeepsHash(rows, found.value, at.find, p.sha256Hex(draw.nextRefreshToken), at.next,
                          FreshRow(GrantOfRefresh(found.value), p.sha256Hex(draw.refreshToken), draw.familyId, at.refresh), hash);
      }
    }
  }

  lemma {:induction false} HashStaysFrom(p: Platform, states: seq<PubAuthState>, steps: seq<Step>, i: nat, k: nat,
                                         hash: string)
    requires Run(p, states, steps) && i <= k < |states| && !FreshHash(states[i].refreshTokens, hash)
    ensures !FreshHash(states[k].refreshTokens, hash)
  {
    if i < k {
      var n := k - 1;
      HashStaysFrom(p, states, steps, i, n, hash);
      HashStays(p, states[n], steps[n], hash);
      assert states[n + 1] == Apply(p, states[n], steps[n]);
    }
  }

  /** A request that succeeds stores the last secret it draws, and returns one that it drew. */
  lemma SuccessStoresLastDraw(p: Platform, s: PubAuthState, step: Step)
    requires step.TokenStep? && CanSign(step.signer) && ResponseOf(p, s, step).Ok?
    ensures !FreshHash(Apply(p, s, step).refreshTokens, p.sha256Hex(step.draw.refreshToken))
  {
    TokenStepEffect(p, s, step);
    var rows, req, draw, at := s.refreshTokens, step.req, step.draw, step.at;
    if req.grantType.CodeGrant? {
      SaveKeepsHash(rows, FreshRow(CodeOf(CheckCode(p, s, req, at.find).value), p.sha256Hex(draw.refreshToken), draw.familyId, at.refresh),
                    p.sha256Hex(draw.refreshToken));
    } else {
      var token := FindRefresh(rows, p.sha256Hex(req.refreshToken.value), at.find).value;
      SaveKeepsHash(Rotated(rows, token, at.find, p.sha256Hex(draw.nextRefreshToken), at.next),
                    FreshRow(GrantOfRefresh(token), p.sha256Hex(draw.refreshToken), draw.familyId, at.refresh), p.sha256Hex(draw.refreshToken));
    }
  }

  lemma ReturnedIsDrawn(p: Platform, s: PubAuthState, step: Step)
    requires step.TokenStep? && CanSign(step.signer) && ResponseOf(p, s, step).Ok?
    ensures var returned := ResponseOf(p, s, step).value.refreshToken;
            returned == if step.req.grantType.CodeGrant? then step.draw.refreshToken else step.draw.nextRefreshToken
  {
  }

  /** What a step returns is stored afterwards. */
  lemma ReturnedIsStored(p: Platform, s: PubAuthState, step: Step)
    requires Allowed(p, s, step) && step.TokenStep? && ResponseOf(p, s, step).Ok?
    ensures !FreshHash(Apply(p, s, step).refreshTokens, p.sha256Hex(ResponseOf(p, s, step).value.refreshToken))
  {
    ReturnedRowStored(p, s, step.signer, step.req, step.draw, step.at);
  }

  /**
   * The secret of the row that a refresh also stores in a fresh family is overwritten in its response,
   * and over any run no response ever carries that secret.
   */
  lemma OverwrittenNeverReturned(p: Platform, states: seq<PubAuthState>, steps: seq<Step>, i: nat, j: nat)
    requires Run(p, states, steps) && i < |steps| && j < |steps|
    requires steps[i].TokenStep? && steps[i].req.grantType.RefreshGrant? && ResponseOf(p, states[i], steps[i]).Ok?
    requires steps[j].TokenStep? && ResponseOf(p, states[j], steps[j]).Ok?
    ensures !FreshHash(states[i + 1].refreshTokens, p.sha256Hex(steps[i].draw.refreshToken))
    ensures p.sha256Hex(ResponseOf(p, states[j], steps[j]).value.refreshToken) != p.sha256Hex(steps[i].draw.refreshToken)
  {
    SuccessStoresLastDraw(p, states[i], steps[i]);
    assert states[i + 1] == Apply(p, states[i], steps[i]);
    ReturnedIsDrawn(p, states[j], steps[j]);
    if i < j {
      HashStaysFrom(p, states, steps, i + 1, j, p.sha256Hex(steps[i].draw.refreshToken));
    } else if j < i {
      ReturnedIsStored(p, states[j], steps[j]);
      assert states[j + 1] == Apply(p, states[j], steps[j]);
      HashStaysFrom(p, states, steps, j + 1, i, p.sha256Hex(ResponseOf(p, states[j], steps[j]).value.refreshToken));
    }
  }

  /** The stored row is the unrevoked last link of its family's chain. */
  ghost predicate IsLiveTail(rows: seq<RefreshToken>, row: RefreshToken) {
    row.revokedAt.None? && exists chain :: FamilyChain(rows, row.familyId, chain) && chain[|chain| - 1] == row
  }

  /**
   * In any state of a run a refresh request succeeds exactly when its authenticated client presents,
   * in time, the live tail of a family of its own.
   */
  lemma RefreshSucceedsIffTail(p: Platform, states: seq<PubAuthState>, steps: seq<Step>, k: nat)
    requires Run(p, states, steps) && states[0].refreshTokens == [] && k < |steps|
    requires steps[k].TokenStep? && steps[k].req.grantType.RefreshGrant?
    ensures ResponseOf(p, states[k], steps[k]).Ok?
            <==> && ClientOk(p, states[k], steps[k].req) && Truthy(steps[k].req.refreshToken)
                 && var row := Lookup(states[k].refreshTokens, RefreshKey, p.sha256Hex(steps[k].req.refreshToken.value));
                 && row.Some? && row.value.clientId == steps[k].req.clientId && steps[k].at.find < row.value.expiresAt
                 && IsLiveTail(states[k].refreshTokens, row.value)
  {
    InvAt(p, states, steps, k);
    if Truthy(steps[k].req.refreshToken) {
      var TokenStep(signer, req, draw, at) := steps[k];
      var found := Lookup(states[k].refreshTokens, RefreshKey, p.sha256Hex(req.refreshToken.value));
      if found.Some? {
        TailIffUnrevoked(states[k].refreshTokens, found.value);
        if found.value.revokedAt.Some? {
          RevokedRowFails(p, states[k], steps[k], found.value);
        } else {
          UnspentSucceedsIff(p, states[k], signer, req, draw, at, found.value);
        }
      }
    }
  }

  lemma TailIffUnrevoked(rows: seq<RefreshToken>, row: RefreshToken)
    requires RefreshInv(rows) && row in rows
    ensures IsLiveTail(rows, row) <==> row.revokedAt.None?
    ensures row.revokedAt.None? ==> row.replacedByHash.None?
  {
    if row.revokedAt.None? {
      var chain :| FamilyChain(rows, row.familyId, chain);
      UnrevokedIsTail(rows, row, chain);
    }
  }

  /* ---------- sessions ---------- */

  lemma LoginSavesSession(p: Platform, s: PubAuthState, username: string, password: string, isLocal: bool,
                          sessionId: string, now: Millis)
    requires CheckLogin(p, s, username, password, isLocal).Ok?
    ensures var user := CheckLogin(p, s, username, password, isLocal).value;
            FindSession(Login(p, s, username, password, isLocal, sessionId, now).0, sessionId) == Some(SessionRow(user, sessionId, now))
  {
    var user := CheckLogin(p, s, username, password, isLocal).value;
    LookupUpsert(s.sessions, SessionKey, SessionRow(user, sessionId, now), sessionId);
  }

  /** Session ids are drawn new: no step between saves a session under this id. */
  ghost predicate SessionIdUnused(steps: seq<Step>, i: nat, k: nat, sessionId: string)
    requires k <= |steps|
  {
    forall j :: i < j < k ==>
      && (steps[j].LoginStep? ==> steps[j].sessionId != sessionId)
      && (steps[j].SessionStep? ==> steps[j].session.id != sessionId)
  }

  ghost predicate LoggedOutBetween(steps: seq<Step>, i: nat, k: nat, sessionId: string)
    requires k <= |steps|
  {
    exists j :: i < j < k && steps[j].LogoutStep? && steps[j].sessionId == sessionId
  }

  /** A step that saves no session under the id changes its row only by logging it out. */
  lemma SessionAfterStep(p: Platform, s: PubAuthState, step: Step, sessionId: string)
    requires Allowed(p, s, step)
    requires (step.LoginStep? ==> step.sessionId != sessionId) && (step.SessionStep? ==> step.session.id != sessionId)
    ensures var before, after := FindSession(s, sessionId), FindSession(Apply(p, s, step), sessionId);
            if step.LogoutStep? && step.sessionId == sessionId && before.Some? then after == Some(before.value.(revokedAt := Some(step.now)))
            else after == before
  {
    match step
    case LoginStep(username, password, isLocal, id, now) =>
      var user := CheckLogin(p, s, username, password, isLocal);
      if user.Ok? {
        LookupUpsert(s.sessions, SessionKey, SessionRow(user.value, id, now), sessionId);
      }
    case SessionStep(session) => LookupUpsert(s.sessions, SessionKey, session, sessionId);
    case LogoutStep(id, now) =>
      LookupUpdate(s.sessions, SessionKey, (r: AuthSession) => r.id == id, (r: AuthSession) => r.(revokedAt := Some(now)), sessionId);
    case TokenStep(signer, req, draw, at) => TokensKeepSessions(p, s, signer, req, draw, at);
    case _ =>
  }

  lemma TokensKeepSessions(p: Platform, s: PubAuthState, signer: Signer, req: TokenRequest, draw: Draw, at: Times)
    requires CanSign(signer)
    ensures IssueToken(p, s, signer, req, draw, at).0.sessions == s.sessions
  {
  }

  /** The session id is held by this row, but perhaps revoked. */
  ghost predicate SessionHeld(s: PubAuthState, row: AuthSession, out: bool) {
    var found := FindSession(s, row.id);
    found.Some? && found.value.(revokedAt := None) == row && (found.value.revokedAt.Some? <==> out)
  }

  lemma SessionHeldAfter(p: Platform, s: PubAuthState, step: Step, row: AuthSession, out: bool)
    requires Allowed(p, s, step) && SessionHeld(s, row, out)
    requires (step.LoginStep? ==> step.sessionId != row.id) && (step.SessionStep? ==> step.session.id != row.id)
    ensures SessionHeld(Apply(p, s, step), row, out || (step.LogoutStep? && step.sessionId == row.id))
  {
    SessionAfterStep(p, s, step, row.id);
  }

  lemma LoggedOutByNext(steps: seq<Step>, i: nat, k: nat, sessionId: string)
    requires i < k < |steps|
    ensures LoggedOutBetween(steps, i, k + 1, sessionId)
            <==> LoggedOutBetween(steps, i, k, sessionId) || (steps[k].LogoutStep? && steps[k].sessionId == sessionId)
  {
  }

  lemma {:induction false} SessionHeldAt(p: Platform, states: seq<PubAuthState>, steps: seq<Step>, i: nat, k: nat,
                                         row: AuthSession)
    requires Run(p, states, steps) && i < k < |states| && SessionHeld(states[i + 1], row, false) && SessionIdUnused(steps, i, k, row.id)
    ensures SessionHeld(states[k], row, LoggedOutBetween(steps, i, k, row.id))
  {
    if k > i + 1 {
      var n := k - 1;
      SessionHeldAt(p, states, steps, i, n, row);
      SessionHeldAfter(p, states[n], steps[n], row, LoggedOutBetween(steps, i, n, row.id));
      LoggedOutByNext(steps, i, n, row.id);
      assert states[n + 1] == Apply(p, states[n], steps[n]);
    }
  }

  lemma SessionAt(p: Platform, states: seq<PubAuthState>, steps: seq<Step>, i: nat, k: nat)
    requires Run(p, states, steps) && i < k < |states| && steps[i].LoginStep?
    requires CheckLogin(p, states[i], steps[i].username, steps[i].password, steps[i].isLocal).Ok?
    requires SessionIdUnused(steps, i, k, steps[i].sessionId)
    ensures var user := CheckLogin(p, states[i], steps[i].username, steps[i].password, steps[i].isLocal).value;
            SessionHeld(states[k], SessionRow(user, steps[i].sessionId, steps[i].now), LoggedOutBetween(steps, i, k, steps[i].sessionId))
  {
    var LoginStep(username, password, isLocal, sessionId, now) := steps[i];
    LoginSavesSession(p, states[i], username, password, isLocal, sessionId, now);
    assert states[i + 1] == Apply(p, states[i], steps[i]);
    SessionHeldAt(p, states, steps, i, k, SessionRow(CheckLogin(p, states[i], username, password, isLocal).value, sessionId, now));
  }

  /**
   * Over any run, whatever else happens, the session of a login at step `i` is accepted at `k`, for its
   * user and with the roles then assigned, exactly until eight hours have passed or it was logged out.
   */
  lemma SessionInRunIff(p: Platform, states: seq<PubAuthState>, steps: seq<Step>, i: nat, k: nat, now: Millis)
    requires Run(p, states, steps) && i < k < |states| && steps[i].LoginStep?
    requires CheckLogin(p, states[i], steps[i].username, steps[i].password, steps[i].isLocal).Ok?
    requires SessionIdUnused(steps, i, k, steps[i].sessionId)
    ensures var user := CheckLogin(p, states[i], steps[i].username, steps[i].password, steps[i].isLocal).value;
            VerifySession(states[k], steps[i].sessionId, now)
            == if now < steps[i].now + 8 * 60 * 60 * 1000 && !LoggedOutBetween(steps, i, k, steps[i].sessionId)
               then Some(Principal(user.subjectId, user.workspaceId, GatewayRoles(states[k], user.subjectId, user.workspaceId), []))
               else None
  {
    SessionAt(p, states, steps, i, k);
  }

  /* ---------- clients ---------- */

  lemma CreatedClientFound(p: Platform, s: PubAuthState, product: Product, command: Command, draw: AdminDraw)
    requires command.CreateClient?
    requires forall c :: c in s.clients ==> c.clientId != NewClient(p, product, command, draw).clientId
    ensures var client := NewClient(p, product, command, draw);
            FindClient(s.(clients := Upsert(s.clients, ClientRowKey, client)), client.clientId) == Some(client)
  {
    var client := NewClient(p, product, command, draw);
    var next := s.(clients := Upsert(s.clients, ClientRowKey, client));
    assert client in next.clients;
  }

  /**
   * A client created under a new client id is accepted at the token endpoint exactly with the secret
   * handed out for it, if it is confidential, and without any if it is public.
   */
  lemma CreatedClientAuthenticates(p: Platform, s: PubAuthState, command: Command, draw: AdminDraw, now: Millis,
                                   req: TokenRequest)
    requires command.CreateClient? && Execute(p, s, command, draw, now).1.ok
    requires forall c :: c in s.clients ==> c.clientId != Execute(p, s, command, draw, now).1.id
    requires draw.secret != "" && draw.secretHash != ""
    requires forall secret :: p.verifySecret(secret, draw.secretHash) <==> secret == draw.secret
    requires req.clientId == Execute(p, s, command, draw, now).1.id
    ensures var (next, r) := Execute(p, s, command, draw, now);
            ClientOk(p, next, req)
            <==> if command.clientType == Confidential
                 then req.clientSecret == r.clientSecret && (req.clientAuthMethod.None? || req.clientAuthMethod == Some("client_secret_basic"))
                 else !Truthy(req.clientSecret) && req.clientAuthMethod.None?
  {
    var product := Lookup(s.products, ProductKey, command.clientProductId).value;
    CreatedClientFound(p, s, product, command, draw);
  }

  /** It may then be authorized exactly for its redirect URIs and for `openid` and the scopes it was created with. */
  lemma CreatedClientAuthorizedIff(p: Platform, s: PubAuthState, command: Command, draw: AdminDraw, now: Millis,
                                   request: AuthorizationRequest)
    requires command.CreateClient? && Execute(p, s, command, draw, now).1.ok
    requires forall c :: c in s.clients ==> c.clientId != Execute(p, s, command, draw, now).1.id
    requires request.clientId == Execute(p, s, command, draw, now).1.id
    ensures CheckAuthorize(Execute(p, s, command, draw, now).0, request).Ok?
            <==> && request.responseType == "code" && request.codeChallengeMethod == "S256"
                 && request.redirectUri in command.redirectUris
                 && forall scope :: scope in ParseScopes(request.scope) ==> scope == "openid" || scope in command.scopes
  {
    var product := Lookup(s.products, ProductKey, command.clientProductId).value;
    CreatedClientFound(p, s, product, command, draw);
    var allowed := NewClient(p, product, command, draw).allowedScopes;
    assert forall scope :: scope in allowed <==> scope == "openid" || scope in command.scopes;
  }

  /* ---------- route policies ---------- */

  /** A created policy lists a method in whatever case it was given, and exactly the non-blank roles. */
  lemma CreatedPolicyLists(p: Platform, command: Command, draw: AdminDraw, httpMethod: string, role: string)
    requires command.CreateRoutePolicy?
    ensures var policy := NewPolicy(p, command, draw);
            && (p.toUpperCase(httpMethod) in policy.methods
                <==> exists m :: m in command.methods && p.toUpperCase(m) == p.toUpperCase(httpMethod))
            && (role in policy.requiredRoles
                <==> role != "" && exists given :: given in command.requiredRoles && Trim(given) == role)
  {
    MappedMembers(command.methods, p.toUpperCase, p.toUpperCase(httpMethod));
    MappedMembers(command.requiredRoles, Trim, role);
  }

  lemma {:induction false} MappedMembers(items: seq<string>, f: string -> string, y: string)
    ensures y in MapRows(items, f) <==> exists x :: x in items && f(x) == y
  {
    var mapped := MapRows(items, f);
    if y in mapped {
      var i :| 0 <= i < |mapped| && mapped[i] == y;
      assert items[i] in items;
    }
    if x :| x in items && f(x) == y {
      var i :| 0 <= i < |items| && items[i] == x;
      assert mapped[i] == y;
    }
  }
}
