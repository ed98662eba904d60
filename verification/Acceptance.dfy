/** The two independent access-token checks: the gateway's and the UserInfo endpoint's. */
module Acceptance {
  import opened Tables
  import opened Text
  import opened Jwt
  import opened SigningKeys
  import opened Model
  import opened Stores
  import opened TokenIssuer

  datatype Principal = Principal(userId: string, workspaceId: string, roles: seq<string>, groups: seq<string>)

  datatype UserInfo = UserInfo(sub: string, workspace: Option<string>, roles: Option<seq<string>>, groups: Option<seq<string>>)

  function ReadStringClaim(claims: Claims, name: string): Option<string> {
    match Claim(claims, name)
    case Some(JString(s)) => if s != "" then Some(s) else None
    case _ => None
  }

  predicate AllStrings(items: seq<Json>) {
    forall j :: j in items ==> j.JString?
  }

  function Strings(items: seq<Json>): (r: seq<string>)
    requires AllStrings(items)
    ensures |r| == |items| && forall i :: 0 <= i < |items| ==> items[i] == JString(r[i])
  {
    if items == [] then []
    else
      assert items[0] in items;
      [items[0].s] + Strings(items[1..])
  }

  function SplitList(s: string): seq<string> {
    Filter(MapRows(Split(s, ','), Trim), (t: string) => t != "")
  }

  /** The gateway's reading of a list claim. */
  function ReadClaimList(claim: Option<Json>): Option<seq<string>> {
    match claim
    case Some(JArray(items)) => if AllStrings(items) then Some(Distinct(Strings(items))) else None
    case Some(JString(s)) => if s != "" then Some(SplitList(s)) else None
    case _ => None
  }

  /** UserInfo's reading of a list claim. */
  function NormalizeList(claim: Option<Json>): Option<seq<string>> {
    match claim
    case Some(JArray(items)) => if AllStrings(items) then Some(Strings(items)) else None
    case Some(JString(s)) => Some(SplitList(s))
    case _ => None
  }

  function GatewayRoles(s: PubAuthState, subjectId: string, workspaceId: string): seq<string> {
    Distinct(Filter(
               MapRows(
                 Filter(s.assignments, (a: Assignment) =>
                          a.userId == subjectId && (!Truthy(a.workspaceId) || a.workspaceId.value == workspaceId)),
                 (a: Assignment) => a.role),
               (r: string) => r != ""))
  }

  function AccessOptions(issuer: string): VerifyOptions {
    VerifyOptions(None, Some(issuer), Some(["access_token"]))
  }

  /** What `verifyBearer` checks and returns once the JWT has been verified. */
  function BearerPrincipal(s: PubAuthState, payload: Claims, token: string, now: Millis): Option<Principal> {
    var clientId := ReadStringClaim(payload, "client_id");
    var subjectId := ReadStringClaim(payload, "sub");
    var workspaceId := ReadStringClaim(payload, "workspace_id");
    if clientId.None? || !ClaimIncludes(Claim(payload, "aud"), clientId.value) then None
    else if subjectId.None? || workspaceId.None? then None
    else
      var row := Lookup(s.accessTokens, AccessKey, token);
      if row.None? || row.value.revokedAt.Some? || row.value.expiresAt <= now then None
      else if Claim(payload, "jti") != Some(JString(row.value.jti)) then None
      else if Truthy(row.value.sessionId) && !SessionLive(FindSession(s, row.value.sessionId.value), now) then None
      else if Truthy(row.value.sessionId) && Claim(payload, "sid") != Some(JString(row.value.sessionId.value)) then None
      else
        var roles := ReadClaimList(Claim(payload, "roles"));
        var groups := ReadClaimList(Claim(payload, "groups"));
        Some(Principal(subjectId.value, workspaceId.value,
                       if roles.Some? then roles.value else GatewayRoles(s, subjectId.value, workspaceId.value),
                       if groups.Some? then groups.value else []))
  }

  /** The gateway's `verifyBearer`, on one snapshot and one clock value. */
  function VerifyBearer(p: Platform, s: PubAuthState, service: KeyService, issuer: string, token: string,
                        now: Millis): Option<Principal> {
    var verified := ServiceVerify(p, service, token, AccessOptions(issuer), now);
    if verified.Err? then None else BearerPrincipal(s, verified.value.payload, token, now)
  }

  /** What UserInfo checks and returns once record, session and JWT have been checked. */
  function InfoOf(payload: Claims, row: AccessToken): Result<UserInfo> {
    var clientId := ReadStringClaim(payload, "client_id");
    if clientId.None? || !ClaimIncludes(Claim(payload, "aud"), clientId.value) then Err("invalid_token_audience")
    else if Claim(payload, "jti") != Some(JString(row.jti)) then Err("invalid_token")
    else if Truthy(row.sessionId) && Claim(payload, "sid") != Some(JString(row.sessionId.value)) then Err("invalid_token")
    else
      var sub := Claim(payload, "sub");
      var workspace := Claim(payload, "workspace_id");
      Ok(UserInfo(if sub.Some? then JsString(sub.value) else "undefined",
                  if workspace.Some? && workspace.value.JString? then Some(workspace.value.s) else None,
                  NormalizeList(Claim(payload, "roles")),
                  NormalizeList(Claim(payload, "groups"))))
  }

  /** UserInfo's check; errors carry the source's messages. */
  function GetUserInfo(p: Platform, s: PubAuthState, service: KeyService, issuer: string, token: string,
                       now: Millis): Result<UserInfo> {
    var row := FindAccess(s, token, now);
    if row.None? then Err("invalid_token")
    else if Truthy(row.value.sessionId) && !SessionLive(FindSession(s, row.value.sessionId.value), now) then Err("invalid_token")
    else
      var verified := ServiceVerify(p, service, token, AccessOptions(issuer), now);
      if verified.Err? then Err(verified.error) else InfoOf(verified.value.payload, row.value)
  }

  /**
   * On one snapshot and one clock value the gateway accepts a token exactly when UserInfo does and
   * its subject and workspace claims are non-empty strings; both then name the same two.
   */
  lemma ChecksAgree(p: Platform, s: PubAuthState, service: KeyService, issuer: string, token: string, now: Millis)
    ensures var bearer := VerifyBearer(p, s, service, issuer, token, now);
            var info := GetUserInfo(p, s, service, issuer, token, now);
            var verified := ServiceVerify(p, service, token, AccessOptions(issuer), now);
            && (bearer.Some? <==>
                info.Ok? && verified.Ok?
                && ReadStringClaim(verified.value.payload, "sub").Some?
                && ReadStringClaim(verified.value.payload, "workspace_id").Some?)
            && (bearer.Some? ==> info.value.sub == bearer.value.userId && info.value.workspace == Some(bearer.value.workspaceId))
  {
  }

  /* ---------- issued tokens ---------- */

  function KeyOf(signer: Signer): RsaJwtSigner
    requires CanSign(signer)
  {
    var key := ActiveKey(signer.service.usable);
    RsaJwtSigner(key.keyId, signer.issuer, key.privateKeyPem, key.publicKeyPem)
  }

  function AccessPayload(issuer: string, grant: Grant, jti: string, roles: seq<string>, signedAt: Millis): Claims {
    Payload(issuer, TokenOptions(grant, jti, "access_token", roles), signedAt)
  }

  lemma {:induction false} StringClaims(roles: seq<string>)
    ensures var items := MapRows(roles, AsJson);
            AllStrings(items) && Strings(items) == roles
  {
    var items := MapRows(roles, AsJson);
    assert forall i :: 0 <= i < |items| ==> Strings(items)[i] == roles[i];
  }

  /** The claims that the checks read, as issuing set them. */
  ghost predicate Describes(c: Claims, grant: Grant, jti: string, roles: seq<string>) {
    && Claim(c, "aud") == Some(JString(grant.clientId))
    && Claim(c, "sub") == Some(JString(grant.subjectId))
    && Claim(c, "client_id") == Some(JString(grant.clientId))
    && Claim(c, "workspace_id") == Some(JString(grant.workspaceId))
    && Claim(c, "jti") == Some(JString(jti))
    && (Truthy(grant.sessionId) ==> Claim(c, "sid") == Some(JString(grant.sessionId.value)))
    && Claim(c, "roles") == Some(JArray(MapRows(roles, AsJson)))
    && Claim(c, "groups") == Some(JArray([]))
  }

  lemma TokenClaimValues(grant: Grant, jti: string, tokenUse: string, roles: seq<string>)
    ensures var c := TokenClaims(grant, jti, tokenUse, roles);
            && Claim(c, "token_use") == Some(JString(tokenUse))
            && Claim(c, "client_id") == Some(JString(grant.clientId))
            && Claim(c, "workspace_id") == Some(JString(grant.workspaceId))
            && Claim(c, "jti") == Some(JString(jti))
            && (Truthy(grant.sessionId) ==> Claim(c, "sid") == Some(JString(grant.sessionId.value)))
            && Claim(c, "roles") == Some(JArray(MapRows(roles, AsJson)))
            && Claim(c, "groups") == Some(JArray([]))
            && "iss" !in c && "aud" !in c && "sub" !in c && "exp" !in c
  {
  }

  lemma PayloadClaims(issuer: string, grant: Grant, jti: string, roles: seq<string>, signedAt: Millis)
    ensures var c := AccessPayload(issuer, grant, jti, roles, signedAt);
            && Describes(c, grant, jti, roles)
            && Claim(c, "iss") == Some(JString(issuer))
            && Claim(c, "exp") == Some(JNumber(Seconds(signedAt) + ACCESS_SECONDS))
            && Claim(c, "token_use") == Some(JString("access_token"))
  {
    TokenClaimValues(grant, jti, "access_token", roles);
  }

  /**
   * A token that passes the JWT expiry check at millisecond `t` still has an unexpired record, when
   * the record was saved no earlier than the token was signed. The record outlives the token by less
   * than a second plus that delay, and the token lives from signing for more than 3599 and at most
   * 3600 seconds: `end` is the first millisecond at which the expiry check fails.
   */
  lemma ExpiryConsistent(issuer: string, grant: Grant, jti: string, roles: seq<string>, token: string,
                         signedAt: Millis, savedAt: Millis)
    requires 0 < signedAt <= savedAt
    ensures var payload := AccessPayload(issuer, grant, jti, roles, signedAt);
            var row := AccessRow(grant, token, jti, savedAt);
            var end := (Seconds(signedAt) + ACCESS_SECONDS) * 1000;
            && (forall t :: Expired(payload, t) <==> end <= t)
            && (forall t :: !Expired(payload, t) ==> AccessLive(row, t))
            && 0 <= row.expiresAt - end < 1000 + (savedAt - signedAt)
            && 3599000 < end - signedAt <= 3600000
  {
    PayloadClaims(issuer, grant, jti, roles, signedAt);
  }

  /**
   * Whatever else the store holds: while the record of an issued token is stored, its session (if
   * any) is live, its key is trusted and its JWT is unexpired, both checks accept it, with the
   * subject, the workspace and the roles it was issued for.
   */
  lemma IssuedTokenAccepted(p: Platform, s: PubAuthState, service: KeyService, signer: Signer, grant: Grant, jti: string,
                            roles: seq<string>, signedAt: Millis, savedAt: Millis, now: Millis)
    requires Sound(p) && CanSign(signer) && p.isKeyPair(KeyOf(signer).privateKey, KeyOf(signer).publicKey)
    requires Trusts(service, KeyOf(signer).keyId, KeyOf(signer).publicKey)
    requires grant.clientId != "" && grant.subjectId != "" && grant.workspaceId != ""
    requires forall i, j :: 0 <= i < j < |roles| ==> roles[i] != roles[j]
    requires 0 < signedAt <= savedAt && now < (Seconds(signedAt) + ACCESS_SECONDS) * 1000
    requires var token := SignPayload(p, KeyOf(signer), AccessPayload(signer.issuer, grant, jti, roles, signedAt));
             Lookup(s.accessTokens, AccessKey, token) == Some(AccessRow(grant, token, jti, savedAt))
    requires Truthy(grant.sessionId) ==> SessionLive(FindSession(s, grant.sessionId.value), now)
    ensures var token := SignPayload(p, KeyOf(signer), AccessPayload(signer.issuer, grant, jti, roles, signedAt));
            && VerifyBearer(p, s, service, signer.issuer, token, now)
               == Some(Principal(grant.subjectId, grant.workspaceId, roles, []))
            && GetUserInfo(p, s, service, signer.issuer, token, now)
               == Ok(UserInfo(grant.subjectId, Some(grant.workspaceId), Some(roles), Some([])))
  {
    var payload := AccessPayload(signer.issuer, grant, jti, roles, signedAt);
    var token := SignPayload(p, KeyOf(signer), payload);
    PayloadClaims(signer.issuer, grant, jti, roles, signedAt);
    ExpiryConsistent(signer.issuer, grant, jti, roles, token, signedAt, savedAt);
    IssuedPayloadValid(signer.issuer, grant, jti, roles, signedAt, now);
    TrustedTokenVerifies(p, service, KeyOf(signer), payload, AccessOptions(signer.issuer), now);
    assert AccessLive(AccessRow(grant, token, jti, savedAt), now);
    DescribedBearerAccepted(s, token, payload, grant, jti, roles, now);
    DescribedInfoReturned(s, token, payload, grant, jti, roles, now);
  }

  /** Both readers return an issued role list unchanged. */
  lemma IssuedLists(roles: seq<string>)
    requires forall i, j :: 0 <= i < j < |roles| ==> roles[i] != roles[j]
    ensures ReadClaimList(Some(JArray(MapRows(roles, AsJson)))) == Some(roles)
    ensures NormalizeList(Some(JArray(MapRows(roles, AsJson)))) == Some(roles)
    ensures ReadClaimList(Some(JArray([]))) == NormalizeList(Some(JArray([]))) == Some([])
  {
    StringClaims(roles);
    DistinctFixed(roles);
    assert Strings([]) == [] && Distinct([]) == [];
  }

  /** The record of a described token is live, and so is its session, if it has one. */
  ghost predicate RecordOk(s: PubAuthState, token: string, grant: Grant, jti: string, now: Millis) {
    && FindAccess(s, token, now).Some?
    && FindAccess(s, token, now).value.jti == jti
    && FindAccess(s, token, now).value.sessionId == grant.sessionId
    && (Truthy(grant.sessionId) ==> SessionLive(FindSession(s, grant.sessionId.value), now))
  }

  lemma DescribedBearerAccepted(s: PubAuthState, token: string, payload: Claims, grant: Grant, jti: string,
                                roles: seq<string>, now: Millis)
    requires Describes(payload, grant, jti, roles) && RecordOk(s, token, grant, jti, now)
    requires grant.clientId != "" && grant.subjectId != "" && grant.workspaceId != ""
    requires forall i, j :: 0 <= i < j < |roles| ==> roles[i] != roles[j]
    ensures BearerPrincipal(s, payload, token, now) == Some(Principal(grant.subjectId, grant.workspaceId, roles, []))
  {
    IssuedLists(roles);
  }

  lemma DescribedInfoReturned(s: PubAuthState, token: string, payload: Claims, grant: Grant, jti: string,
                              roles: seq<string>, now: Millis)
    requires Describes(payload, grant, jti, roles) && RecordOk(s, token, grant, jti, now)
    requires grant.clientId != ""
    requires forall i, j :: 0 <= i < j < |roles| ==> roles[i] != roles[j]
    ensures InfoOf(payload, FindAccess(s, token, now).value)
            == Ok(UserInfo(grant.subjectId, Some(grant.workspaceId), Some(roles), Some([])))
  {
    IssuedLists(roles);
  }

  lemma IssuedPayloadValid(issuer: string, grant: Grant, jti: string, roles: seq<string>, signedAt: Millis, now: Millis)
    requires now < (Seconds(signedAt) + ACCESS_SECONDS) * 1000
    ensures ValidatePayload(AccessPayload(issuer, grant, jti, roles, signedAt), AccessOptions(issuer), now).None?
  {
    PayloadClaims(issuer, grant, jti, roles, signedAt);
  }
}
