/** Repositories over the state file, and the Redis repository that must answer like one of them. */
module Stores {
  import opened Tables
  import opened Model

  predicate IsTimeInFuture(value: Millis, now: Millis) {
    value > now
  }

  /* ---------- authorization codes ---------- */

  predicate IsAuthorizationCodeUsable(code: AuthorizationCode, now: Millis) {
    code.usedAt.None? && code.expiresAt > now
  }

  function SaveCode(s: PubAuthState, code: AuthorizationCode): PubAuthState {
    s.(authorizationCodes := Upsert(s.authorizationCodes, CodeKey, code))
  }

  function FindUsable(s: PubAuthState, codeHash: string, now: Millis): (code: Option<AuthorizationCode>)
    ensures code.Some? ==> code.value in s.authorizationCodes && code.value.codeHash == codeHash
    ensures code.Some? ==> IsAuthorizationCodeUsable(code.value, now)
  {
    var code := Lookup(s.authorizationCodes, CodeKey, codeHash);
    if code.Some? && IsAuthorizationCodeUsable(code.value, now) then code else None
  }

  function MarkUsed(s: PubAuthState, codeHash: string, now: Millis): PubAuthState {
    s.(authorizationCodes :=
    UpdateWhere(s.authorizationCodes, (c: AuthorizationCode) => c.codeHash == codeHash, (c: AuthorizationCode) => c.(usedAt := Some(now))))
  }

  class FileAuthorizationCodeStore {
    const file: StateFile

    constructor (file: StateFile)
      ensures this.file == file
    {
      this.file := file;
    }

    method Save(code: AuthorizationCode)
      modifies file
      ensures file.state == SaveCode(old(file.state), code)
    {
      file.state := file.state.(authorizationCodes := Upsert(file.state.authorizationCodes, CodeKey, code));
    }

    method Find(codeHash: string, now: Millis) returns (code: Option<AuthorizationCode>)
      ensures code == FindUsable(file.state, codeHash, now)
    {
      code := Lookup(file.state.authorizationCodes, CodeKey, codeHash);
      if code.Some? && !IsAuthorizationCodeUsable(code.value, now) {
        code := None;
      }
    }

    method Mark(codeHash: string, now: Millis)
      modifies file
      ensures file.state == MarkUsed(old(file.state), codeHash, now)
    {
      file.state := MarkUsed(file.state, codeHash, now);
    }

    /** Returns a usable code once: when it returns one, no row with that hash is usable any more. */
    method Consume(codeHash: string, now: Millis) returns (code: Option<AuthorizationCode>)
      modifies file
      ensures code == FindUsable(old(file.state), codeHash, now)
      ensures code.None? ==> file.state == old(file.state)
      ensures code.Some? ==> file.state == MarkUsed(old(file.state), codeHash, now)
      ensures code.Some? ==> forall later :: FindUsable(file.state, codeHash, later).None?
    {
      code := Find(codeHash, now);
      if code.Some? {
        Mark(codeHash, now);
        MarkedIsUnusable(old(file.state), codeHash, now);
      }
    }
  }

  lemma MarkedIsUnusable(s: PubAuthState, codeHash: string, now: Millis)
    ensures forall later :: FindUsable(MarkUsed(s, codeHash, now), codeHash, later).None?
  {
    var rows := MarkUsed(s, codeHash, now).authorizationCodes;
    assert forall i :: 0 <= i < |rows| && rows[i].codeHash == codeHash ==> rows[i].usedAt.Some?;
  }

  /* ---------- access tokens ---------- */

  function SaveAccess(s: PubAuthState, token: AccessToken): PubAuthState {
    s.(accessTokens := Upsert(s.accessTokens, AccessKey, token))
  }

  predicate AccessLive(token: AccessToken, now: Millis) {
    token.revokedAt.None? && token.expiresAt > now
  }

  function FindAccess(s: PubAuthState, accessToken: string, now: Millis): Option<AccessToken> {
    var token := Lookup(s.accessTokens, AccessKey, accessToken);
    if token.Some? && AccessLive(token.value, now) then token else None
  }

  class FileAccessTokenStore {
    const file: StateFile

    constructor (file: StateFile)
      ensures this.file == file
    {
      this.file := file;
    }

    method Save(token: AccessToken)
      modifies file
      ensures file.state == SaveAccess(old(file.state), token)
    {
      file.state := file.state.(accessTokens := Upsert(file.state.accessTokens, AccessKey, token));
    }

    method Find(accessToken: string, now: Millis) returns (token: Option<AccessToken>)
      ensures token == FindAccess(file.state, accessToken, now)
    {
      token := Lookup(file.state.accessTokens, AccessKey, accessToken);
      if token.Some? && (token.value.revokedAt.Some? || token.value.expiresAt <= now) {
        token := None;
      }
    }
  }

  /* ---------- refresh tokens, as rows ---------- */

  function SaveRefresh(rows: seq<RefreshToken>, token: RefreshToken): seq<RefreshToken> {
    Upsert(rows, RefreshKey, token)
  }

  /** `find`: expired rows are hidden, revoked ones are not. */
  function FindRefresh(rows: seq<RefreshToken>, hash: string, now: Millis): (token: Option<RefreshToken>)
    ensures token.Some? ==> token.value in rows && token.value.refreshTokenHash == hash && token.value.expiresAt > now
  {
    var token := Lookup(rows, RefreshKey, hash);
    if token.Some? && IsTimeInFuture(token.value.expiresAt, now) then token else None
  }

  function Revoke(token: RefreshToken, now: Millis): RefreshToken {
    token.(revokedAt := Some(now))
  }

  function RevokeRefresh(rows: seq<RefreshToken>, hash: string, now: Millis): seq<RefreshToken> {
    UpdateWhere(rows, (r: RefreshToken) => r.refreshTokenHash == hash, (r: RefreshToken) => Revoke(r, now))
  }

  function RevokeFamily(rows: seq<RefreshToken>, familyId: string, now: Millis): seq<RefreshToken> {
    UpdateWhere(rows, (r: RefreshToken) => r.familyId == familyId, (r: RefreshToken) => Revoke(r, now))
  }

  class FileRefreshTokenRepository {
    const file: StateFile

    constructor (file: StateFile)
      ensures this.file == file
    {
      this.file := file;
    }

    method Save(token: RefreshToken)
      modifies file
      ensures file.state == old(file.state).(refreshTokens := SaveRefresh(old(file.state).refreshTokens, token))
    {
      file.state := file.state.(refreshTokens := Upsert(file.state.refreshTokens, RefreshKey, token));
    }

    method Find(hash: string, now: Millis) returns (token: Option<RefreshToken>)
      ensures token == FindRefresh(file.state.refreshTokens, hash, now)
    {
      token := Lookup(file.state.refreshTokens, RefreshKey, hash);
      if token.Some? && !IsTimeInFuture(token.value.expiresAt, now) {
        token := None;
      }
    }

    method RevokeOne(hash: string, now: Millis)
      modifies file
      ensures file.state == old(file.state).(refreshTokens := RevokeRefresh(old(file.state).refreshTokens, hash, now))
    {
      file.state := file.state.(refreshTokens := RevokeRefresh(file.state.refreshTokens, hash, now));
    }

    method RevokeAll(familyId: string, now: Millis)
      modifies file
      ensures file.state == old(file.state).(refreshTokens := file.state.refreshTokens)
      ensures |file.state.refreshTokens| == |old(file.state).refreshTokens|
      ensures forall i :: 0 <= i < |file.state.refreshTokens| ==>
                var row := old(file.state).refreshTokens[i];
                file.state.refreshTokens[i] == if row.familyId == familyId then row.(revokedAt := Some(now)) else row
      ensures file.state.refreshTokens == RevokeFamily(old(file.state).refreshTokens, familyId, now)
    {
      file.state := file.state.(refreshTokens := RevokeFamily(file.state.refreshTokens, familyId, now));
    }
  }

  /* ---------- refresh tokens, key by key ---------- */

  type RedisTable = map<string, RefreshToken>

  function RedisFind(table: RedisTable, hash: string, now: Millis): Option<RefreshToken> {
    if hash in table && IsTimeInFuture(table[hash].expiresAt, now) then Some(table[hash]) else None
  }

  /** `revoke` rewrites only a row that `find` still returns. */
  function RedisRevoke(table: RedisTable, hash: string, now: Millis): RedisTable {
    var token := RedisFind(table, hash, now);
    if token.None? then table else table[token.value.refreshTokenHash := Revoke(token.value, now)]
  }

  function RedisRevokeFamily(table: RedisTable, familyId: string, now: Millis): RedisTable {
    map hash | hash in table :: if table[hash].familyId == familyId then Revoke(table[hash], now) else table[hash]
  }

  class RedisRefreshTokenRepository {
    var table: RedisTable

    constructor ()
      ensures table == map[]
    {
      table := map[];
    }

    method Save(token: RefreshToken)
      modifies this
      ensures table == old(table)[token.refreshTokenHash := token]
    {
      table := table[token.refreshTokenHash := token];
    }

    method Find(hash: string, now: Millis) returns (token: Option<RefreshToken>)
      ensures token == RedisFind(table, hash, now)
    {
      if hash !in table || !IsTimeInFuture(table[hash].expiresAt, now) {
        return None;
      }
      return Some(table[hash]);
    }

    method RevokeOne(hash: string, now: Millis)
      modifies this
      ensures table == RedisRevoke(old(table), hash, now)
    {
      var token := Find(hash, now);
      if token.None? {
        return;
      }
      Save(Revoke(token.value, now));
    }

    /** The loop over the keys that `client.keys` listed, in whatever order. */
    method RevokeAll(familyId: string, now: Millis, keys: seq<string>)
      requires forall hash :: hash in table ==> hash in keys
      modifies this
      ensures table == RedisRevokeFamily(old(table), familyId, now)
    {
      for i := 0 to |keys|
        invariant table.Keys == old(table).Keys
        invariant forall hash :: hash in table ==>
                    table[hash] == if hash in keys[..i] && old(table)[hash].familyId == familyId
                                   then Revoke(old(table)[hash], now) else old(table)[hash]
      {
        var key := keys[i];
        if key in table {
          var token := table[key];
          if token.familyId == familyId {
            table := table[key := Revoke(token, now)];
          }
        }
        assert keys[..i + 1] == keys[..i] + [key];
      }
      assert keys[..|keys|] == keys;
    }
  }

  /* ---------- the two refresh repositories answer alike ---------- */

  datatype RefreshOp = SaveOp(token: RefreshToken) | FindOp(hash: string) | RevokeOp(hash: string) | RevokeFamilyOp(familyId: string)

  datatype TimedOp = TimedOp(now: Millis, op: RefreshOp)

  function FileStep(rows: seq<RefreshToken>, t: TimedOp): seq<RefreshToken> {
    match t.op
    case SaveOp(token) => SaveRefresh(rows, token)
    case FindOp(_) => rows
    case RevokeOp(hash) => RevokeRefresh(rows, hash, t.now)
    case RevokeFamilyOp(familyId) => RevokeFamily(rows, familyId, t.now)
  }

  function RedisStep(table: RedisTable, t: TimedOp): RedisTable {
    match t.op
    case SaveOp(token) => table[token.refreshTokenHash := token]
    case FindOp(_) => table
    case RevokeOp(hash) => RedisRevoke(table, hash, t.now)
    case RevokeFamilyOp(familyId) => RedisRevokeFamily(table, familyId, t.now)
  }

  /** The answers of all `find` calls, in order. */
  function FileFinds(rows: seq<RefreshToken>, ops: seq<TimedOp>): seq<Option<RefreshToken>>
    decreases |ops|
  {
    if ops == [] then []
    else
      (if ops[0].op.FindOp? then [FindRefresh(rows, ops[0].op.hash, ops[0].now)] else [])
      + FileFinds(FileStep(rows, ops[0]), ops[1..])
  }

  function RedisFinds(table: RedisTable, ops: seq<TimedOp>): seq<Option<RefreshToken>>
    decreases |ops|
  {
    if ops == [] then []
    else
      (if ops[0].op.FindOp? then [RedisFind(table, ops[0].op.hash, ops[0].now)] else [])
      + RedisFinds(RedisStep(table, ops[0]), ops[1..])
  }

  /** Equal rows, or rows that differ only in `revokedAt` and have expired. */
  ghost predicate SameAnswer(fileRow: Option<RefreshToken>, redisRow: Option<RefreshToken>, now: Millis) {
    || fileRow == redisRow
    || (fileRow.Some? && redisRow.Some? && fileRow.value.expiresAt <= now
        && fileRow.value == redisRow.value.(revokedAt := fileRow.value.revokedAt))
  }

  function RedisRow(table: RedisTable, hash: string): Option<RefreshToken> {
    if hash in table then Some(table[hash]) else None
  }

  ghost predicate Simulates(rows: seq<RefreshToken>, table: RedisTable, now: Millis) {
    && (forall hash :: hash in table ==> table[hash].refreshTokenHash == hash)
    && forall hash :: SameAnswer(Lookup(rows, RefreshKey, hash), RedisRow(table, hash), now)
  }

  lemma SaveSimulates(rows: seq<RefreshToken>, table: RedisTable, now: Millis, token: RefreshToken)
    requires Simulates(rows, table, now)
    ensures Simulates(SaveRefresh(rows, token), table[token.refreshTokenHash := token], now)
  {
    forall hash
      ensures SameAnswer(Lookup(SaveRefresh(rows, token), RefreshKey, hash), RedisRow(table[token.refreshTokenHash := token], hash), now)
    {
      LookupUpsert(rows, RefreshKey, token, hash);
    }
  }

  lemma RevokeSimulates(rows: seq<RefreshToken>, table: RedisTable, now: Millis, h: string)
    requires Simulates(rows, table, now)
    ensures Simulates(RevokeRefresh(rows, h, now), RedisRevoke(table, h, now), now)
  {
    forall hash
      ensures SameAnswer(Lookup(RevokeRefresh(rows, h, now), RefreshKey, hash), RedisRow(RedisRevoke(table, h, now), hash), now)
    {
      LookupUpdate(rows, RefreshKey, (r: RefreshToken) => r.refreshTokenHash == h, (r: RefreshToken) => Revoke(r, now), hash);
    }
  }

  lemma RevokeFamilySimulates(rows: seq<RefreshToken>, table: RedisTable, now: Millis, familyId: string)
    requires Simulates(rows, table, now)
    ensures Simulates(RevokeFamily(rows, familyId, now), RedisRevokeFamily(table, familyId, now), now)
  {
    forall hash
      ensures SameAnswer(Lookup(RevokeFamily(rows, familyId, now), RefreshKey, hash), RedisRow(RedisRevokeFamily(table, familyId, now), hash), now)
    {
      LookupUpdate(rows, RefreshKey, (r: RefreshToken) => r.familyId == familyId, (r: RefreshToken) => Revoke(r, now), hash);
    }
  }

  lemma LaterSimulates(rows: seq<RefreshToken>, table: RedisTable, now: Millis, later: Millis)
    requires Simulates(rows, table, now) && now <= later
    ensures Simulates(rows, table, later)
  {
    assert forall hash :: SameAnswer(Lookup(rows, RefreshKey, hash), RedisRow(table, hash), now) ==>
                            SameAnswer(Lookup(rows, RefreshKey, hash), RedisRow(table, hash), later);
  }

  lemma StepSimulates(rows: seq<RefreshToken>, table: RedisTable, now: Millis, t: TimedOp)
    requires Simulates(rows, table, now) && now <= t.now
    ensures Simulates(FileStep(rows, t), RedisStep(table, t), t.now)
  {
    LaterSimulates(rows, table, now, t.now);
    match t.op
    case SaveOp(token) => SaveSimulates(rows, table, t.now, token);
    case FindOp(_) =>
    case RevokeOp(hash) => RevokeSimulates(rows, table, t.now, hash);
    case RevokeFamilyOp(familyId) => RevokeFamilySimulates(rows, table, t.now, familyId);
  }

  lemma {:induction false} FindsAgreeFrom(rows: seq<RefreshToken>, table: RedisTable, now: Millis, ops: seq<TimedOp>)
    requires Simulates(rows, table, now)
    requires ops != [] ==> now <= ops[0].now
    requires forall i, j :: 0 <= i < j < |ops| ==> ops[i].now <= ops[j].now
    ensures FileFinds(rows, ops) == RedisFinds(table, ops)
    decreases |ops|
  {
    if ops != [] {
      var t := ops[0];
      if t.op.FindOp? {
        assert SameAnswer(Lookup(rows, RefreshKey, t.op.hash), RedisRow(table, t.op.hash), now);
      }
      StepSimulates(rows, table, now, t);
      FindsAgreeFrom(FileStep(rows, t), RedisStep(table, t), t.now, ops[1..]);
    }
  }

  /** With a clock that never runs backwards, no `find` tells the two repositories apart. */
  lemma RedisAnswersLikeFile(ops: seq<TimedOp>)
    requires forall i, j :: 0 <= i < j < |ops| ==> ops[i].now <= ops[j].now
    ensures FileFinds([], ops) == RedisFinds(map[], ops)
  {
    if ops != [] {
      FindsAgreeFrom([], map[], ops[0].now, ops);
    }
  }

  /** Both repositories hold the same row, or none, under every hash. */
  ghost predicate SameRows(rows: seq<RefreshToken>, table: RedisTable) {
    forall hash :: Lookup(rows, RefreshKey, hash) == RedisRow(table, hash)
  }

  /** From equal rows, a revoke keeps them equal exactly when its row is missing, unexpired, or already so revoked. */
  lemma RevokeKeepsRowsIff(rows: seq<RefreshToken>, table: RedisTable, h: string, now: Millis)
    requires SameRows(rows, table)
    ensures SameRows(RevokeRefresh(rows, h, now), RedisRevoke(table, h, now))
            <==> h !in table || table[h].expiresAt > now || table[h].revokedAt == Some(now)
  {
    forall hash
      ensures Lookup(RevokeRefresh(rows, h, now), RefreshKey, hash)
              == match Lookup(rows, RefreshKey, hash)
                 case None => None
                 case Some(r) => Some(if hash == h then Revoke(r, now) else r)
    {
      LookupUpdate(rows, RefreshKey, (r: RefreshToken) => r.refreshTokenHash == h, (r: RefreshToken) => Revoke(r, now), hash);
    }
    assert Lookup(rows, RefreshKey, h) == RedisRow(table, h);
    if h in table && table[h].expiresAt <= now && table[h].revokedAt != Some(now) {
      assert Lookup(RevokeRefresh(rows, h, now), RefreshKey, h) != RedisRow(RedisRevoke(table, h, now), h);
    }
  }

  /** Every other operation keeps equal rows equal. */
  lemma OthersKeepRows(rows: seq<RefreshToken>, table: RedisTable, t: TimedOp)
    requires SameRows(rows, table) && !t.op.RevokeOp?
    ensures SameRows(FileStep(rows, t), RedisStep(table, t))
  {
    forall hash
      ensures Lookup(FileStep(rows, t), RefreshKey, hash) == RedisRow(RedisStep(table, t), hash)
    {
      assert Lookup(rows, RefreshKey, hash) == RedisRow(table, hash);
      match t.op
      case SaveOp(token) => LookupUpsert(rows, RefreshKey, token, hash);
      case FindOp(_) =>
      case RevokeFamilyOp(f) =>
        LookupUpdate(rows, RefreshKey, (r: RefreshToken) => r.familyId == f, (r: RefreshToken) => Revoke(r, t.now), hash);
    }
  }

  /**
   * The stored rows may differ all the same: revoking an expired token marks the file row only. A
   * clock set back before the expiry would then show the difference.
   */
  lemma ExpiredRowsDiffer(token: RefreshToken, now: Millis, earlier: Millis)
    requires token.revokedAt.None? && earlier < token.expiresAt <= now
    ensures RevokeRefresh([token], token.refreshTokenHash, now) == [Revoke(token, now)]
    ensures RedisRevoke(map[token.refreshTokenHash := token], token.refreshTokenHash, now) == map[token.refreshTokenHash := token]
    ensures FindRefresh([Revoke(token, now)], token.refreshTokenHash, earlier)
            != RedisFind(map[token.refreshTokenHash := token], token.refreshTokenHash, earlier)
  {
  }

  /* ---------- sessions ---------- */

  function FindSession(s: PubAuthState, id: string): Option<AuthSession> {
    Lookup(s.sessions, SessionKey, id)
  }

  function SaveSession(s: PubAuthState, session: AuthSession): PubAuthState {
    s.(sessions := Upsert(s.sessions, SessionKey, session))
  }

  function RevokeSession(s: PubAuthState, id: string, now: Millis): PubAuthState {
    s.(sessions := UpdateWhere(s.sessions, (r: AuthSession) => r.id == id, (r: AuthSession) => r.(revokedAt := Some(now))))
  }

  predicate SessionLive(session: Option<AuthSession>, now: Millis) {
    session.Some? && session.value.revokedAt.None? && session.value.expiresAt > now
  }

  class FileSessionRepository {
    const file: StateFile

    constructor (file: StateFile)
      ensures this.file == file
    {
      this.file := file;
    }

    method GetById(id: string) returns (session: Option<AuthSession>)
      ensures session == FindSession(file.state, id)
    {
      session := Lookup(file.state.sessions, SessionKey, id);
    }

    method Save(session: AuthSession)
      modifies file
      ensures file.state == SaveSession(old(file.state), session)
    {
      file.state := file.state.(sessions := Upsert(file.state.sessions, SessionKey, session));
    }

    method RevokeOne(id: string, now: Millis)
      modifies file
      ensures file.state == old(file.state).(sessions := file.state.sessions)
      ensures |file.state.sessions| == |old(file.state).sessions|
      ensures forall i :: 0 <= i < |file.state.sessions| ==>
                var row := old(file.state).sessions[i];
                file.state.sessions[i] == if row.id == id then row.(revokedAt := Some(now)) else row
      ensures file.state.sessions == RevokeSession(old(file.state), id, now).sessions
      ensures !SessionLive(FindSession(file.state, id), now)
    {
      file.state := RevokeSession(file.state, id, now);
    }
  }
}
