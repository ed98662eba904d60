/** The overlaps do occur: executions from an empty token store that end in each failure, for any client and any code. */
module Races {
  import opened Tables
  import opened Text
  import opened Jwt
  import opened Model
  import opened Stores
  import opened TokenIssuer
  import opened Authorization
  import opened Acceptance
  import opened TokenRuns
  import opened Interleavings
  import opened Overlaps

  /** A list of worlds, each made from the one before by a drawn move. */
  ghost predicate Path(p: Platform, worlds: seq<World>, moves: seq<Move>) {
    && |worlds| == |moves| + 1
    && forall k :: 0 <= k < |moves| ==> Drawn(p, worlds[k], moves[k]) && worlds[k + 1] == Do(p, worlds[k], moves[k])
  }

  /** Some moves lead from `s` to `w`. */
  ghost predicate Leads(p: Platform, s: World, w: World) {
    exists worlds: seq<World>, moves: seq<Move> :: Path(p, worlds, moves) && worlds[0] == s && worlds[|moves|] == w
  }

  lemma LeadsNowhere(p: Platform, w: World)
    ensures Leads(p, w, w)
  {
    var worlds: seq<World>, moves: seq<Move> := [w], [];
    assert Path(p, worlds, moves) && worlds[0] == w && worlds[|moves|] == w;
  }

  lemma ReachMove(p: Platform, s: World, w: World, move: Move)
    requires Leads(p, s, w) && Drawn(p, w, move)
    ensures Leads(p, s, Do(p, w, move))
  {
    var worlds: seq<World>, moves: seq<Move> :| Path(p, worlds, moves) && worlds[0] == s && worlds[|moves|] == w;
    PathGrows(p, worlds, moves, move);
    var worlds', moves' := worlds + [Do(p, w, move)], moves + [move];
    assert worlds'[0] == s && worlds'[|moves'|] == Do(p, w, move);
  }

  lemma PathGrows(p: Platform, worlds: seq<World>, moves: seq<Move>, move: Move)
    requires Path(p, worlds, moves) && Drawn(p, worlds[|moves|], move)
    ensures Path(p, worlds + [Do(p, worlds[|moves|], move)], moves + [move])
  {
    var worlds', moves' := worlds + [Do(p, worlds[|moves|], move)], moves + [move];
    forall k | 0 <= k < |moves'|
      ensures Drawn(p, worlds'[k], moves'[k]) && worlds'[k + 1] == Do(p, worlds'[k], moves'[k])
    {
      if k < |moves| {
        assert worlds'[k] == worlds[k] && worlds'[k + 1] == worlds[k + 1];
      }
    }
  }

  /** The world of a state before any request. */
  function Start(db: PubAuthState): World {
    World(db, [], {}, map[], map[])
  }

  /** From an empty token store, what moves lead to is what some execution reaches. */
  lemma LeadsIsExecution(p: Platform, db: PubAuthState, w: World)
    requires db.authorizationCodes == [] && db.accessTokens == [] && db.refreshTokens == []
    ensures Leads(p, Start(db), w) <==>
            exists worlds: seq<World>, moves: seq<Move> :: Execution(p, worlds, moves) && worlds[0] == Start(db) && worlds[|moves|] == w
  {
    assert Initial(Start(db));
    if Leads(p, Start(db), w) {
      var worlds: seq<World>, moves: seq<Move> :| Path(p, worlds, moves) && worlds[0] == Start(db) && worlds[|moves|] == w;
      assert Execution(p, worlds, moves);
    }
    if worlds: seq<World>, moves: seq<Move> :| Execution(p, worlds, moves) && worlds[0] == Start(db) && worlds[|moves|] == w {
      assert Path(p, worlds, moves);
    }
  }

  /** The world in which one code was issued and nothing else happened. */
  function CodeWorld(p: Platform, db: PubAuthState, request: AuthorizationRequest, code: string, now: Millis): World {
    World(Authorize(p, db, request, code, now).0, [Finished(true)], {p.sha256Hex(code)}, map[], map[])
  }

  lemma ReachAuthorized(p: Platform, db: PubAuthState, request: AuthorizationRequest, code: string, now: Millis)
    requires db.authorizationCodes == [] && db.accessTokens == [] && db.refreshTokens == []
    requires CheckAuthorize(db, request).Ok?
    ensures Leads(p, Start(db), World(db, [AuthorizeSave(CodeRow(request, CheckAuthorize(db, request).value, p.sha256Hex(code), now))],
                               {p.sha256Hex(code)}, map[], map[]))
  {
    var w0 := Start(db);
    var w1 := w0.(tasks := [AuthorizeLookup(request)]);
    var a, b := Begin(AuthorizeLookup(request)), Proceed(0, IdleInput(now).(secret := code));
    LeadsNowhere(p, w0);
    ReachMove(p, Start(db), w0, a);
    assert Do(p, w0, a) == w1;
    ReachMove(p, Start(db), w1, b);
  }

  lemma ReachCode(p: Platform, db: PubAuthState, request: AuthorizationRequest, code: string, now: Millis)
    requires db.authorizationCodes == [] && db.accessTokens == [] && db.refreshTokens == []
    requires CheckAuthorize(db, request).Ok?
    ensures Leads(p, Start(db), CodeWorld(p, db, request, code, now))
  {
    var row := CodeRow(request, CheckAuthorize(db, request).value, p.sha256Hex(code), now);
    var w := World(db, [AuthorizeSave(row)], {p.sha256Hex(code)}, map[], map[]);
    ReachAuthorized(p, db, request, code, now);
    ReachMove(p, Start(db), w, Proceed(0, IdleInput(now)));
  }

  function FindTask(req: TokenRequest): Task {
    if req.grantType.CodeGrant? then CodeFind(req) else RefreshFind(req)
  }

  /** A request of an authenticated client can always arrive and get as far as its find. */
  lemma ReachFind(p: Platform, s: World, w: World, req: TokenRequest)
    requires Leads(p, s, w) && ClientOk(p, w.db, req) && !req.grantType.OtherGrant?
    ensures Leads(p, s, w.(tasks := w.tasks + [FindTask(req)]))
  {
    var a, b := Begin(ClientLookup(req)), Proceed(|w.tasks|, IdleInput(0));
    ReachMove(p, s, w, a);
    var w1 := Do(p, w, a);
    ReachMove(p, s, w1, b);
    assert w1.tasks[|w.tasks| := FindTask(req)] == w.tasks + [FindTask(req)];
    assert Do(p, w1, b) == w.(tasks := w.tasks + [FindTask(req)]);
  }

  lemma IssuedIsFound(p: Platform, db: PubAuthState, request: AuthorizationRequest, code: string, issuedAt: Millis,
                      req: TokenRequest,
                      now: Millis)
    requires CheckAuthorize(db, request).Ok? && req.code == Some(code) && code != ""
    requires CodePresented(p, Some(CodeRow(request, CheckAuthorize(db, request).value, p.sha256Hex(code), issuedAt)), req, now)
    ensures var found := CheckCode(p, Authorize(p, db, request, code, issuedAt).0, req, now);
            found == Ok(CodeRow(request, CheckAuthorize(db, request).value, p.sha256Hex(code), issuedAt))
  {
    var row := CodeRow(request, CheckAuthorize(db, request).value, p.sha256Hex(code), issuedAt);
    LookupUpsert(db.authorizationCodes, CodeKey, row, p.sha256Hex(code));
  }

  /** Two requests are about to look the one issued code up, and would find it good. */
  ghost predicate TwoFinds(p: Platform, w: World, db: PubAuthState, code: string, req: TokenRequest,
                           row: AuthorizationCode, now: Millis) {
    && w.tasks == [Finished(true), CodeFind(req), CodeFind(req)] && w.drawn == {p.sha256Hex(code)}
    && CheckCode(p, w.db, req, now) == Ok(row)
    && w.db.accessTokens == [] && w.db.refreshTokens == []
  }

  /** Some execution reaches a world in which two requests are about to find the same code good. */
  lemma DoubleExchangeReachable(p: Platform, db: PubAuthState, request: AuthorizationRequest, code: string, issuedAt: Millis,
                                req: TokenRequest, now: Millis)
    requires db.authorizationCodes == [] && db.accessTokens == [] && db.refreshTokens == []
    requires CheckAuthorize(db, request).Ok? && req.grantType.CodeGrant? && req.code == Some(code) && code != ""
    requires ClientOk(p, db, req)
    requires CodePresented(p, Some(CodeRow(request, CheckAuthorize(db, request).value, p.sha256Hex(code), issuedAt)), req, now)
    ensures var row := CodeRow(request, CheckAuthorize(db, request).value, p.sha256Hex(code), issuedAt);
            exists w :: Leads(p, Start(db), w) && TwoFinds(p, w, db, code, req, row, now) && FindsGood(p, w.db, CodeFind(req), now)
  {
    var w := CodeWorld(p, db, request, code, issuedAt);
    ReachCode(p, db, request, code, issuedAt);
    ReachFind(p, Start(db), w, req);
    var w1 := w.(tasks := w.tasks + [CodeFind(req)]);
    ReachFind(p, Start(db), w1, req);
    var w2 := w1.(tasks := w1.tasks + [CodeFind(req)]);
    IssuedIsFound(p, db, request, code, issuedAt, req, now);
    var row := CodeRow(request, CheckAuthorize(db, request).value, p.sha256Hex(code), issuedAt);
    assert TwoFinds(p, w2, db, code, req, row, now) && FindsGood(p, w2.db, CodeFind(req), now);
  }

  /* ---------- two rotations of one token ---------- */

  /** Values that one exchange draws. */
  datatype Drawing = Drawing(secret: string, familyId: string, jti: string, key: RsaJwtSigner)

  /** What the rest of an exchange leaves, from a request whose code was found good. */
  ghost predicate Exchanged(p: Platform, w: World, w': World, i: nat, grant: Grant, d: Drawing, now: Millis) {
    && i < |w.tasks|
    && w'.tasks == w.tasks[i := Finished(true)]
    && w'.db.clients == w.db.clients
    && w'.db.refreshTokens == SaveRefresh(w.db.refreshTokens, FreshRow(grant, p.sha256Hex(d.secret), d.familyId, now))
    && w'.drawn == w.drawn + {p.sha256Hex(d.secret)}
    && forall a :: a in w'.db.accessTokens ==> a in w.db.accessTokens || a.jti == d.jti
  }

  ghost predicate IdFree(w: World, jti: string) {
    forall a :: a in w.db.accessTokens ==> a.jti != jti
  }

  /** The code is marked and the roles are read; only the two saves are left. */
  ghost predicate AboutToSave(w: World, w': World, i: nat, hash: string, grant: Grant) {
    && i < |w.tasks| && i < |w'.tasks| && w'.tasks[i].IssueAccess?
    && w'.tasks == w.tasks[i := IssueAccess(grant, hash, w'.tasks[i].roles)]
    && w'.db.clients == w.db.clients && w'.db.refreshTokens == w.db.refreshTokens
    && w'.db.accessTokens == w.db.accessTokens && w'.drawn == w.drawn
  }

  lemma ReachMarked(p: Platform, s: World, w: World, i: nat, hash: string, grant: Grant, now: Millis)
    requires Leads(p, s, w) && i < |w.tasks| && w.tasks[i] == CodeMark(hash, grant)
    ensures exists w' :: Leads(p, s, w') && AboutToSave(w, w', i, hash, grant)
  {
    var move := Proceed(i, IdleInput(now));
    ReachMove(p, s, w, move);
    var w1 := Do(p, w, move);
    assert w1.tasks[i] == IssueClaims(grant, hash);
    ReachMove(p, s, w1, move);
    var w2 := Do(p, w1, move);
    assert w2.tasks == w.tasks[i := IssueAccess(grant, hash, w2.tasks[i].roles)];
    assert AboutToSave(w, w2, i, hash, grant);
  }

  lemma ReachAccessSaved(p: Platform, s: World, w: World, i: nat, hash: string, grant: Grant, roles: seq<string>, d: Drawing,
                         now: Millis)
    requires Leads(p, s, w) && i < |w.tasks| && w.tasks[i] == IssueAccess(grant, hash, roles) && IdFree(w, d.jti)
    ensures exists w' :: Leads(p, s, w') && w'.tasks == w.tasks[i := IssueRefresh(grant, hash)] && w'.db.clients == w.db.clients
                         && w'.db.refreshTokens == w.db.refreshTokens && w'.drawn == w.drawn
                         && forall a :: a in w'.db.accessTokens ==> a in w.db.accessTokens || a.jti == d.jti
  {
    var token := SignPayload(p, d.key, AccessPayload(d.key.issuer, grant, d.jti, roles, now));
    var move := Proceed(i, Input(now, "", token, d.jti, ""));
    assert Minted(p, w.tasks[i], move.input);
    ReachMove(p, s, w, move);
    assert Do(p, w, move).tasks == w.tasks[i := IssueRefresh(grant, hash)];
  }

  lemma ReachRefreshSaved(p: Platform, s: World, w: World, i: nat, hash: string, grant: Grant, d: Drawing, now: Millis)
    requires Leads(p, s, w) && i < |w.tasks| && w.tasks[i] == IssueRefresh(grant, hash) && p.sha256Hex(d.secret) !in w.drawn
    ensures exists w' :: Leads(p, s, w') && Exchanged(p, w, w', i, grant, d, now)
  {
    var move := Proceed(i, Input(now, d.secret, "", "", d.familyId));
    ReachMove(p, s, w, move);
    assert Exchanged(p, w, Do(p, w, move), i, grant, d, now);
  }

  lemma ReachIssued(p: Platform, s: World, w: World, i: nat, hash: string, grant: Grant, roles: seq<string>,
                    d: Drawing, now: Millis)
    requires Leads(p, s, w) && i < |w.tasks| && w.tasks[i] == IssueAccess(grant, hash, roles)
    requires IdFree(w, d.jti) && p.sha256Hex(d.secret) !in w.drawn
    ensures exists w' :: Leads(p, s, w') && Exchanged(p, w, w', i, grant, d, now)
  {
    ReachAccessSaved(p, s, w, i, hash, grant, roles, d, now);
    var w1 :| Leads(p, s, w1) && w1.tasks == w.tasks[i := IssueRefresh(grant, hash)] && w1.db.clients == w.db.clients
              && w1.db.refreshTokens == w.db.refreshTokens && w1.drawn == w.drawn
              && forall a :: a in w1.db.accessTokens ==> a in w.db.accessTokens || a.jti == d.jti;
    ReachRefreshSaved(p, s, w1, i, hash, grant, d, now);
    var w2 :| Leads(p, s, w2) && Exchanged(p, w1, w2, i, grant, d, now);
    assert w1.tasks[i := Finished(true)] == w.tasks[i := Finished(true)];
    assert Exchanged(p, w, w2, i, grant, d, now);
  }

  /** The rest of an exchange whose code was found good. */
  lemma ReachFinished(p: Platform, s: World, w: World, i: nat, hash: string, grant: Grant, d: Drawing, now: Millis)
    requires Leads(p, s, w) && i < |w.tasks| && w.tasks[i] == CodeMark(hash, grant)
    requires IdFree(w, d.jti) && p.sha256Hex(d.secret) !in w.drawn
    ensures exists w' :: Leads(p, s, w') && Exchanged(p, w, w', i, grant, d, now)
  {
    ReachMarked(p, s, w, i, hash, grant, now);
    var w1 :| Leads(p, s, w1) && AboutToSave(w, w1, i, hash, grant);
    ReachIssued(p, s, w1, i, hash, grant, w1.tasks[i].roles, d, now);
    var w2 :| Leads(p, s, w2) && Exchanged(p, w1, w2, i, grant, d, now);
    assert w1.tasks[i := Finished(true)] == w.tasks[i := Finished(true)];
    assert Exchanged(p, w, w2, i, grant, d, now);
  }

  /** Both exchanges found the code good and are about to mark it. */
  ghost predicate TwoMarks(p: Platform, w: World, code: string, hash: string, grant: Grant) {
    && w.tasks == [Finished(true), CodeMark(hash, grant), CodeMark(hash, grant)] && w.drawn == {p.sha256Hex(code)}
    && w.db.accessTokens == [] && w.db.refreshTokens == []
  }

  lemma ReachTwoMarks(p: Platform, db: PubAuthState, w: World, code: string, req: TokenRequest, row: AuthorizationCode,
                      now: Millis)
    requires TwoFinds(p, w, db, code, req, row, now)
    ensures exists w' :: Leads(p, w, w') && TwoMarks(p, w', code, row.codeHash, CodeOf(row))
  {
    var a, b := Proceed(1, IdleInput(now)), Proceed(2, IdleInput(now));
    LeadsNowhere(p, w);
    ReachMove(p, w, w, a);
    var w1 := Do(p, w, a);
    assert w1.tasks == [Finished(true), CodeMark(row.codeHash, CodeOf(row)), CodeFind(req)];
    ReachMove(p, w, w1, b);
    assert TwoMarks(p, Do(p, w1, b), code, row.codeHash, CodeOf(row));
  }

  /** Both exchanges of the code succeeded, and each stored a refresh token of its own. */
  ghost predicate ExchangedTwice(p: Platform, w: World, grant: Grant, d1: Drawing, d2: Drawing, now: Millis) {
    && w.tasks == [Finished(true), Finished(true), Finished(true)]
    && w.db.refreshTokens == [FreshRow(grant, p.sha256Hex(d1.secret), d1.familyId, now), FreshRow(grant, p.sha256Hex(d2.secret), d2.familyId, now)]
  }

  lemma TwoSaves(p: Platform, w: World, w': World, w'': World, code: string, hash: string, grant: Grant, d1: Drawing,
                 d2: Drawing, now: Millis)
    requires TwoMarks(p, w, code, hash, grant) && p.sha256Hex(d1.secret) != p.sha256Hex(d2.secret)
    requires Exchanged(p, w, w', 1, grant, d1, now) && Exchanged(p, w', w'', 2, grant, d2, now)
    ensures ExchangedTwice(p, w'', grant, d1, d2, now)
  {
    var a, b := FreshRow(grant, p.sha256Hex(d1.secret), d1.familyId, now), FreshRow(grant, p.sha256Hex(d2.secret), d2.familyId, now);
    assert w'.db.refreshTokens == [a];
    UpsertAppends([a], RefreshKey, b);
    assert [a] + [b] == [a, b];
  }

  lemma ReachExchangedTwice(p: Platform, s: World, w: World, code: string, hash: string, grant: Grant, d1: Drawing,
                            d2: Drawing, now: Millis)
    requires Leads(p, s, w) && TwoMarks(p, w, code, hash, grant)
    requires p.sha256Hex(d1.secret) != p.sha256Hex(code) && p.sha256Hex(d2.secret) != p.sha256Hex(code)
    requires p.sha256Hex(d1.secret) != p.sha256Hex(d2.secret) && d1.jti != d2.jti
    ensures exists w' :: Leads(p, s, w') && ExchangedTwice(p, w', grant, d1, d2, now)
  {
    ReachFinished(p, s, w, 1, hash, grant, d1, now);
    var w1 :| Leads(p, s, w1) && Exchanged(p, w, w1, 1, grant, d1, now);
    assert w1.tasks[2] == CodeMark(hash, grant) && IdFree(w1, d2.jti) && p.sha256Hex(d2.secret) !in w1.drawn;
    ReachFinished(p, s, w1, 2, hash, grant, d2, now);
    var w2 :| Leads(p, s, w2) && Exchanged(p, w1, w2, 2, grant, d2, now);
    TwoSaves(p, w, w1, w2, code, hash, grant, d1, d2, now);
  }

  /**
   * Every code that can be exchanged can be exchanged twice: from an empty token store some execution
   * reaches a world in which two requests are about to look the same code up, and from there one in
   * which both have succeeded and the code has brought two refresh tokens.
   */
  lemma DoubleExchangeSucceeds(p: Platform, db: PubAuthState, request: AuthorizationRequest, code: string, issuedAt: Millis,
                               req: TokenRequest, d1: Drawing, d2: Drawing, now: Millis)
    requires db.authorizationCodes == [] && db.accessTokens == [] && db.refreshTokens == []
    requires CheckAuthorize(db, request).Ok? && req.grantType.CodeGrant? && req.code == Some(code) && code != ""
    requires ClientOk(p, db, req)
    requires CodePresented(p, Some(CodeRow(request, CheckAuthorize(db, request).value, p.sha256Hex(code), issuedAt)), req, now)
    requires p.sha256Hex(d1.secret) != p.sha256Hex(code) && p.sha256Hex(d2.secret) != p.sha256Hex(code)
    requires p.sha256Hex(d1.secret) != p.sha256Hex(d2.secret) && d1.jti != d2.jti
    ensures var row := CodeRow(request, CheckAuthorize(db, request).value, p.sha256Hex(code), issuedAt);
            exists w, w' :: Leads(p, Start(db), w) && Leads(p, w, w')
                            && TwoFinds(p, w, db, code, req, row, now) && ExchangedTwice(p, w', CodeOf(row), d1, d2, now)
  {
    var row := CodeRow(request, CheckAuthorize(db, request).value, p.sha256Hex(code), issuedAt);
    DoubleExchangeReachable(p, db, request, code, issuedAt, req, now);
    var w :| Leads(p, Start(db), w) && TwoFinds(p, w, db, code, req, row, now);
    ReachTwoMarks(p, db, w, code, req, row, now);
    var w1 :| Leads(p, w, w1) && TwoMarks(p, w1, code, row.codeHash, CodeOf(row));
    ReachExchangedTwice(p, w, w1, code, row.codeHash, CodeOf(row), d1, d2, now);
  }

  /** The code was issued and one exchange of it found it good. */
  ghost predicate CodeFound(p: Platform, w: World, db: PubAuthState, code: string, grant: Grant) {
    && w.tasks == [Finished(true), CodeMark(p.sha256Hex(code), grant)] && w.drawn == {p.sha256Hex(code)}
    && w.db.clients == db.clients && w.db.refreshTokens == [] && w.db.accessTokens == []
  }

  lemma ReachCodeFound(p: Platform, db: PubAuthState, request: AuthorizationRequest, code: string, req: TokenRequest,
                       now: Millis)
    requires db.authorizationCodes == [] && db.accessTokens == [] && db.refreshTokens == []
    requires CheckAuthorize(db, request).Ok? && req.grantType.CodeGrant? && req.code == Some(code) && code != ""
    requires ClientOk(p, db, req)
    requires CodePresented(p, Some(CodeRow(request, CheckAuthorize(db, request).value, p.sha256Hex(code), now)), req, now)
    ensures var grant := CodeOf(CodeRow(request, CheckAuthorize(db, request).value, "", now));
            exists w :: Leads(p, Start(db), w) && CodeFound(p, w, db, code, grant)
  {
    var grant := CodeOf(CodeRow(request, CheckAuthorize(db, request).value, "", now));
    var w := CodeWorld(p, db, request, code, now);
    ReachCode(p, db, request, code, now);
    ReachFind(p, Start(db), w, req);
    var w1 := w.(tasks := w.tasks + [CodeFind(req)]);
    IssuedIsFound(p, db, request, code, now, req, now);
    var move := Proceed(1, IdleInput(now));
    ReachMove(p, Start(db), w1, move);
    var w2 := Do(p, w1, move);
    assert w2.tasks == [Finished(true), CodeMark(p.sha256Hex(code), grant)];
    assert CodeFound(p, w2, db, code, grant);
  }

  /** Both requests are done, and their one refresh token is this row. */
  ghost predicate OneTokenStored(p: Platform, w: World, db: PubAuthState, code: string, d: Drawing, row: RefreshToken) {
    && w.db.clients == db.clients && w.tasks == [Finished(true), Finished(true)]
    && w.db.refreshTokens == [row] && w.drawn == {p.sha256Hex(code), p.sha256Hex(d.secret)}
  }

  lemma FirstTokenStored(p: Platform, db: PubAuthState, w: World, w': World, code: string, grant: Grant, d: Drawing,
                         now: Millis)
    requires CodeFound(p, w, db, code, grant) && Exchanged(p, w, w', 1, grant, d, now)
    ensures OneTokenStored(p, w', db, code, d, FreshRow(grant, p.sha256Hex(d.secret), d.familyId, now))
  {
  }

  /** Some execution ends with the code exchanged and a refresh token stored. */
  lemma ReachExchanged(p: Platform, db: PubAuthState, request: AuthorizationRequest, code: string, req: TokenRequest,
                       d: Drawing, now: Millis)
    requires db.authorizationCodes == [] && db.accessTokens == [] && db.refreshTokens == []
    requires CheckAuthorize(db, request).Ok? && req.grantType.CodeGrant? && req.code == Some(code) && code != ""
    requires ClientOk(p, db, req)
    requires CodePresented(p, Some(CodeRow(request, CheckAuthorize(db, request).value, p.sha256Hex(code), now)), req, now)
    requires p.sha256Hex(d.secret) != p.sha256Hex(code)
    ensures var grant := CodeOf(CodeRow(request, CheckAuthorize(db, request).value, "", now));
            exists w :: Leads(p, Start(db), w) && OneTokenStored(p, w, db, code, d, FreshRow(grant, p.sha256Hex(d.secret), d.familyId, now))
  {
    var grant := CodeOf(CodeRow(request, CheckAuthorize(db, request).value, "", now));
    var hash := p.sha256Hex(code);
    ReachCodeFound(p, db, request, code, req, now);
    var w :| Leads(p, Start(db), w) && CodeFound(p, w, db, code, grant);
    ReachFinished(p, Start(db), w, 1, hash, grant, d, now);
    var w1 :| Leads(p, Start(db), w1) && Exchanged(p, w, w1, 1, grant, d, now);
    FirstTokenStored(p, db, w, w1, code, grant, d, now);
    assert OneTokenStored(p, w1, db, code, d, FreshRow(grant, p.sha256Hex(d.secret), d.familyId, now));
  }

  /** A request that finds an unspent token can always get as far as rotating it. */
  lemma ReachRotate(p: Platform, s: World, w: World, req: TokenRequest, row: RefreshToken, now: Millis)
    requires Leads(p, s, w) && ClientOk(p, w.db, req) && req.grantType.RefreshGrant? && Truthy(req.refreshToken)
    requires Lookup(w.db.refreshTokens, RefreshKey, p.sha256Hex(req.refreshToken.value)) == Some(row)
    requires row.clientId == req.clientId && row.revokedAt.None? && row.replacedByHash.None? && now < row.expiresAt
    ensures Leads(p, s, w.(tasks := w.tasks + [RefreshRotate(row, now, OriginOf(w.refreshOrigin, row.refreshTokenHash))]))
  {
    ReachFind(p, s, w, req);
    var n := |w.tasks|;
    var w1 := w.(tasks := w.tasks + [RefreshFind(req)]);
    var move := Proceed(n, IdleInput(now));
    ReachMove(p, s, w1, move);
    var task := RefreshRotate(row, now, OriginOf(w.refreshOrigin, row.refreshTokenHash));
    assert w1.tasks[n := task] == w.tasks + [task];
    assert Do(p, w1, move) == w.(tasks := w.tasks + [task]);
  }

  /**
   * Every refresh token that can be rotated can be rotated twice: some execution reaches a world in
   * which two requests are about to rotate the same token.
   */
  lemma DoubleRotationReachable(p: Platform, db: PubAuthState, request: AuthorizationRequest, code: string,
                                req: TokenRequest,
                                d: Drawing, again: TokenRequest, now: Millis)
    requires db.authorizationCodes == [] && db.accessTokens == [] && db.refreshTokens == []
    requires CheckAuthorize(db, request).Ok? && req.grantType.CodeGrant? && req.code == Some(code) && code != ""
    requires ClientOk(p, db, req)
    requires CodePresented(p, Some(CodeRow(request, CheckAuthorize(db, request).value, p.sha256Hex(code), now)), req, now)
    requires p.sha256Hex(d.secret) != p.sha256Hex(code)
    requires again.grantType.RefreshGrant? && again.refreshToken == Some(d.secret) && d.secret != ""
    requires ClientOk(p, db, again) && again.clientId == request.clientId
    ensures exists w :: Leads(p, Start(db), w) && TwoRotations(p, w, again, d.familyId) && w.drawn == {p.sha256Hex(code), p.sha256Hex(d.secret)}
                        && w.db.clients == db.clients
  {
    ReachExchanged(p, db, request, code, req, d, now);
    var grant := CodeOf(CodeRow(request, CheckAuthorize(db, request).value, "", now));
    var row := FreshRow(grant, p.sha256Hex(d.secret), d.familyId, now);
    var w :| Leads(p, Start(db), w) && OneTokenStored(p, w, db, code, d, row);
    SameClients(p, db, w.db, again);
    ReachTwoRotations(p, Start(db), w, again, row, now);
  }

  lemma ReachTwoRotations(p: Platform, s: World, w: World, again: TokenRequest, row: RefreshToken, now: Millis)
    requires Leads(p, s, w) && |w.tasks| == 2 && w.db.refreshTokens == [row]
    requires ClientOk(p, w.db, again) && again.grantType.RefreshGrant? && Truthy(again.refreshToken)
    requires row.refreshTokenHash == p.sha256Hex(again.refreshToken.value) && row.clientId == again.clientId
    requires row.revokedAt.None? && row.replacedByHash.None? && now < row.expiresAt
    ensures exists w' :: Leads(p, s, w') && TwoRotations(p, w', again, row.familyId) && w'.drawn == w.drawn && w'.db.clients == w.db.clients
  {
    ReachRotate(p, s, w, again, row, now);
    var task := RefreshRotate(row, now, OriginOf(w.refreshOrigin, row.refreshTokenHash));
    var w1 := w.(tasks := w.tasks + [task]);
    ReachRotate(p, s, w1, again, row, now);
    var w2 := w1.(tasks := w1.tasks + [task]);
    assert Leads(p, s, w2) && TwoRotations(p, w2, again, row.familyId);
  }

  /** Requests 2 and 3 are about to rotate the one stored refresh token, which `req` presents. */
  predicate TwoRotations(p: Platform, w: World, req: TokenRequest, familyId: string) {
    && |w.tasks| == 4 && w.tasks[2].RefreshRotate? && w.tasks[3].RefreshRotate?
    && w.tasks[2].token == w.tasks[3].token
    && Truthy(req.refreshToken)
    && var token := w.tasks[2].token;
    && w.db.refreshTokens == [token]
    && token.familyId == familyId
    && token.refreshTokenHash == p.sha256Hex(req.refreshToken.value)
    && token.clientId == req.clientId
    && w.tasks[2].now < token.expiresAt
  }

  /** One rotation of a refresh token, store step by store step. */
  lemma RotationLeads(p: Platform, s: World, w: World, i: nat, a: Input, b: Input)
    requires Leads(p, s, w) && i < |w.tasks| && w.tasks[i].RefreshRotate?
    requires p.sha256Hex(a.secret) !in w.drawn
    ensures var w' := Do(p, Do(p, w, Proceed(i, a)), Proceed(i, b));
            Leads(p, s, w') && w'.drawn == w.drawn + {p.sha256Hex(a.secret)} && |w'.tasks| == |w.tasks|
            && forall j :: 0 <= j < |w.tasks| && j != i ==> w'.tasks[j] == w.tasks[j]
  {
    ReachMove(p, s, w, Proceed(i, a));
    var w1 := Do(p, w, Proceed(i, a));
    assert w1.tasks[i].RefreshChain?;
    ReachMove(p, s, w1, Proceed(i, b));
  }

  /** The two requests of `TwoRotations` rotate and chain, one after the other. */
  lemma RotationsFork(p: Platform, s: World, w: World, req: TokenRequest, familyId: string, first: string, second: string)
    requires Leads(p, s, w) && TwoRotations(p, w, req, familyId)
    requires p.sha256Hex(first) !in w.drawn && p.sha256Hex(second) !in w.drawn && p.sha256Hex(first) != p.sha256Hex(second)
    requires p.sha256Hex(first) != w.tasks[2].token.refreshTokenHash
    ensures exists w' :: Leads(p, s, w') && Forked(p, w', w.tasks[2].token, first, second)
  {
    var a, b, c := IdleInput(0).(secret := first), IdleInput(0), IdleInput(0).(secret := second);
    RotationLeads(p, s, w, 2, a, b);
    var w2 := Do(p, Do(p, w, Proceed(2, a)), Proceed(2, b));
    RotationLeads(p, s, w2, 3, c, b);
    OverlapForksFamily(p, w, 2, 3, a, b, c, b);
    assert Forked(p, Do(p, Do(p, w2, Proceed(3, c)), Proceed(3, b)), w.tasks[2].token, first, second);
  }

  /** The token has two live children, and its family is no chain. */
  ghost predicate Forked(p: Platform, w: World, token: RefreshToken, first: string, second: string) {
    && LiveChild(w.db.refreshTokens, token, p.sha256Hex(first))
    && LiveChild(w.db.refreshTokens, token, p.sha256Hex(second))
    && !Chained(w.db.refreshTokens, token.familyId)
  }

  /* ---------- a family revocation between a find and its rotation ---------- */

  lemma RotationMoves(p: Platform, s: World, w: World, req: TokenRequest, familyId: string, secret: string)
    requires Leads(p, s, w) && TwoRotations(p, w, req, familyId)
    requires p.sha256Hex(secret) !in w.drawn && p.sha256Hex(secret) != w.tasks[2].token.refreshTokenHash
    ensures var token, now := w.tasks[2].token, w.tasks[2].now;
            exists w' :: Leads(p, s, w') && w'.db.clients == w.db.clients && w'.tasks == w.tasks[2 := IssueClaims(GrantOfRefresh(token), w.tasks[2].origin)]
                         && w'.drawn == w.drawn + {p.sha256Hex(secret)}
                         && Lookup(w'.db.refreshTokens, RefreshKey, token.refreshTokenHash)
                            == Some(RotatedRow(token, now, p.sha256Hex(secret)))
  {
    var a, b := IdleInput(0).(secret := secret), IdleInput(0);
    var token, now, hash := w.tasks[2].token, w.tasks[2].now, p.sha256Hex(secret);
    ReachMove(p, s, w, Proceed(2, a));
    var w1 := Do(p, w, Proceed(2, a));
    assert w1.tasks == w.tasks[2 := RefreshChain(token, hash, a.now, w.tasks[2].origin)];
    ReachMove(p, s, w1, Proceed(2, b));
    var w2 := Do(p, w1, Proceed(2, b));
    var rotated := SaveRefresh(w.db.refreshTokens, RotatedRow(token, now, hash));
    LookupUpsert(w.db.refreshTokens, RefreshKey, RotatedRow(token, now, hash), token.refreshTokenHash);
    LookupUpsert(rotated, RefreshKey, SuccessorRow(token, hash, a.now), token.refreshTokenHash);
    assert w2.db.refreshTokens == SaveRefresh(rotated, SuccessorRow(token, hash, a.now));
    assert w2.tasks == w.tasks[2 := IssueClaims(GrantOfRefresh(token), w.tasks[2].origin)];
  }

  /** A spent token presented in time by its client gets its family revoked. */
  lemma ReachFamilyRevoked(p: Platform, s: World, w: World, req: TokenRequest, row: RefreshToken, now: Millis)
    requires Leads(p, s, w) && ClientOk(p, w.db, req) && req.grantType.RefreshGrant? && Truthy(req.refreshToken)
    requires Lookup(w.db.refreshTokens, RefreshKey, p.sha256Hex(req.refreshToken.value)) == Some(row)
    requires row.clientId == req.clientId && row.revokedAt.Some? && now < row.expiresAt
    ensures exists w' :: Leads(p, s, w') && w'.tasks == w.tasks + [Finished(false)] && w'.drawn == w.drawn
                         && w'.db.refreshTokens == RevokeFamily(w.db.refreshTokens, row.familyId, now)
  {
    var found := w.(tasks := w.tasks + [FamilyRevoke(row.familyId, now)]);
    ReachRevoking(p, s, w, req, row, now);
    var move := Proceed(|w.tasks|, IdleInput(now));
    ReachMove(p, s, found, move);
    assert Do(p, found, move).tasks == w.tasks + [Finished(false)];
  }

  lemma ReachRevoking(p: Platform, s: World, w: World, req: TokenRequest, row: RefreshToken, now: Millis)
    requires Leads(p, s, w) && ClientOk(p, w.db, req) && req.grantType.RefreshGrant? && Truthy(req.refreshToken)
    requires Lookup(w.db.refreshTokens, RefreshKey, p.sha256Hex(req.refreshToken.value)) == Some(row)
    requires row.clientId == req.clientId && row.revokedAt.Some? && now < row.expiresAt
    ensures Leads(p, s, w.(tasks := w.tasks + [FamilyRevoke(row.familyId, now)]))
  {
    ReachFind(p, s, w, req);
    var n, task := |w.tasks|, FamilyRevoke(row.familyId, now);
    var w1 := w.(tasks := w.tasks + [RefreshFind(req)]);
    ReachMove(p, s, w1, Proceed(n, IdleInput(now)));
    assert w1.tasks[n := task] == w.tasks + [task];
    assert Do(p, w1, Proceed(n, IdleInput(now))) == w.(tasks := w.tasks + [task]);
  }

  /** A family revoked for reuse just now, and request 3 about to rotate one of its tokens. */
  ghost predicate Outrun(w: World, familyId: string, drawn: set<string>) {
    && AllRevoked(w.db.refreshTokens, familyId) && !Quiet(w, familyId)
    && |w.tasks| == 5 && w.tasks[4] == Finished(false)
    && w.tasks[3].RefreshRotate? && w.tasks[3].token.familyId == familyId
    && w.drawn == drawn
  }

  /**
   * Reuse detection can be outrun: some execution reaches a world in which a family has just been
   * revoked for reuse, yet a request that found its token good before is still about to rotate it.
   */
  lemma RevocationOutrun(p: Platform, s: World, w: World, req: TokenRequest, familyId: string, secret: string)
    requires Leads(p, s, w) && TwoRotations(p, w, req, familyId) && ClientOk(p, w.db, req) && req.grantType.RefreshGrant?
    requires p.sha256Hex(secret) !in w.drawn && p.sha256Hex(secret) != w.tasks[2].token.refreshTokenHash
    ensures exists w' :: Leads(p, s, w') && Outrun(w', familyId, w.drawn + {p.sha256Hex(secret)})
  {
    var token, now := w.tasks[2].token, w.tasks[2].now;
    var row := RotatedRow(token, now, p.sha256Hex(secret));
    RotationMoves(p, s, w, req, familyId, secret);
    var w1 :| Leads(p, s, w1) && w1.db.clients == w.db.clients && w1.tasks == w.tasks[2 := IssueClaims(GrantOfRefresh(token), w.tasks[2].origin)]
              && w1.drawn == w.drawn + {p.sha256Hex(secret)}
              && Lookup(w1.db.refreshTokens, RefreshKey, token.refreshTokenHash) == Some(row);
    SameClients(p, w.db, w1.db, req);
    assert w1.tasks[3] == w.tasks[3];
    RevokedButPending(p, s, w1, req, row, now);
  }

  lemma RevokedButPending(p: Platform, s: World, w: World, req: TokenRequest, row: RefreshToken, now: Millis)
    requires Leads(p, s, w) && ClientOk(p, w.db, req) && req.grantType.RefreshGrant? && Truthy(req.refreshToken)
    requires Lookup(w.db.refreshTokens, RefreshKey, p.sha256Hex(req.refreshToken.value)) == Some(row)
    requires row.clientId == req.clientId && row.revokedAt.Some? && now < row.expiresAt
    requires |w.tasks| == 4 && w.tasks[3].RefreshRotate? && w.tasks[3].token.familyId == row.familyId
    ensures exists w' :: Leads(p, s, w') && Outrun(w', row.familyId, w.drawn)
  {
    ReachFamilyRevoked(p, s, w, req, row, now);
    var w' :| Leads(p, s, w') && w'.tasks == w.tasks + [Finished(false)] && w'.drawn == w.drawn
              && w'.db.refreshTokens == RevokeFamily(w.db.refreshTokens, row.familyId, now);
    RevokedFamilyIsRevoked(w.db.refreshTokens, row.familyId, now);
    assert Revives(w'.tasks[3], row.familyId);
    assert Outrun(w', row.familyId, w.drawn);
  }

  /** The request that was still under way brings the revoked family a live row. */
  lemma OutrunRevives(p: Platform, w: World, familyId: string, drawn: set<string>, secret: string)
    requires Outrun(w, familyId, drawn) && p.sha256Hex(secret) !in drawn
    ensures exists w' :: Leads(p, w, w') && !AllRevoked(w'.db.refreshTokens, familyId)
  {
    var a, b := IdleInput(0).(secret := secret), IdleInput(0);
    LeadsNowhere(p, w);
    ReachMove(p, w, w, Proceed(3, a));
    RotateThenChain(p, w, 3, a);
    var w1 := Do(p, w, Proceed(3, a));
    ReachMove(p, w, w1, Proceed(3, b));
    ChainRevives(p, w1, 3, b);
    assert Leads(p, w, Do(p, w1, Proceed(3, b)));
  }

  /**
   * So a family comes back to life after reuse was detected in it: some execution reaches a world in
   * which the family has just been revoked, and from there one in which it has a live row again.
   */
  lemma RevokedFamilyRevives(p: Platform, s: World, w: World, req: TokenRequest, familyId: string, first: string,
                             second: string)
    requires Leads(p, s, w) && TwoRotations(p, w, req, familyId) && ClientOk(p, w.db, req) && req.grantType.RefreshGrant?
    requires p.sha256Hex(first) !in w.drawn && p.sha256Hex(first) != w.tasks[2].token.refreshTokenHash
    requires p.sha256Hex(second) !in w.drawn && p.sha256Hex(second) != p.sha256Hex(first)
    ensures exists w', w'' :: Leads(p, s, w') && Leads(p, w', w'')
                              && Outrun(w', familyId, w.drawn + {p.sha256Hex(first)}) && !AllRevoked(w''.db.refreshTokens, familyId)
  {
    RevocationOutrun(p, s, w, req, familyId, first);
    var w' :| Leads(p, s, w') && Outrun(w', familyId, w.drawn + {p.sha256Hex(first)});
    OutrunRevives(p, w', familyId, w.drawn + {p.sha256Hex(first)}, second);
  }

  lemma SameClients(p: Platform, a: PubAuthState, b: PubAuthState, req: TokenRequest)
    requires a.clients == b.clients
    ensures ClientOk(p, a, req) <==> ClientOk(p, b, req)
  {
  }

  lemma RevokedFamilyIsRevoked(rows: seq<RefreshToken>, familyId: string, now: Millis)
    ensures AllRevoked(RevokeFamily(rows, familyId, now), familyId)
  {
  }

  /* ---------- one such execution in full ---------- */

  /** A platform whose hashes are the identity; nothing else about it matters here. */
  function PlainPlatform(): Platform {
    Platform(_ => [], _ => None, _ => [], (_, _) => [], (_, _, _) => false, (_, _) => false,
             (x: string) => x, (x: string) => x, (_, _) => false, (x: string) => x, (x: string) => x)
  }

  /** A state with one active public client. */
  function OneClient(): PubAuthState {
    var client := OidcClient("id", "product", "workspace", "client", Public, "none", None, ["uri"], [], true);
    PubAuthState([], [], [], [client], [], [], [], [], [], [], [])
  }

  const REQUEST := AuthorizationRequest("client", "uri", "code", "", "v", "S256", "user", "workspace", None)

  const EXCHANGE := TokenRequest(CodeGrant, "client", None, Some("c"), Some("v"), None, None, None)

  const REFRESH := TokenRequest(RefreshGrant, "client", None, None, None, Some("r"), None, None)

  const DRAWING := Drawing("r", "f", "j", RsaJwtSigner("k", "i", "a", "b"))

  lemma PlainSetting()
    ensures var p, db := PlainPlatform(), OneClient();
            && CheckAuthorize(db, REQUEST) == Ok([]) && ClientOk(p, db, EXCHANGE) && ClientOk(p, db, REFRESH)
            && CodePresented(p, Some(CodeRow(REQUEST, [], "c", 0)), EXCHANGE, 0)
  {
    var client := OneClient().clients[0];
    assert FindClient(OneClient(), "client") == Some(client);
    assert MapRows(Split("", ' '), Trim) == [""];
    assert forall x: string :: x !in ParseScopes("");
    assert |ParseScopes("")| == 0;
  }

  const SECOND := Drawing("t", "g", "i", RsaJwtSigner("k", "i", "a", "b"))

  /** The world with two rotations of one token under way, with every value given. */
  lemma PlainRotations()
    ensures var p, db := PlainPlatform(), OneClient();
            exists w :: Leads(p, Start(db), w) && TwoRotations(p, w, REFRESH, "f") && w.drawn == {"c", "r"} && ClientOk(p, w.db, REFRESH)
  {
    var p, db := PlainPlatform(), OneClient();
    PlainSetting();
    DoubleRotationReachable(p, db, REQUEST, "c", EXCHANGE, DRAWING, REFRESH, 0);
    var w :| Leads(p, Start(db), w) && TwoRotations(p, w, REFRESH, "f") && w.drawn == {p.sha256Hex("c"), p.sha256Hex("r")}
             && w.db.clients == db.clients;
    SameClients(p, db, w.db, REFRESH);
  }

  /** One code exchanged twice, with every value given. */
  lemma CodeIsExchangedTwice()
    ensures var p, db := PlainPlatform(), OneClient();
            var row := CodeRow(REQUEST, [], "c", 0);
            exists w, w' :: Leads(p, Start(db), w) && Leads(p, w, w')
                            && TwoFinds(p, w, db, "c", EXCHANGE, row, 0) && ExchangedTwice(p, w', CodeOf(row), DRAWING, SECOND, 0)
  {
    PlainSetting();
    DoubleExchangeSucceeds(PlainPlatform(), OneClient(), REQUEST, "c", 0, EXCHANGE, DRAWING, SECOND, 0);
  }

  /** A forked family, with every value given. */
  lemma FamilyIsForked()
    ensures exists w, token :: Leads(PlainPlatform(), Start(OneClient()), w) && Forked(PlainPlatform(), w, token, "s", "t")
  {
    PlainRotations();
    var p, s := PlainPlatform(), Start(OneClient());
    var w :| Leads(p, s, w) && TwoRotations(p, w, REFRESH, "f") && w.drawn == {"c", "r"} && ClientOk(p, w.db, REFRESH);
    RotationsFork(p, s, w, REFRESH, "f", "s", "t");
  }

  /** The revocation that is outrun, with every value given: the family has a live row again. */
  lemma RevocationIsOutrun()
    ensures var p := PlainPlatform();
            exists w, w' :: Leads(p, Start(OneClient()), w) && Leads(p, w, w')
                            && Outrun(w, "f", {"c", "r", "s"}) && !AllRevoked(w'.db.refreshTokens, "f")
  {
    PlainRotations();
    var p, s := PlainPlatform(), Start(OneClient());
    var w :| Leads(p, s, w) && TwoRotations(p, w, REFRESH, "f") && w.drawn == {"c", "r"} && ClientOk(p, w.db, REFRESH);
    RevokedFamilyRevives(p, s, w, REFRESH, "f", "s", "t");
    assert {"c", "r"} + {"s"} == {"c", "r", "s"};
  }
}
