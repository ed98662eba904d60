/**
 * Requests that overlap: exactly when a request goes through, and what two requests on one code or
 * one refresh token, or a rotation that meets a family revocation, leave behind.
 */
module Overlaps {
  import opened Tables
  import opened Jwt
  import opened Model
  import opened Stores
  import opened TokenIssuer
  import opened TokenRuns
  import opened Interleavings

  /* ---------- codes are used exactly when they were marked ---------- */

  /** This move marks the code as used. */
  ghost predicate Marks(w: World, move: Move, hash: string) {
    move.Proceed? && move.i < |w.tasks| && w.tasks[move.i].CodeMark? && w.tasks[move.i].codeHash == hash
  }

  ghost predicate MarkedBefore(worlds: seq<World>, moves: seq<Move>, k: nat, hash: string)
    requires k <= |moves| < |worlds|
  {
    exists j :: 0 <= j < k && Marks(worlds[j], moves[j], hash)
  }

  /** Codes wait to be saved unused, and the stored ones are used exactly when marked. */
  ghost predicate UsedAreMarked(worlds: seq<World>, moves: seq<Move>, k: nat)
    requires k <= |moves| < |worlds|
  {
    && (forall i :: 0 <= i < |worlds[k].tasks| && worlds[k].tasks[i].AuthorizeSave? ==> worlds[k].tasks[i].row.usedAt.None?)
    && forall c :: c in worlds[k].db.authorizationCodes ==> (c.usedAt.Some? <==> MarkedBefore(worlds, moves, k, c.codeHash))
  }

  /** A code that is about to be saved was never marked. */
  lemma UnsavedIsUnmarked(p: Platform, worlds: seq<World>, moves: seq<Move>, k: nat, hash: string)
    requires Steps(p, worlds, moves) && k <= |moves| && NotSaved(worlds[k], hash)
    ensures !MarkedBefore(worlds, moves, k, hash)
  {
    forall j | 0 <= j < k
      ensures !Marks(worlds[j], moves[j], hash)
    {
      if Marks(worlds[j], moves[j], hash) {
        WorldInvAt(p, worlds, moves, j);
        GrowsFrom(p, worlds, moves, j, k);
        VouchedGrows(worlds[j].db, worlds[k].db, hash, worlds[j].tasks[moves[j].i].grant);
      }
    }
  }

  /** The code rows after a move: as before, with one more, or with one hash marked. */
  lemma CodesAfterMove(p: Platform, w: World, move: Move)
    requires Permitted(p, w, move)
    ensures var codes, codes' := w.db.authorizationCodes, Do(p, w, move).db.authorizationCodes;
            if move.Proceed? && w.tasks[move.i].AuthorizeSave? then
              forall c :: c in codes' ==> c == w.tasks[move.i].row || (c in codes && c.codeHash != w.tasks[move.i].row.codeHash)
            else if move.Proceed? && w.tasks[move.i].CodeMark? then
              forall c :: c in codes' ==>
                exists o :: o in codes && c == if o.codeHash == w.tasks[move.i].codeHash then o.(usedAt := Some(move.input.now)) else o
            else codes' == codes
  {
    if move.Proceed? && w.tasks[move.i].CodeMark? {
      MarkedMembers(w.db, w.tasks[move.i].codeHash, move.input.now);
    }
  }

  lemma MarkedAfter(worlds: seq<World>, moves: seq<Move>, k: nat, hash: string)
    requires k < |moves| < |worlds|
    ensures MarkedBefore(worlds, moves, k + 1, hash) <==> MarkedBefore(worlds, moves, k, hash) || Marks(worlds[k], moves[k], hash)
  {
  }

  lemma SavesStayUnused(p: Platform, w: World, move: Move, i: nat)
    requires Permitted(p, w, move) && i < |Do(p, w, move).tasks| && Do(p, w, move).tasks[i].AuthorizeSave?
    requires forall j :: 0 <= j < |w.tasks| && w.tasks[j].AuthorizeSave? ==> w.tasks[j].row.usedAt.None?
    ensures Do(p, w, move).tasks[i].row.usedAt.None?
  {
  }

  lemma UsedAreMarkedStep(p: Platform, worlds: seq<World>, moves: seq<Move>, k: nat, c: AuthorizationCode)
    requires Steps(p, worlds, moves) && k < |moves| && UsedAreMarked(worlds, moves, k)
    requires c in worlds[k + 1].db.authorizationCodes
    ensures c.usedAt.Some? <==> MarkedBefore(worlds, moves, k + 1, c.codeHash)
  {
    var w, move := worlds[k], moves[k];
    CodesAfterMove(p, w, move);
    MarkedAfter(worlds, moves, k, c.codeHash);
    if move.Proceed? && w.tasks[move.i].AuthorizeSave? && c == w.tasks[move.i].row {
      WorldInvAt(p, worlds, moves, k);
      assert Pending(w.tasks[move.i]) == Some(c.codeHash);
      UnsavedIsUnmarked(p, worlds, moves, k, c.codeHash);
    }
  }

  lemma {:induction false} UsedIffMarked(p: Platform, worlds: seq<World>, moves: seq<Move>, k: nat)
    requires Steps(p, worlds, moves) && k <= |moves|
    ensures UsedAreMarked(worlds, moves, k)
  {
    if k > 0 {
      UsedIffMarked(p, worlds, moves, k - 1);
      forall i | 0 <= i < |worlds[k].tasks| && worlds[k].tasks[i].AuthorizeSave?
        ensures worlds[k].tasks[i].row.usedAt.None?
      {
        SavesStayUnused(p, worlds[k - 1], moves[k - 1], i);
      }
      forall c | c in worlds[k].db.authorizationCodes
        ensures c.usedAt.Some? <==> MarkedBefore(worlds, moves, k, c.codeHash)
      {
        UsedAreMarkedStep(p, worlds, moves, k - 1, c);
      }
    }
  }

  /** Once marked, in any interleaving, a code is never found usable again. */
  lemma MarkedNeverFound(p: Platform, worlds: seq<World>, moves: seq<Move>, j: nat, k: nat, hash: string, now: Millis)
    requires Sound(p) && Execution(p, worlds, moves) && j < k <= |moves| && Marks(worlds[j], moves[j], hash)
    ensures FindUsable(worlds[k].db, hash, now).None?
  {
    ExecutionSteps(p, worlds, moves);
    UsedIffMarked(p, worlds, moves, k);
    assert MarkedBefore(worlds, moves, k, hash);
  }

  /* ---------- refresh tokens are revoked exactly when they were spent ---------- */

  ghost predicate HasRow(rows: seq<RefreshToken>, hash: string, familyId: string) {
    exists r :: r in rows && r.refreshTokenHash == hash && r.familyId == familyId
  }

  /** This move rotates the token or revokes its family. */
  ghost predicate Spends(w: World, move: Move, hash: string) {
    && move.Proceed? && move.i < |w.tasks|
    && var task := w.tasks[move.i];
    || (task.RefreshRotate? && task.token.refreshTokenHash == hash)
    || (task.FamilyRevoke? && HasRow(w.db.refreshTokens, hash, task.familyId))
  }

  ghost predicate SpentBefore(worlds: seq<World>, moves: seq<Move>, k: nat, hash: string)
    requires k <= |moves| < |worlds|
  {
    exists j :: 0 <= j < k && Spends(worlds[j], moves[j], hash)
  }

  ghost predicate RevokedAreSpent(worlds: seq<World>, moves: seq<Move>, k: nat)
    requires k <= |moves| < |worlds|
  {
    && UniqueKeys(worlds[k].db.refreshTokens, RefreshKey)
    && forall r :: r in worlds[k].db.refreshTokens ==>
         && (r.revokedAt.Some? <==> SpentBefore(worlds, moves, k, r.refreshTokenHash))
         && (r.replacedByHash.Some? ==> r.revokedAt.Some?)
  }

  lemma SpentAfter(worlds: seq<World>, moves: seq<Move>, k: nat, hash: string)
    requires k < |moves| < |worlds|
    ensures SpentBefore(worlds, moves, k + 1, hash) <==> SpentBefore(worlds, moves, k, hash) || Spends(worlds[k], moves[k], hash)
  {
  }

  /** A hash under which nothing was issued was never spent. */
  lemma UnissuedIsUnspent(p: Platform, worlds: seq<World>, moves: seq<Move>, k: nat, hash: string)
    requires Steps(p, worlds, moves) && k <= |moves| && hash !in worlds[k].refreshOrigin
    ensures !SpentBefore(worlds, moves, k, hash)
  {
    forall j | 0 <= j < k
      ensures !Spends(worlds[j], moves[j], hash)
    {
      WorldInvAt(p, worlds, moves, j);
      OriginsStay(p, worlds, moves, j, k, hash);
    }
  }

  lemma {:induction false} OriginsStay(p: Platform, worlds: seq<World>, moves: seq<Move>, j: nat, k: nat, hash: string)
    requires Steps(p, worlds, moves) && j <= k <= |moves|
    ensures hash in worlds[j].refreshOrigin ==> hash in worlds[k].refreshOrigin
  {
    if j < k {
      OriginsStay(p, worlds, moves, j, k - 1, hash);
      WorldInvAt(p, worlds, moves, k - 1);
      MoveKeepsInv(p, worlds[k - 1], moves[k - 1]);
      assert worlds[k - 1 + 1] == Do(p, worlds[k - 1], moves[k - 1]);
    }
  }

  /** What a move does to the refresh rows. */
  lemma RefreshAfterMove(p: Platform, w: World, move: Move)
    requires Permitted(p, w, move)
    ensures var rows, rows' := w.db.refreshTokens, Do(p, w, move).db.refreshTokens;
            if move.Proceed? && w.tasks[move.i].FamilyRevoke? then
              rows' == RevokeFamily(rows, w.tasks[move.i].familyId, w.tasks[move.i].now)
            else if move.Proceed? && Written(p, w.tasks[move.i], move.input).Some? then
              rows' == SaveRefresh(rows, Written(p, w.tasks[move.i], move.input).value)
            else rows' == rows
  {
  }

  lemma RevokedKeepsUnique(rows: seq<RefreshToken>, familyId: string, now: Millis)
    requires UniqueKeys(rows, RefreshKey)
    ensures UniqueKeys(RevokeFamily(rows, familyId, now), RefreshKey)
  {
  }

  lemma UniqueAfterMove(p: Platform, w: World, move: Move)
    requires Permitted(p, w, move) && UniqueKeys(w.db.refreshTokens, RefreshKey)
    ensures UniqueKeys(Do(p, w, move).db.refreshTokens, RefreshKey)
  {
    RefreshAfterMove(p, w, move);
    if move.Proceed? && w.tasks[move.i].FamilyRevoke? {
      RevokedKeepsUnique(w.db.refreshTokens, w.tasks[move.i].familyId, w.tasks[move.i].now);
    } else if move.Proceed? && Written(p, w.tasks[move.i], move.input).Some? {
      UpsertUnique(w.db.refreshTokens, RefreshKey, Written(p, w.tasks[move.i], move.input).value);
    }
  }

  /** The step for a family revocation. */
  lemma SpentByRevocation(worlds: seq<World>, moves: seq<Move>, k: nat, familyId: string, now: Millis, r: RefreshToken)
    requires k < |moves| < |worlds| && RevokedAreSpent(worlds, moves, k)
    requires r in RevokeFamily(worlds[k].db.refreshTokens, familyId, now)
    requires forall hash :: Spends(worlds[k], moves[k], hash) <==> HasRow(worlds[k].db.refreshTokens, hash, familyId)
    ensures r.revokedAt.Some? <==> SpentBefore(worlds, moves, k + 1, r.refreshTokenHash)
    ensures r.replacedByHash.Some? ==> r.revokedAt.Some?
  {
    var rows := worlds[k].db.refreshTokens;
    SpentAfter(worlds, moves, k, r.refreshTokenHash);
    RevokedMembers(rows, familyId, now);
    var o :| o in rows && r == if o.familyId == familyId then Revoke(o, now) else o;
    if HasRow(rows, o.refreshTokenHash, familyId) {
      var o' :| o' in rows && o'.refreshTokenHash == o.refreshTokenHash && o'.familyId == familyId;
      OneRowPerHash(rows, o, o');
    }
  }

  /** The step for a rotation, which overwrites the row of its token. */
  lemma SpentByRotation(worlds: seq<World>, moves: seq<Move>, k: nat, row: RefreshToken, r: RefreshToken)
    requires k < |moves| < |worlds| && RevokedAreSpent(worlds, moves, k)
    requires r in SaveRefresh(worlds[k].db.refreshTokens, row) && row.revokedAt.Some?
    requires forall hash :: Spends(worlds[k], moves[k], hash) <==> hash == row.refreshTokenHash
    ensures r.revokedAt.Some? <==> SpentBefore(worlds, moves, k + 1, r.refreshTokenHash)
    ensures r.replacedByHash.Some? ==> r.revokedAt.Some?
  {
    SpentAfter(worlds, moves, k, r.refreshTokenHash);
  }

  /** The step for a new row. */
  lemma SpentByIssue(p: Platform, worlds: seq<World>, moves: seq<Move>, k: nat, row: RefreshToken, r: RefreshToken)
    requires Steps(p, worlds, moves) && k < |moves| && RevokedAreSpent(worlds, moves, k)
    requires r in SaveRefresh(worlds[k].db.refreshTokens, row) && row.revokedAt.None? && row.replacedByHash.None?
    requires row.refreshTokenHash !in worlds[k].refreshOrigin
    requires forall hash :: !Spends(worlds[k], moves[k], hash)
    ensures r.revokedAt.Some? <==> SpentBefore(worlds, moves, k + 1, r.refreshTokenHash)
    ensures r.replacedByHash.Some? ==> r.revokedAt.Some?
  {
    SpentAfter(worlds, moves, k, r.refreshTokenHash);
    UnissuedIsUnspent(p, worlds, moves, k, row.refreshTokenHash);
  }

  lemma NewRowIsUnissued(p: Platform, w: World, move: Move)
    requires WorldInv(w) && Permitted(p, w, move) && move.Proceed? && (w.tasks[move.i].RefreshChain? || w.tasks[move.i].IssueRefresh?)
    ensures Written(p, w.tasks[move.i], move.input).value.refreshTokenHash !in w.refreshOrigin
  {
    MoverIsOk(p, w, move.i, move.input);
    NewHashIsUnused(p, w, w.tasks[move.i], move.input);
  }

  lemma RevokedAreSpentStep(p: Platform, worlds: seq<World>, moves: seq<Move>, k: nat, r: RefreshToken)
    requires Steps(p, worlds, moves) && k < |moves| && RevokedAreSpent(worlds, moves, k)
    requires r in worlds[k + 1].db.refreshTokens
    ensures r.revokedAt.Some? <==> SpentBefore(worlds, moves, k + 1, r.refreshTokenHash)
    ensures r.replacedByHash.Some? ==> r.revokedAt.Some?
  {
    var w, move := worlds[k], moves[k];
    RefreshAfterMove(p, w, move);
    if move.Proceed? && w.tasks[move.i].FamilyRevoke? {
      SpentByRevocation(worlds, moves, k, w.tasks[move.i].familyId, w.tasks[move.i].now, r);
    } else if move.Proceed? && w.tasks[move.i].RefreshRotate? {
      SpentByRotation(worlds, moves, k, Written(p, w.tasks[move.i], move.input).value, r);
    } else if move.Proceed? && (w.tasks[move.i].RefreshChain? || w.tasks[move.i].IssueRefresh?) {
      WorldInvAt(p, worlds, moves, k);
      NewRowIsUnissued(p, w, move);
      SpentByIssue(p, worlds, moves, k, Written(p, w.tasks[move.i], move.input).value, r);
    } else {
      SpentAfter(worlds, moves, k, r.refreshTokenHash);
    }
  }

  lemma {:induction false} RevokedIffSpent(p: Platform, worlds: seq<World>, moves: seq<Move>, k: nat)
    requires Steps(p, worlds, moves) && k <= |moves|
    ensures RevokedAreSpent(worlds, moves, k)
  {
    if k > 0 {
      RevokedIffSpent(p, worlds, moves, k - 1);
      UniqueAfterMove(p, worlds[k - 1], moves[k - 1]);
      forall r | r in worlds[k].db.refreshTokens
        ensures (r.revokedAt.Some? <==> SpentBefore(worlds, moves, k, r.refreshTokenHash)) && (r.replacedByHash.Some? ==> r.revokedAt.Some?)
      {
        RevokedAreSpentStep(p, worlds, moves, k - 1, r);
      }
    }
  }

  /* ---------- which requests go through ---------- */

  /** The request was refused, or is about to be, after revoking a family. */
  predicate Refused(task: Task) {
    task.FamilyRevoke? || task == Finished(false)
  }

  /** The request has succeeded, or has no way left to fail. */
  predicate GoesThrough(task: Task) {
    StepsLeft(task).Some?
  }

  /** Neither is ever undone. */
  lemma FateStays(p: Platform, w: World, move: Move, i: nat)
    requires Permitted(p, w, move) && i < |w.tasks|
    ensures i < |Do(p, w, move).tasks|
    ensures Refused(w.tasks[i]) ==> Refused(Do(p, w, move).tasks[i])
    ensures GoesThrough(w.tasks[i]) ==> GoesThrough(Do(p, w, move).tasks[i])
  {
  }

  lemma {:induction false} FateFrom(p: Platform, worlds: seq<World>, moves: seq<Move>, k: nat, m: nat, i: nat)
    requires Steps(p, worlds, moves) && k <= m < |worlds| && i < |worlds[k].tasks|
    ensures i < |worlds[m].tasks|
    ensures Refused(worlds[k].tasks[i]) ==> Refused(worlds[m].tasks[i])
    ensures GoesThrough(worlds[k].tasks[i]) ==> GoesThrough(worlds[m].tasks[i])
  {
    if k < m {
      FateFrom(p, worlds, moves, k, m - 1, i);
      FateStays(p, worlds[m - 1], moves[m - 1], i);
      assert worlds[m - 1 + 1] == Do(p, worlds[m - 1], moves[m - 1]);
    }
  }

  /** The find decides: the request goes through exactly if it found its code or token good. */
  lemma FindDecides(p: Platform, w: World, i: nat, input: Input)
    requires i < |w.tasks| && (w.tasks[i].CodeFind? || w.tasks[i].RefreshFind?)
    ensures var next := Advance(p, w, i, input).tasks[i];
            if FindsGood(p, w.db, w.tasks[i], input.now) then GoesThrough(next) && !Refused(next) else Refused(next) && !GoesThrough(next)
  {
  }

  /** A stored code, presented by its client with its redirect URI and verifier, in time. */
  predicate CodePresented(p: Platform, code: Option<AuthorizationCode>, req: TokenRequest, now: Millis) {
    && code.Some? && Truthy(req.codeVerifier)
    && code.value.clientId == req.clientId
    && (Truthy(req.redirectUri) ==> code.value.redirectUri == req.redirectUri.value)
    && p.sha256Base64Url(req.codeVerifier.value) == code.value.codeChallenge
    && now < code.value.expiresAt
  }

  /** A stored refresh token, presented by its client, in time. */
  predicate RefreshPresented(row: Option<RefreshToken>, req: TokenRequest, now: Millis) {
    row.Some? && row.value.clientId == req.clientId && now < row.value.expiresAt
  }

  lemma CodeFoundIff(p: Platform, worlds: seq<World>, moves: seq<Move>, k: nat, req: TokenRequest, now: Millis)
    requires Steps(p, worlds, moves) && k <= |moves|
    ensures CheckCode(p, worlds[k].db, req, now).Ok?
            <==> && Truthy(req.code)
                 && CodePresented(p, Lookup(worlds[k].db.authorizationCodes, CodeKey, p.sha256Hex(req.code.value)), req, now)
                 && !MarkedBefore(worlds, moves, k, p.sha256Hex(req.code.value))
  {
    UsedIffMarked(p, worlds, moves, k);
  }

  lemma RefreshFoundIff(p: Platform, worlds: seq<World>, moves: seq<Move>, k: nat, req: TokenRequest, now: Millis)
    requires Steps(p, worlds, moves) && k <= |moves|
    ensures FindsGood(p, worlds[k].db, RefreshFind(req), now)
            <==> && Truthy(req.refreshToken)
                 && RefreshPresented(Lookup(worlds[k].db.refreshTokens, RefreshKey, p.sha256Hex(req.refreshToken.value)), req, now)
                 && !SpentBefore(worlds, moves, k, p.sha256Hex(req.refreshToken.value))
  {
    RevokedIffSpent(p, worlds, moves, k);
  }

  lemma FoundDecidesFate(p: Platform, worlds: seq<World>, moves: seq<Move>, k: nat, m: nat)
    requires Steps(p, worlds, moves) && k < m < |worlds| && moves[k].Proceed?
    requires var task := worlds[k].tasks[moves[k].i];
             task.CodeFind? || task.RefreshFind?
    ensures moves[k].i < |worlds[m].tasks|
    ensures var task, end := worlds[k].tasks[moves[k].i], worlds[m].tasks[moves[k].i];
            if FindsGood(p, worlds[k].db, task, moves[k].input.now) then GoesThrough(end) else Refused(end)
  {
    FindDecides(p, worlds[k], moves[k].i, moves[k].input);
    FateFrom(p, worlds, moves, k + 1, m, moves[k].i);
  }

  /**
   * In every interleaving, an exchange that looks its code up at step `k` goes through exactly when it
   * presents the stored code as issued and in time, and no request marked the code before that step.
   * Otherwise it is refused. So a code is used twice exactly when a second request looks it up, as
   * issued and in time, before the first one marks it.
   */
  lemma ExchangeGoesThroughIff(p: Platform, worlds: seq<World>, moves: seq<Move>, k: nat, m: nat)
    requires Sound(p) && Execution(p, worlds, moves) && k < m < |worlds|
    requires moves[k].Proceed? && worlds[k].tasks[moves[k].i].CodeFind?
    ensures moves[k].i < |worlds[m].tasks|
    ensures var req, end := worlds[k].tasks[moves[k].i].req, worlds[m].tasks[moves[k].i];
            var good := && Truthy(req.code)
                        && CodePresented(p, Lookup(worlds[k].db.authorizationCodes, CodeKey, p.sha256Hex(req.code.value)), req, moves[k].input.now)
                        && !MarkedBefore(worlds, moves, k, p.sha256Hex(req.code.value));
            (GoesThrough(end) <==> good) && (Refused(end) <==> !good)
  {
    ExecutionSteps(p, worlds, moves);
    FoundDecidesFate(p, worlds, moves, k, m);
    CodeFoundIff(p, worlds, moves, k, worlds[k].tasks[moves[k].i].req, moves[k].input.now);
  }

  /**
   * Likewise a refresh that looks its token up at step `k` goes through exactly when it presents a
   * stored token of its client in time, and no request rotated the token or revoked its family before.
   */
  lemma RefreshGoesThroughIff(p: Platform, worlds: seq<World>, moves: seq<Move>, k: nat, m: nat)
    requires Sound(p) && Execution(p, worlds, moves) && k < m < |worlds|
    requires moves[k].Proceed? && worlds[k].tasks[moves[k].i].RefreshFind?
    ensures moves[k].i < |worlds[m].tasks|
    ensures var req, end := worlds[k].tasks[moves[k].i].req, worlds[m].tasks[moves[k].i];
            var good := && Truthy(req.refreshToken)
                        && RefreshPresented(Lookup(worlds[k].db.refreshTokens, RefreshKey, p.sha256Hex(req.refreshToken.value)), req,
                                            moves[k].input.now)
                        && !SpentBefore(worlds, moves, k, p.sha256Hex(req.refreshToken.value));
            (GoesThrough(end) <==> good) && (Refused(end) <==> !good)
  {
    ExecutionSteps(p, worlds, moves);
    FoundDecidesFate(p, worlds, moves, k, m);
    RefreshFoundIff(p, worlds, moves, k, worlds[k].tasks[moves[k].i].req, moves[k].input.now);
  }

  /* ---------- a forked family ---------- */

  /** An unrevoked row of the family whose parent is the token. */
  predicate LiveChild(rows: seq<RefreshToken>, token: RefreshToken, hash: string) {
    var row := Lookup(rows, RefreshKey, hash);
    row.Some? && row.value.familyId == token.familyId && row.value.revokedAt.None?
    && row.value.parentRefreshTokenHash == Some(token.refreshTokenHash)
  }

  /** The rotation and chaining of one request, run in sequence. */
  lemma RotationLeavesChild(p: Platform, w: World, i: nat, a: Input, b: Input)
    requires i < |w.tasks| && w.tasks[i].RefreshRotate?
    ensures var token, hash := w.tasks[i].token, p.sha256Hex(a.secret);
            var w' := Advance(p, Advance(p, w, i, a), i, b);
            && LiveChild(w'.db.refreshTokens, token, hash)
            && (forall h :: h != hash && h != token.refreshTokenHash ==>
                  Lookup(w'.db.refreshTokens, RefreshKey, h) == Lookup(w.db.refreshTokens, RefreshKey, h))
            && |w'.tasks| == |w.tasks| && forall j :: 0 <= j < |w.tasks| && j != i ==> w'.tasks[j] == w.tasks[j]
  {
    var token, hash := w.tasks[i].token, p.sha256Hex(a.secret);
    var rotated := SaveRefresh(w.db.refreshTokens, RotatedRow(token, w.tasks[i].now, hash));
    var child := SuccessorRow(token, hash, a.now);
    assert Advance(p, w, i, a).db.refreshTokens == rotated;
    assert Advance(p, Advance(p, w, i, a), i, b).db.refreshTokens == SaveRefresh(rotated, child);
    forall h
      ensures Lookup(SaveRefresh(rotated, child), RefreshKey, h)
              == if h == hash then Some(child)
                 else if h == token.refreshTokenHash then Some(RotatedRow(token, w.tasks[i].now, hash))
                 else Lookup(w.db.refreshTokens, RefreshKey, h)
    {
      LookupUpsert(rotated, RefreshKey, child, h);
      LookupUpsert(w.db.refreshTokens, RefreshKey, RotatedRow(token, w.tasks[i].now, hash), h);
    }
  }

  /**
   * Two requests past the find of one token fork its family: each leaves a live child of its own, both
   * with the same parent. A family with two live rows is no chain.
   */
  lemma OverlapForksFamily(p: Platform, w: World, i: nat, j: nat, a: Input, b: Input, c: Input, d: Input)
    requires i < |w.tasks| && j < |w.tasks| && i != j
    requires w.tasks[i].RefreshRotate? && w.tasks[j].RefreshRotate? && w.tasks[i].token == w.tasks[j].token
    requires p.sha256Hex(a.secret) != p.sha256Hex(c.secret) && p.sha256Hex(a.secret) != w.tasks[i].token.refreshTokenHash
    ensures var token := w.tasks[i].token;
            var w' := Advance(p, Advance(p, Advance(p, Advance(p, w, i, a), i, b), j, c), j, d);
            && LiveChild(w'.db.refreshTokens, token, p.sha256Hex(a.secret))
            && LiveChild(w'.db.refreshTokens, token, p.sha256Hex(c.secret))
            && !Chained(w'.db.refreshTokens, token.familyId)
  {
    var token, rows := w.tasks[i].token, Advance(p, Advance(p, Advance(p, Advance(p, w, i, a), i, b), j, c), j, d).db.refreshTokens;
    RotationLeavesChild(p, w, i, a, b);
    RotationLeavesChild(p, Advance(p, Advance(p, w, i, a), i, b), j, c, d);
    TwoLiveRowsAreNoChain(rows, token.familyId, p.sha256Hex(a.secret), p.sha256Hex(c.secret));
  }

  lemma TwoLiveRowsAreNoChain(rows: seq<RefreshToken>, familyId: string, a: string, b: string)
    requires a != b
    requires var r := Lookup(rows, RefreshKey, a); r.Some? && r.value.familyId == familyId && r.value.revokedAt.None?
    requires var r := Lookup(rows, RefreshKey, b); r.Some? && r.value.familyId == familyId && r.value.revokedAt.None?
    ensures !Chained(rows, familyId)
  {
    if Chained(rows, familyId) {
      var chain :| FamilyChain(rows, familyId, chain);
      UnrevokedIsTail(rows, Lookup(rows, RefreshKey, a).value, chain);
      UnrevokedIsTail(rows, Lookup(rows, RefreshKey, b).value, chain);
    }
  }

  /* ---------- live rows ---------- */

  ghost predicate AllRevoked(rows: seq<RefreshToken>, familyId: string) {
    forall r :: r in rows && r.familyId == familyId ==> r.revokedAt.Some?
  }

  ghost predicate AtMostOneLive(rows: seq<RefreshToken>, familyId: string) {
    forall a, b :: a in rows && b in rows && a.familyId == familyId && b.familyId == familyId && a.revokedAt.None? && b.revokedAt.None?
                   ==> a == b
  }

  /** This move chains a successor in the family: the only one that adds a live row to a family with rows. */
  ghost predicate Chains(w: World, move: Move, familyId: string) {
    move.Proceed? && move.i < |w.tasks| && w.tasks[move.i].RefreshChain? && w.tasks[move.i].token.familyId == familyId
  }

  ghost predicate Founds(w: World, move: Move, familyId: string) {
    move.Proceed? && move.i < |w.tasks| && w.tasks[move.i].IssueRefresh? && move.input.familyId == familyId
  }

  /** A live row after a move was there before, or the move chained or founded the family. */
  lemma LiveAfterMove(p: Platform, w: World, move: Move, r: RefreshToken)
    requires Permitted(p, w, move) && r in Do(p, w, move).db.refreshTokens && r.revokedAt.None?
    ensures r in w.db.refreshTokens
            || ((Chains(w, move, r.familyId) || Founds(w, move, r.familyId)) && r == Written(p, w.tasks[move.i], move.input).value)
  {
    RefreshAfterMove(p, w, move);
    if move.Proceed? && w.tasks[move.i].FamilyRevoke? {
      var rows := w.db.refreshTokens;
      RevokedMembers(rows, w.tasks[move.i].familyId, w.tasks[move.i].now);
      var o :| o in rows && r == if o.familyId == w.tasks[move.i].familyId then Revoke(o, w.tasks[move.i].now) else o;
    }
  }

  /** A chained row is live and new. */
  lemma ChainedRowIsLive(p: Platform, w: World, move: Move, familyId: string)
    requires WorldInv(w) && Permitted(p, w, move) && Chains(w, move, familyId)
    ensures var row := Written(p, w.tasks[move.i], move.input).value;
            row in Do(p, w, move).db.refreshTokens && row.revokedAt.None? && row.familyId == familyId
            && forall r :: r in w.db.refreshTokens ==> r.refreshTokenHash != row.refreshTokenHash && r in Do(p, w, move).db.refreshTokens
  {
    NewRowIsUnissued(p, w, move);
    RefreshAfterMove(p, w, move);
  }

  /** Chaining keeps at most one live row exactly when no row of the family was live. */
  lemma ChainKeepsOneLiveIff(p: Platform, w: World, move: Move, familyId: string)
    requires WorldInv(w) && Permitted(p, w, move) && Chains(w, move, familyId)
    ensures AtMostOneLive(Do(p, w, move).db.refreshTokens, familyId) <==> AllRevoked(w.db.refreshTokens, familyId)
  {
    var rows, rows' := w.db.refreshTokens, Do(p, w, move).db.refreshTokens;
    var row := Written(p, w.tasks[move.i], move.input).value;
    ChainedRowIsLive(p, w, move, familyId);
    if AllRevoked(rows, familyId) {
      forall r | r in rows' && r.familyId == familyId && r.revokedAt.None?
        ensures r == row
      {
        LiveAfterMove(p, w, move, r);
      }
    } else {
      var r :| r in rows && r.familyId == familyId && r.revokedAt.None?;
      assert r in rows' && row in rows' && r != row;
    }
  }

  /** Family ids are drawn new, too. */
  ghost predicate FreshFamilies(worlds: seq<World>, moves: seq<Move>)
    requires |worlds| == |moves| + 1
  {
    forall k, f :: 0 <= k < |moves| && Founds(worlds[k], moves[k], f) ==> FreshFamily(worlds[k].db.refreshTokens, f)
  }

  ghost predicate OneLiveEach(w: World) {
    forall f :: AtMostOneLive(w.db.refreshTokens, f)
  }

  ghost predicate ChainsWhenDead(w: World, move: Move) {
    forall f :: Chains(w, move, f) ==> AllRevoked(w.db.refreshTokens, f)
  }

  lemma OneLiveStep(p: Platform, w: World, move: Move, f: string)
    requires WorldInv(w) && Permitted(p, w, move) && AtMostOneLive(w.db.refreshTokens, f) && ChainsWhenDead(w, move)
    requires Founds(w, move, f) ==> FreshFamily(w.db.refreshTokens, f)
    ensures AtMostOneLive(Do(p, w, move).db.refreshTokens, f)
  {
    if Chains(w, move, f) {
      ChainKeepsOneLiveIff(p, w, move, f);
    } else {
      forall a, b | a in Do(p, w, move).db.refreshTokens && b in Do(p, w, move).db.refreshTokens
                    && a.familyId == f && b.familyId == f && a.revokedAt.None? && b.revokedAt.None?
        ensures a == b
      {
        LiveAfterMove(p, w, move, a);
        LiveAfterMove(p, w, move, b);
      }
    }
  }

  ghost predicate AlwaysOneLive(worlds: seq<World>) {
    forall k :: 0 <= k < |worlds| ==> OneLiveEach(worlds[k])
  }

  ghost predicate AlwaysChainsWhenDead(worlds: seq<World>, moves: seq<Move>)
    requires |worlds| == |moves| + 1
  {
    forall k :: 0 <= k < |moves| ==> ChainsWhenDead(worlds[k], moves[k])
  }

  lemma OneLiveNeedsDead(p: Platform, worlds: seq<World>, moves: seq<Move>)
    requires Steps(p, worlds, moves) && AlwaysOneLive(worlds)
    ensures AlwaysChainsWhenDead(worlds, moves)
  {
    forall k | 0 <= k < |moves|
      ensures ChainsWhenDead(worlds[k], moves[k])
    {
      forall f | Chains(worlds[k], moves[k], f)
        ensures AllRevoked(worlds[k].db.refreshTokens, f)
      {
        WorldInvAt(p, worlds, moves, k);
        ChainKeepsOneLiveIff(p, worlds[k], moves[k], f);
        assert OneLiveEach(worlds[k + 1]);
      }
    }
  }

  lemma {:induction false} DeadGivesOneLive(p: Platform, worlds: seq<World>, moves: seq<Move>, k: nat)
    requires Steps(p, worlds, moves) && FreshFamilies(worlds, moves) && AlwaysChainsWhenDead(worlds, moves) && k < |worlds|
    ensures OneLiveEach(worlds[k])
  {
    if k > 0 {
      DeadGivesOneLive(p, worlds, moves, k - 1);
      WorldInvAt(p, worlds, moves, k - 1);
      assert worlds[k - 1 + 1] == Do(p, worlds[k - 1], moves[k - 1]);
      forall f
        ensures AtMostOneLive(worlds[k].db.refreshTokens, f)
      {
        assert AtMostOneLive(worlds[k - 1].db.refreshTokens, f);
        OneLiveStep(p, worlds[k - 1], moves[k - 1], f);
      }
    }
  }

  /**
   * In every interleaving no family ever has two live rows exactly when every successor was saved at
   * a moment at which all rows of its family were revoked. A rotation revokes the row it read, so this
   * fails only where another request revived or rotated the family in between.
   */
  lemma OneLiveRowIff(p: Platform, worlds: seq<World>, moves: seq<Move>)
    requires Sound(p) && Execution(p, worlds, moves) && FreshFamilies(worlds, moves)
    ensures AlwaysOneLive(worlds) <==> AlwaysChainsWhenDead(worlds, moves)
  {
    ExecutionSteps(p, worlds, moves);
    if AlwaysOneLive(worlds) {
      OneLiveNeedsDead(p, worlds, moves);
    } else if AlwaysChainsWhenDead(worlds, moves) {
      forall k | 0 <= k < |worlds|
        ensures OneLiveEach(worlds[k])
      {
        DeadGivesOneLive(p, worlds, moves, k);
      }
    }
  }

  /* ---------- dead families ---------- */

  /** A request past its find may still bring the family a live row. */
  predicate Revives(task: Task, familyId: string) {
    (task.RefreshRotate? || task.RefreshChain?) && task.token.familyId == familyId
  }

  ghost predicate Quiet(w: World, familyId: string) {
    forall i :: 0 <= i < |w.tasks| ==> !Revives(w.tasks[i], familyId)
  }

  ghost predicate DeadAndQuiet(w: World, familyId: string) {
    AllRevoked(w.db.refreshTokens, familyId) && Quiet(w, familyId)
  }

  /** What may follow from `w` without anyone drawing the family's id again. */
  ghost predicate Continues(p: Platform, w: World, worlds: seq<World>, moves: seq<Move>, familyId: string) {
    && |worlds| == |moves| + 1
    && worlds[0] == w
    && forall k :: 0 <= k < |moves| ==>
         && Permitted(p, worlds[k], moves[k]) && !Founds(worlds[k], moves[k], familyId)
         && worlds[k + 1] == Do(p, worlds[k], moves[k])
  }

  /** No find of a dead family's token comes out good. */
  lemma DeadStaysQuiet(p: Platform, w: World, move: Move, familyId: string)
    requires Permitted(p, w, move) && DeadAndQuiet(w, familyId)
    ensures Quiet(Do(p, w, move), familyId)
  {
    var w' := Do(p, w, move);
    forall i | 0 <= i < |w'.tasks|
      ensures !Revives(w'.tasks[i], familyId)
    {
      if i < |w.tasks| {
        assert !Revives(w.tasks[i], familyId);
      }
    }
  }

  lemma DeadStepIsDead(p: Platform, w: World, move: Move, familyId: string)
    requires Permitted(p, w, move) && DeadAndQuiet(w, familyId) && !Founds(w, move, familyId)
    ensures DeadAndQuiet(Do(p, w, move), familyId)
  {
    DeadStaysQuiet(p, w, move, familyId);
    assert move.Proceed? ==> !Revives(w.tasks[move.i], familyId);
    forall r | r in Do(p, w, move).db.refreshTokens && r.familyId == familyId
      ensures r.revokedAt.Some?
    {
      if r.revokedAt.None? {
        LiveAfterMove(p, w, move, r);
      }
    }
  }

  lemma QuietStaysDead(p: Platform, w: World, worlds: seq<World>, moves: seq<Move>, familyId: string, k: nat)
    requires Continues(p, w, worlds, moves, familyId) && DeadAndQuiet(w, familyId) && k < |worlds|
    ensures AllRevoked(worlds[k].db.refreshTokens, familyId)
  {
    forall j | 0 <= j < |worlds| - 1 && DeadAndQuiet(worlds[j], familyId)
      ensures DeadAndQuiet(worlds[j + 1], familyId)
    {
      DeadStepIsDead(p, worlds[j], moves[j], familyId);
    }
    Kept(worlds, x => DeadAndQuiet(x, familyId), 0, k);
  }

  lemma ChainRevives(p: Platform, w: World, i: nat, input: Input)
    requires i < |w.tasks| && w.tasks[i].RefreshChain?
    ensures !AllRevoked(Advance(p, w, i, input).db.refreshTokens, w.tasks[i].token.familyId)
  {
    var row := Written(p, w.tasks[i], input).value;
    NewRowEffect(p, w.db, w.tasks[i], input);
    assert row in Advance(p, w, i, input).db.refreshTokens;
  }

  lemma RotateThenChain(p: Platform, w: World, i: nat, input: Input)
    requires i < |w.tasks| && w.tasks[i].RefreshRotate?
    ensures var next := Advance(p, w, i, input).tasks;
            |next| == |w.tasks| && next[i].RefreshChain? && next[i].token == w.tasks[i].token
  {
  }

  ghost predicate CanRevive(p: Platform, w: World, familyId: string) {
    exists worlds: seq<World>, moves: seq<Move> ::
      Continues(p, w, worlds, moves, familyId) && !AllRevoked(worlds[|moves|].db.refreshTokens, familyId)
  }

  lemma OneMoveContinues(p: Platform, w: World, move: Move, familyId: string)
    requires Permitted(p, w, move) && !Founds(w, move, familyId) && !AllRevoked(Do(p, w, move).db.refreshTokens, familyId)
    ensures CanRevive(p, w, familyId)
  {
    var worlds, moves := [w, Do(p, w, move)], [move];
    assert Continues(p, w, worlds, moves, familyId);
    assert worlds[|moves|] == Do(p, w, move);
  }

  lemma PrependMove(p: Platform, w: World, move: Move, familyId: string, rest: seq<World>, moves: seq<Move>)
    requires Permitted(p, w, move) && !Founds(w, move, familyId) && Continues(p, Do(p, w, move), rest, moves, familyId)
    ensures Continues(p, w, [w] + rest, [move] + moves, familyId)
  {
    var worlds, all := [w] + rest, [move] + moves;
    forall k | 0 <= k < |all|
      ensures Permitted(p, worlds[k], all[k]) && !Founds(worlds[k], all[k], familyId) && worlds[k + 1] == Do(p, worlds[k], all[k])
    {
      if k > 0 {
        assert worlds[k] == rest[k - 1] && all[k] == moves[k - 1] && worlds[k + 1] == rest[k - 1 + 1];
      }
    }
  }

  lemma ContinueAfter(p: Platform, w: World, move: Move, familyId: string)
    requires Permitted(p, w, move) && !Founds(w, move, familyId) && CanRevive(p, Do(p, w, move), familyId)
    ensures CanRevive(p, w, familyId)
  {
    var rest: seq<World>, moves: seq<Move> :|
      Continues(p, Do(p, w, move), rest, moves, familyId) && !AllRevoked(rest[|moves|].db.refreshTokens, familyId);
    PrependMove(p, w, move, familyId, rest, moves);
    assert ([w] + rest)[|[move] + moves|] == rest[|moves|];
  }

  lemma ChainCanRevive(p: Platform, w: World, i: nat, input: Input, familyId: string)
    requires i < |w.tasks| && w.tasks[i].RefreshChain? && w.tasks[i].token.familyId == familyId
    ensures CanRevive(p, w, familyId)
  {
    ChainRevives(p, w, i, input);
    OneMoveContinues(p, w, Proceed(i, input), familyId);
  }

  /** A request past its find brings the family a live row within two steps. */
  lemma PastFindRevives(p: Platform, w: World, i: nat, familyId: string, secret: string)
    requires i < |w.tasks| && Revives(w.tasks[i], familyId) && p.sha256Hex(secret) !in w.drawn
    ensures CanRevive(p, w, familyId)
  {
    var input := IdleInput(0).(secret := secret);
    if w.tasks[i].RefreshChain? {
      ChainCanRevive(p, w, i, input, familyId);
    } else {
      RotateThenChain(p, w, i, input);
      ChainCanRevive(p, Advance(p, w, i, input), i, input, familyId);
      ContinueAfter(p, w, Proceed(i, input), familyId);
    }
  }

  /**
   * A family whose rows are all revoked stays so in whatever follows exactly when, at that moment, no
   * request is under way that already found one of its tokens good.
   */
  lemma DeadForeverIff(p: Platform, w: World, familyId: string)
    requires AllRevoked(w.db.refreshTokens, familyId) && exists secret :: p.sha256Hex(secret) !in w.drawn
    ensures !CanRevive(p, w, familyId) <==> Quiet(w, familyId)
  {
    if Quiet(w, familyId) {
      forall worlds: seq<World>, moves: seq<Move> | Continues(p, w, worlds, moves, familyId)
        ensures AllRevoked(worlds[|moves|].db.refreshTokens, familyId)
      {
        QuietStaysDead(p, w, worlds, moves, familyId, |moves|);
      }
    } else {
      var i :| 0 <= i < |w.tasks| && Revives(w.tasks[i], familyId);
      var secret :| p.sha256Hex(secret) !in w.drawn;
      PastFindRevives(p, w, i, familyId, secret);
    }
  }
}
