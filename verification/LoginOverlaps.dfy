/**
 * Broker logins that overlap: every store operation of a login is a step of its own. Which logins give
 * an identity a second link, and exactly when every identity keeps one.
 */
module LoginOverlaps {
  import opened Tables
  import opened Jwt
  import opened Model
  import opened Authorization
  import opened AccountLinking

  /** Where a login stands, with the local variables it still needs. */
  datatype LoginTask =
    | LinkFind(profile: ProviderProfile, workspaceId: Option<string>)
    | AccountFind(link: ProviderLink, profile: ProviderProfile)
    | LinkRefresh(link: ProviderLink, profile: ProviderProfile, user: UserAccount)
    | EmailFind(profile: ProviderProfile, workspaceId: Option<string>)
    | AccountSave(profile: ProviderProfile, workspaceId: Option<string>)
    | LinkSave(user: UserAccount, profile: ProviderProfile)
    | LoggedIn(user: UserAccount)
    | LinkedUserMissing

  datatype LoginWorld = LoginWorld(db: PubAuthState, logins: seq<LoginTask>)

  /** What a step reads from the random source and the clock. */
  datatype LoginInput = LoginInput(draw: LinkDraw, at: LinkTimes)

  datatype LoginMove =
    | Arrive(profile: ProviderProfile, workspaceId: Option<string>)
    | Proceed(i: nat, input: LoginInput)
    | Elsewhere(next: PubAuthState)

  /** The store operation of one step. */
  function Effect(db: PubAuthState, login: LoginTask, input: LoginInput): PubAuthState {
    match login
    case LinkRefresh(link, profile, _) => SaveLink(db, RefreshedLink(link, profile, input.at))
    case AccountSave(profile, workspaceId) => SaveUser(db, NewUser(profile, workspaceId, input.draw, input.at))
    case LinkSave(user, profile) => SaveLink(db, NewLink(user, profile, input.draw, input.at))
    case _ => db
  }

  /** Where the login stands after its step; the reads it makes are of the state before the step. */
  function NextLogin(p: Platform, db: PubAuthState, login: LoginTask, input: LoginInput): LoginTask {
    match login
    case LinkFind(profile, workspaceId) =>
      (match FindLink(db, profile.providerName, profile.subject)
       case Some(link) => AccountFind(link, profile)
       case None => EmailFind(profile, workspaceId))
    case AccountFind(link, profile) =>
      (match Lookup(db.users, UserKey, link.userId)
       case Some(user) => LinkRefresh(link, profile, user)
       case None => LinkedUserMissing)
    case LinkRefresh(_, _, user) => LoggedIn(user)
    case EmailFind(profile, workspaceId) =>
      (match AccountForEmail(p, db, profile)
       case Some(user) => LinkSave(user, profile)
       case None => AccountSave(profile, workspaceId))
    case AccountSave(profile, workspaceId) => LinkSave(NewUser(profile, workspaceId, input.draw, input.at), profile)
    case LinkSave(user, _) => LoggedIn(user)
    case LoggedIn(_) => login
    case LinkedUserMissing => login
  }

  function Advance(p: Platform, w: LoginWorld, i: nat, input: LoginInput): LoginWorld
    requires i < |w.logins|
  {
    LoginWorld(Effect(w.db, w.logins[i], input), w.logins[i := NextLogin(p, w.db, w.logins[i], input)])
  }

  function Do(p: Platform, w: LoginWorld, move: LoginMove): LoginWorld
    requires move.Proceed? ==> move.i < |w.logins|
  {
    match move
    case Arrive(profile, workspaceId) => w.(logins := w.logins + [LinkFind(profile, workspaceId)])
    case Proceed(i, input) => Advance(p, w, i, input)
    case Elsewhere(next) => w.(db := next)
  }

  function LinkId(draw: LinkDraw): string { "provider-link-" + draw.linkSuffix }

  ghost predicate UsersKept(users: seq<UserAccount>, users': seq<UserAccount>) {
    forall id :: HasUser(users, id) ==> HasUser(users', id)
  }

  /** Link ids are drawn new; other services, local logins among them, keep the links and every account. */
  ghost predicate Drawn(w: LoginWorld, move: LoginMove) {
    match move
    case Arrive(_, _) => true
    case Proceed(i, input) =>
      i < |w.logins| && (w.logins[i].LinkSave? ==> forall l :: l in w.db.providerLinks ==> l.id != LinkId(input.draw))
    case Elsewhere(next) => next.providerLinks == w.db.providerLinks && UsersKept(w.db.users, next.users)
  }

  /** A history of logins, from a state whose links have ids of their own and accounts that exist. */
  ghost predicate History(p: Platform, worlds: seq<LoginWorld>, moves: seq<LoginMove>) {
    && |worlds| == |moves| + 1
    && worlds[0].logins == [] && UniqueKeys(worlds[0].db.providerLinks, LinkKey) && LinkedUsersExist(worlds[0].db)
    && forall k :: 0 <= k < |moves| ==> Drawn(worlds[k], moves[k]) && worlds[k + 1] == Do(p, worlds[k], moves[k])
  }

  /* ---------- what no interleaving breaks ---------- */

  /** A stored link with this id, of this identity, to this account. */
  ghost predicate Stored(links: seq<ProviderLink>, link: ProviderLink) {
    exists l :: l in links && l.id == link.id && SamePair(l, link) && l.userId == link.userId
  }

  ghost predicate LinksStay(links: seq<ProviderLink>, links': seq<ProviderLink>) {
    forall l :: Stored(links, l) ==> Stored(links', l)
  }

  ghost predicate LoginOk(db: PubAuthState, login: LoginTask) {
    match login
    case AccountFind(link, _) => Stored(db.providerLinks, link)
    case LinkRefresh(link, _, user) => Stored(db.providerLinks, link)
    case LinkSave(user, _) => HasUser(db.users, user.id)
    case LinkedUserMissing => false
    case _ => true
  }

  ghost predicate TablesOk(db: PubAuthState) {
    UniqueKeys(db.providerLinks, LinkKey) && LinkedUsersExist(db)
  }

  ghost predicate LoginsOk(w: LoginWorld) {
    TablesOk(w.db) && forall i :: 0 <= i < |w.logins| ==> LoginOk(w.db, w.logins[i])
  }

  ghost predicate DbGrows(db: PubAuthState, db': PubAuthState) {
    LinksStay(db.providerLinks, db'.providerLinks) && UsersKept(db.users, db'.users)
  }

  lemma SavedUserStays(db: PubAuthState, user: UserAccount)
    ensures UsersKept(db.users, SaveUser(db, user).users) && HasUser(SaveUser(db, user).users, user.id)
  {
    var users := SaveUser(db, user).users;
    assert user in users;
    forall id | HasUser(db.users, id)
      ensures HasUser(users, id)
    {
      var u :| u in db.users && u.id == id;
      assert id == user.id || u in users;
    }
  }

  /** Saving a link under a new id, or over a stored link of the same identity and account. */
  ghost predicate Savable(links: seq<ProviderLink>, row: ProviderLink) {
    (forall l :: l in links ==> l.id != row.id) || Stored(links, row)
  }

  lemma StoredIsTheOne(links: seq<ProviderLink>, row: ProviderLink, l: ProviderLink)
    requires UniqueKeys(links, LinkKey) && Stored(links, row) && l in links && l.id == row.id
    ensures SamePair(l, row) && l.userId == row.userId
  {
    var m :| m in links && m.id == row.id && SamePair(m, row) && m.userId == row.userId;
    LinkRowIsById(links, l, m);
  }

  lemma SavedLinkStays(links: seq<ProviderLink>, row: ProviderLink)
    requires UniqueKeys(links, LinkKey) && Savable(links, row)
    ensures LinksStay(links, Upsert(links, LinkKey, row)) && UniqueKeys(Upsert(links, LinkKey, row), LinkKey)
  {
    var links' := Upsert(links, LinkKey, row);
    UpsertUnique(links, LinkKey, row);
    assert row in links';
    forall l | Stored(links, l)
      ensures Stored(links', l)
    {
      var m :| m in links && m.id == l.id && SamePair(m, l) && m.userId == l.userId;
      if m.id == row.id {
        StoredIsTheOne(links, row, m);
      } else {
        assert m in links';
      }
    }
  }

  lemma SavedLinkTables(db: PubAuthState, row: ProviderLink)
    requires TablesOk(db) && Savable(db.providerLinks, row) && HasUser(db.users, row.userId)
    ensures TablesOk(SaveLink(db, row)) && DbGrows(db, SaveLink(db, row))
  {
    SavedLinkStays(db.providerLinks, row);
    SavedLinkUsersExist(db, row);
  }

  lemma StoredHasUser(db: PubAuthState, link: ProviderLink)
    requires LinkedUsersExist(db) && Stored(db.providerLinks, link)
    ensures HasUser(db.users, link.userId)
  {
    var l :| l in db.providerLinks && l.id == link.id && SamePair(l, link) && l.userId == link.userId;
    assert HasUser(db.users, l.userId);
  }

  lemma SavedUserTables(db: PubAuthState, user: UserAccount)
    requires TablesOk(db)
    ensures TablesOk(SaveUser(db, user)) && DbGrows(db, SaveUser(db, user))
  {
    SavedUserStays(db, user);
  }

  /** The id that a step saves a link under is new, or that of the link it refreshes. */
  ghost predicate DrawnFor(db: PubAuthState, login: LoginTask, input: LoginInput) {
    login.LinkSave? ==> forall l :: l in db.providerLinks ==> l.id != LinkId(input.draw)
  }

  lemma EffectGrows(db: PubAuthState, login: LoginTask, input: LoginInput)
    requires TablesOk(db) && LoginOk(db, login) && DrawnFor(db, login, input)
    ensures TablesOk(Effect(db, login, input)) && DbGrows(db, Effect(db, login, input))
  {
    match login
    case LinkRefresh(link, profile, _) => RefreshGrows(db, link, profile, input.at);
    case AccountSave(profile, workspaceId) => SavedUserTables(db, NewUser(profile, workspaceId, input.draw, input.at));
    case LinkSave(user, profile) => SavedLinkTables(db, NewLink(user, profile, input.draw, input.at));
    case _ =>
  }

  lemma RefreshGrows(db: PubAuthState, link: ProviderLink, profile: ProviderProfile, at: LinkTimes)
    requires TablesOk(db) && Stored(db.providerLinks, link)
    ensures var next := SaveLink(db, RefreshedLink(link, profile, at));
            TablesOk(next) && DbGrows(db, next)
  {
    var row := RefreshedLink(link, profile, at);
    StoredHasUser(db, link);
    assert Stored(db.providerLinks, row) by {
      var l :| l in db.providerLinks && l.id == link.id && SamePair(l, link) && l.userId == link.userId;
      assert SamePair(l, row);
    }
    SavedLinkTables(db, row);
  }

  lemma LoginStaysOk(db: PubAuthState, db': PubAuthState, login: LoginTask)
    requires LoginOk(db, login) && DbGrows(db, db')
    ensures LoginOk(db', login)
  {
  }

  lemma FoundIsStored(db: PubAuthState, profile: ProviderProfile)
    requires FindLink(db, profile.providerName, profile.subject).Some?
    ensures Stored(db.providerLinks, FindLink(db, profile.providerName, profile.subject).value)
  {
    var link := FindLink(db, profile.providerName, profile.subject).value;
    assert SamePair(link, link);
  }

  lemma NextLoginOk(p: Platform, db: PubAuthState, login: LoginTask, input: LoginInput)
    requires TablesOk(db) && LoginOk(db, login) && DrawnFor(db, login, input)
    ensures LoginOk(Effect(db, login, input), NextLogin(p, db, login, input))
  {
    match login
    case LinkFind(profile, _) =>
      if FindLink(db, profile.providerName, profile.subject).Some? {
        FoundIsStored(db, profile);
      }
    case AccountFind(link, _) =>
      StoredHasUser(db, link);
      var u :| u in db.users && u.id == link.userId;
      assert UserKey(u) == link.userId;
    case AccountSave(profile, workspaceId) => SavedUserStays(db, NewUser(profile, workspaceId, input.draw, input.at));
    case _ =>
  }

  lemma MoveKeepsLogins(p: Platform, w: LoginWorld, move: LoginMove)
    requires LoginsOk(w) && Drawn(w, move)
    ensures LoginsOk(Do(p, w, move)) && DbGrows(w.db, Do(p, w, move).db)
  {
    if move.Proceed? {
      EffectGrows(w.db, w.logins[move.i], move.input);
      NextLoginOk(p, w.db, w.logins[move.i], move.input);
    }
    var w' := Do(p, w, move);
    forall i | 0 <= i < |w.logins| && !(move.Proceed? && i == move.i)
      ensures LoginOk(w'.db, w'.logins[i])
    {
      assert w'.logins[i] == w.logins[i];
      LoginStaysOk(w.db, w'.db, w.logins[i]);
    }
  }

  lemma {:induction false} LoginsOkAt(p: Platform, worlds: seq<LoginWorld>, moves: seq<LoginMove>, k: nat)
    requires History(p, worlds, moves) && k < |worlds|
    ensures LoginsOk(worlds[k])
  {
    if k > 0 {
      var n := k - 1;
      LoginsOkAt(p, worlds, moves, n);
      MoveKeepsLogins(p, worlds[n], moves[n]);
      assert worlds[n + 1] == Do(p, worlds[n], moves[n]);
    }
  }

  /** In every interleaving, no login ever finds its linked account missing. */
  lemma LinkedUserNeverMissing(p: Platform, worlds: seq<LoginWorld>, moves: seq<LoginMove>, k: nat, i: nat)
    requires History(p, worlds, moves) && k < |worlds| && i < |worlds[k].logins|
    ensures !worlds[k].logins[i].LinkedUserMissing?
  {
    LoginsOkAt(p, worlds, moves, k);
    assert LoginOk(worlds[k].db, worlds[k].logins[i]);
  }

  /* ---------- one link per identity, exactly when ---------- */

  ghost predicate Linked(links: seq<ProviderLink>, provider: string, subject: string) {
    exists l :: l in links && l.provider == provider && l.providerSubject == subject
  }

  /** This move saves a new link of the identity. */
  predicate Saves(w: LoginWorld, move: LoginMove, provider: string, subject: string) {
    move.Proceed? && move.i < |w.logins| && w.logins[move.i].LinkSave?
    && w.logins[move.i].profile.providerName == provider && w.logins[move.i].profile.subject == subject
  }

  /** This move saves a new link of an identity that has one. */
  ghost predicate SavesSecond(w: LoginWorld, move: LoginMove) {
    && move.Proceed? && move.i < |w.logins| && w.logins[move.i].LinkSave?
    && Linked(w.db.providerLinks, w.logins[move.i].profile.providerName, w.logins[move.i].profile.subject)
  }

  /** With a new id, saving keeps one link per identity exactly when the identity had none. */
  lemma SaveKeepsOneIff(links: seq<ProviderLink>, row: ProviderLink)
    requires OnePerIdentity(links) && forall l :: l in links ==> l.id != row.id
    ensures OnePerIdentity(Upsert(links, LinkKey, row)) <==> !Linked(links, row.provider, row.providerSubject)
  {
    var links' := Upsert(links, LinkKey, row);
    UpsertUnique(links, LinkKey, row);
    assert row in links';
    if Linked(links, row.provider, row.providerSubject) {
      var l :| l in links && l.provider == row.provider && l.providerSubject == row.providerSubject;
      assert l in links' && SamePair(l, row) && l != row;
    }
  }

  /** Two links of one identity stay two. */
  lemma TwoStayTwo(links: seq<ProviderLink>, links': seq<ProviderLink>)
    requires UniqueKeys(links, LinkKey) && LinksStay(links, links') && !OnePerIdentity(links)
    ensures !OnePerIdentity(links')
  {
    var a, b :| a in links && b in links && SamePair(a, b) && a != b;
    if a.id == b.id {
      LinkRowIsById(links, a, b);
    }
    assert SamePair(a, a) && SamePair(b, b);
    assert Stored(links, a) && Stored(links, b);
    var a' :| a' in links' && a'.id == a.id && SamePair(a', a) && a'.userId == a.userId;
    var b' :| b' in links' && b'.id == b.id && SamePair(b', b) && b'.userId == b.userId;
    assert SamePair(a', b') && a' != b';
  }

  lemma RefreshKeepsOne(db: PubAuthState, link: ProviderLink, profile: ProviderProfile, at: LinkTimes)
    requires OnePerIdentity(db.providerLinks) && Stored(db.providerLinks, link)
    ensures OnePerIdentity(SaveLink(db, RefreshedLink(link, profile, at)).providerLinks)
  {
    var row := RefreshedLink(link, profile, at);
    var l :| l in db.providerLinks && l.id == link.id && SamePair(l, link) && l.userId == link.userId;
    assert SamePair(l, row);
    forall m | m in db.providerLinks && m.id == row.id
      ensures m == l
    {
      LinkRowIsById(db.providerLinks, m, l);
    }
    SavedLinkOnePerIdentity(db.providerLinks, row);
  }

  /** The links after a move: as before, or with one link refreshed or saved. */
  lemma LinksAfterMove(p: Platform, w: LoginWorld, move: LoginMove)
    requires Drawn(w, move)
    ensures var links, links' := w.db.providerLinks, Do(p, w, move).db.providerLinks;
            if move.Proceed? && w.logins[move.i].LinkSave? then
              links' == Upsert(links, LinkKey, NewLink(w.logins[move.i].user, w.logins[move.i].profile, move.input.draw, move.input.at))
            else if move.Proceed? && w.logins[move.i].LinkRefresh? then
              links' == Upsert(links, LinkKey, RefreshedLink(w.logins[move.i].link, w.logins[move.i].profile, move.input.at))
            else links' == links
  {
  }

  lemma OneKeptIff(p: Platform, w: LoginWorld, move: LoginMove)
    requires LoginsOk(w) && Drawn(w, move) && OnePerIdentity(w.db.providerLinks)
    ensures OnePerIdentity(Do(p, w, move).db.providerLinks) <==> !SavesSecond(w, move)
  {
    LinksAfterMove(p, w, move);
    if move.Proceed? && w.logins[move.i].LinkSave? {
      SaveKeepsOneIff(w.db.providerLinks, NewLink(w.logins[move.i].user, w.logins[move.i].profile, move.input.draw, move.input.at));
    } else if move.Proceed? && w.logins[move.i].LinkRefresh? {
      assert LoginOk(w.db, w.logins[move.i]);
      RefreshKeepsOne(w.db, w.logins[move.i].link, w.logins[move.i].profile, move.input.at);
    }
  }

  lemma OneAfterIff(p: Platform, w: LoginWorld, move: LoginMove)
    requires LoginsOk(w) && Drawn(w, move)
    ensures OnePerIdentity(Do(p, w, move).db.providerLinks) <==> OnePerIdentity(w.db.providerLinks) && !SavesSecond(w, move)
  {
    if OnePerIdentity(w.db.providerLinks) {
      OneKeptIff(p, w, move);
    } else {
      MoveKeepsLogins(p, w, move);
      TwoStayTwo(w.db.providerLinks, Do(p, w, move).db.providerLinks);
    }
  }

  ghost predicate NoSecondBefore(worlds: seq<LoginWorld>, moves: seq<LoginMove>, k: nat)
    requires k <= |moves| < |worlds|
  {
    forall j :: 0 <= j < k ==> !SavesSecond(worlds[j], moves[j])
  }

  /**
   * In every interleaving every identity has at most one link exactly when every new link was saved
   * while its identity had none.
   */
  lemma {:induction false} OneLinkIff(p: Platform, worlds: seq<LoginWorld>, moves: seq<LoginMove>, k: nat)
    requires History(p, worlds, moves) && k <= |moves| && OnePerIdentity(worlds[0].db.providerLinks)
    ensures OnePerIdentity(worlds[k].db.providerLinks) <==> NoSecondBefore(worlds, moves, k)
  {
    if k > 0 {
      var n := k - 1;
      OneLinkIff(p, worlds, moves, n);
      LoginsOkAt(p, worlds, moves, n);
      OneAfterIff(p, worlds[n], moves[n]);
      assert worlds[n + 1] == Do(p, worlds[n], moves[n]);
    }
  }

  /* ---------- which logins save a second link ---------- */

  /** An identity is linked after a move exactly if it was before or the move saved its link. */
  lemma LinkedAfter(p: Platform, w: LoginWorld, move: LoginMove, provider: string, subject: string)
    requires LoginsOk(w) && Drawn(w, move)
    ensures Linked(Do(p, w, move).db.providerLinks, provider, subject)
            <==> Linked(w.db.providerLinks, provider, subject) || Saves(w, move, provider, subject)
  {
    LinksAfterMove(p, w, move);
    if move.Proceed? && w.logins[move.i].LinkSave? {
      LinkedAfterSave(w.db.providerLinks, NewLink(w.logins[move.i].user, w.logins[move.i].profile, move.input.draw, move.input.at), provider, subject);
    } else if move.Proceed? && w.logins[move.i].LinkRefresh? {
      assert LoginOk(w.db, w.logins[move.i]);
      LinkedAfterRefresh(w.db.providerLinks, w.logins[move.i].link, w.logins[move.i].profile, move.input.at, provider, subject);
    }
  }

  lemma LinkedAfterSave(links: seq<ProviderLink>, row: ProviderLink, provider: string, subject: string)
    requires forall l :: l in links ==> l.id != row.id
    ensures Linked(Upsert(links, LinkKey, row), provider, subject)
            <==> Linked(links, provider, subject) || (row.provider == provider && row.providerSubject == subject)
  {
    UpsertAppends(links, LinkKey, row);
  }

  lemma LinkedAfterRefresh(links: seq<ProviderLink>, link: ProviderLink, profile: ProviderProfile, at: LinkTimes,
                           provider: string, subject: string)
    requires UniqueKeys(links, LinkKey) && Stored(links, link)
    ensures Linked(Upsert(links, LinkKey, RefreshedLink(link, profile, at)), provider, subject) <==> Linked(links, provider, subject)
  {
    var row := RefreshedLink(link, profile, at);
    var l :| l in links && l.id == link.id && SamePair(l, link) && l.userId == link.userId;
    var links' := Upsert(links, LinkKey, row);
    assert row in links' && SamePair(row, l);
    if Linked(links, provider, subject) {
      var m :| m in links && m.provider == provider && m.providerSubject == subject;
      if m.id == row.id {
        LinkRowIsById(links, m, l);
      } else {
        assert m in links';
      }
    }
  }

  ghost predicate SavedBetween(worlds: seq<LoginWorld>, moves: seq<LoginMove>, k: nat, m: nat, provider: string,
                               subject: string)
    requires m <= |moves| < |worlds|
  {
    exists j :: k <= j < m && Saves(worlds[j], moves[j], provider, subject)
  }

  lemma {:induction false} LinkedSince(p: Platform, worlds: seq<LoginWorld>, moves: seq<LoginMove>, k: nat, m: nat,
                                       provider: string,
                                       subject: string)
    requires History(p, worlds, moves) && k <= m <= |moves|
    ensures Linked(worlds[m].db.providerLinks, provider, subject)
            <==> Linked(worlds[k].db.providerLinks, provider, subject) || SavedBetween(worlds, moves, k, m, provider, subject)
  {
    if k < m {
      var n := m - 1;
      LinkedSince(p, worlds, moves, k, n, provider, subject);
      LoginsOkAt(p, worlds, moves, n);
      LinkedAfter(p, worlds[n], moves[n], provider, subject);
      assert worlds[n + 1] == Do(p, worlds[n], moves[n]);
      assert SavedBetween(worlds, moves, k, m, provider, subject)
             <==> SavedBetween(worlds, moves, k, n, provider, subject) || Saves(worlds[n], moves[n], provider, subject);
    }
  }

  /** The login found no link and is on its way to save one. */
  predicate First(login: LoginTask, profile: ProviderProfile) {
    (login.EmailFind? || login.AccountSave? || login.LinkSave?) && login.profile == profile
  }

  /** The login will never save a new link. */
  predicate Settled(login: LoginTask) {
    login.AccountFind? || login.LinkRefresh? || login.LoggedIn? || login.LinkedUserMissing?
  }

  lemma CourseStays(p: Platform, w: LoginWorld, move: LoginMove, i: nat, profile: ProviderProfile)
    requires Drawn(w, move) && i < |w.logins|
    ensures i < |Do(p, w, move).logins|
    ensures Settled(w.logins[i]) ==> Settled(Do(p, w, move).logins[i])
    ensures First(w.logins[i], profile) ==> First(Do(p, w, move).logins[i], profile) || Settled(Do(p, w, move).logins[i])
  {
  }

  lemma {:induction false} CourseFrom(p: Platform, worlds: seq<LoginWorld>, moves: seq<LoginMove>, k: nat, m: nat, i: nat,
                                      profile: ProviderProfile)
    requires History(p, worlds, moves) && k <= m < |worlds| && i < |worlds[k].logins|
    ensures i < |worlds[m].logins|
    ensures Settled(worlds[k].logins[i]) ==> Settled(worlds[m].logins[i])
    ensures First(worlds[k].logins[i], profile) ==> First(worlds[m].logins[i], profile) || Settled(worlds[m].logins[i])
  {
    if k < m {
      var n := m - 1;
      CourseFrom(p, worlds, moves, k, n, i, profile);
      CourseStays(p, worlds[n], moves[n], i, profile);
      assert worlds[n + 1] == Do(p, worlds[n], moves[n]);
    }
  }

  /** Login `i` looks its identity up at step `k`. */
  predicate LooksUp(worlds: seq<LoginWorld>, moves: seq<LoginMove>, k: nat, i: nat, profile: ProviderProfile)
    requires |worlds| == |moves| + 1
  {
    k < |moves| && moves[k].Proceed? && moves[k].i == i && i < |worlds[k].logins|
    && worlds[k].logins[i].LinkFind? && worlds[k].logins[i].profile == profile
  }

  /** Login `i` saves a new link at step `m`. */
  predicate SavesLink(worlds: seq<LoginWorld>, moves: seq<LoginMove>, m: nat, i: nat)
    requires |worlds| == |moves| + 1
  {
    m < |moves| && moves[m].Proceed? && moves[m].i == i && i < |worlds[m].logins| && worlds[m].logins[i].LinkSave?
  }

  lemma LookupDecides(p: Platform, w: LoginWorld, i: nat, input: LoginInput)
    requires i < |w.logins| && w.logins[i].LinkFind?
    ensures var profile, next := w.logins[i].profile, Advance(p, w, i, input).logins[i];
            if Linked(w.db.providerLinks, profile.providerName, profile.subject) then Settled(next)
            else First(next, profile)
  {
    var profile := w.logins[i].profile;
    if FindLink(w.db, profile.providerName, profile.subject).None? {
      assert forall l :: l in w.db.providerLinks ==> !(l.provider == profile.providerName && l.providerSubject == profile.subject);
    }
  }

  /**
   * A login saves a second link for its identity exactly when another login saved one after this one
   * had looked the identity up and before it saved its own.
   */
  lemma SecondLinkIff(p: Platform, worlds: seq<LoginWorld>, moves: seq<LoginMove>, k: nat, m: nat, i: nat,
                      profile: ProviderProfile)
    requires History(p, worlds, moves) && k < m && LooksUp(worlds, moves, k, i, profile) && SavesLink(worlds, moves, m, i)
    ensures worlds[m].logins[i].profile == profile
    ensures SavesSecond(worlds[m], moves[m])
            <==> exists j :: k < j < m && moves[j].Proceed? && moves[j].i != i && Saves(worlds[j], moves[j], profile.providerName, profile.subject)
  {
    LookupDecides(p, worlds[k], i, moves[k].input);
    assert worlds[k + 1] == Do(p, worlds[k], moves[k]);
    CourseFrom(p, worlds, moves, k + 1, m, i, profile);
    LinkedSince(p, worlds, moves, k, m, profile.providerName, profile.subject);
    forall j | k < j < m && Saves(worlds[j], moves[j], profile.providerName, profile.subject)
      ensures moves[j].i != i
    {
      OwnSaveIsLast(p, worlds, moves, j, m, i);
    }
  }

  /** A login saves no more than one new link. */
  lemma OwnSaveIsLast(p: Platform, worlds: seq<LoginWorld>, moves: seq<LoginMove>, j: nat, m: nat, i: nat)
    requires History(p, worlds, moves) && j < m && SavesLink(worlds, moves, m, i)
    ensures !SavesLink(worlds, moves, j, i)
  {
    if SavesLink(worlds, moves, j, i) {
      assert worlds[j + 1] == Do(p, worlds[j], moves[j]);
      CourseFrom(p, worlds, moves, j + 1, m, i, worlds[m].logins[i].profile);
    }
  }

  /** Every login that is past its look-up made one. */
  lemma {:induction false} LookedUpBefore(p: Platform, worlds: seq<LoginWorld>, moves: seq<LoginMove>, m: nat, i: nat,
                                          profile: ProviderProfile)
    requires History(p, worlds, moves) && m < |worlds| && i < |worlds[m].logins| && First(worlds[m].logins[i], profile)
    ensures exists k :: 0 <= k < m && LooksUp(worlds, moves, k, i, profile)
    decreases m
  {
    assert m > 0;
    var n := m - 1;
    assert worlds[n + 1] == Do(p, worlds[n], moves[n]);
    FirstCameFrom(p, worlds[n], moves[n], i, profile);
    if First(worlds[n].logins[i], profile) {
      LookedUpBefore(p, worlds, moves, n, i, profile);
    } else {
      assert LooksUp(worlds, moves, n, i, profile);
    }
  }

  lemma FirstCameFrom(p: Platform, w: LoginWorld, move: LoginMove, i: nat, profile: ProviderProfile)
    requires Drawn(w, move) && i < |Do(p, w, move).logins| && First(Do(p, w, move).logins[i], profile)
    ensures i < |w.logins|
    ensures First(w.logins[i], profile)
            || (move.Proceed? && move.i == i && w.logins[i].LinkFind? && w.logins[i].profile == profile)
  {
  }

  /** Two first logins of one identity overlap: one saves its link between the other's look-up and save. */
  ghost predicate FirstLoginsOverlap(worlds: seq<LoginWorld>, moves: seq<LoginMove>)
    requires |worlds| == |moves| + 1
  {
    exists k: nat, j: nat, m: nat, i: nat, profile :: OverlapAt(worlds, moves, k, j, m, i, profile)
  }

  /** Login `i` looks the identity up at `k` and saves its link at `m`; another one saves a link of it at `j` in between. */
  ghost predicate OverlapAt(worlds: seq<LoginWorld>, moves: seq<LoginMove>, k: nat, j: nat, m: nat, i: nat,
                            profile: ProviderProfile)
    requires |worlds| == |moves| + 1
  {
    && k < j < m && LooksUp(worlds, moves, k, i, profile) && SavesLink(worlds, moves, m, i)
    && moves[j].Proceed? && moves[j].i != i && Saves(worlds[j], moves[j], profile.providerName, profile.subject)
  }

  /** In every interleaving each identity keeps at most one link exactly when no two of its first logins overlap. */
  lemma OneLinkUnlessOverlap(p: Platform, worlds: seq<LoginWorld>, moves: seq<LoginMove>)
    requires History(p, worlds, moves) && OnePerIdentity(worlds[0].db.providerLinks)
    ensures OnePerIdentity(worlds[|moves|].db.providerLinks) <==> !FirstLoginsOverlap(worlds, moves)
  {
    OneLinkIff(p, worlds, moves, |moves|);
    if FirstLoginsOverlap(worlds, moves) {
      OverlapSavesSecond(p, worlds, moves);
    } else {
      forall m | 0 <= m < |moves|
        ensures !SavesSecond(worlds[m], moves[m])
      {
        if SavesSecond(worlds[m], moves[m]) {
          SecondIsOverlap(p, worlds, moves, m);
        }
      }
    }
  }

  lemma OverlapSavesSecond(p: Platform, worlds: seq<LoginWorld>, moves: seq<LoginMove>)
    requires History(p, worlds, moves) && FirstLoginsOverlap(worlds, moves)
    ensures !NoSecondBefore(worlds, moves, |moves|)
  {
    var k: nat, j: nat, m: nat, i: nat, profile :| OverlapAt(worlds, moves, k, j, m, i, profile);
    SecondLinkIff(p, worlds, moves, k, m, i, profile);
    assert SavesSecond(worlds[m], moves[m]);
  }

  lemma SecondIsOverlap(p: Platform, worlds: seq<LoginWorld>, moves: seq<LoginMove>, m: nat)
    requires History(p, worlds, moves) && m < |moves| && SavesSecond(worlds[m], moves[m])
    ensures FirstLoginsOverlap(worlds, moves)
  {
    var i, profile := moves[m].i, worlds[m].logins[moves[m].i].profile;
    LookedUpBefore(p, worlds, moves, m, i, profile);
    var k :| 0 <= k < m && LooksUp(worlds, moves, k, i, profile);
    SecondLinkIff(p, worlds, moves, k, m, i, profile);
    var j :| k < j < m && moves[j].Proceed? && moves[j].i != i && Saves(worlds[j], moves[j], profile.providerName, profile.subject);
    assert OverlapAt(worlds, moves, k, j, m, i, profile);
  }

  /* ---------- a login that runs alone ---------- */

  function Alone(p: Platform, w: LoginWorld, i: nat, input: LoginInput, n: nat): (w': LoginWorld)
    requires i < |w.logins|
    ensures |w'.logins| == |w.logins|
    decreases n
  {
    if n == 0 then w else Alone(p, Advance(p, w, i, input), i, input, n - 1)
  }

  lemma FourSteps(p: Platform, w: LoginWorld, i: nat, input: LoginInput)
    requires i < |w.logins|
    ensures Alone(p, w, i, input, 4) == Advance(p, Advance(p, Advance(p, Advance(p, w, i, input), i, input), i, input), i, input)
  {
    var w2 := Advance(p, Advance(p, w, i, input), i, input);
    assert Alone(p, w, i, input, 4) == Alone(p, w2, i, input, 2);
    assert Alone(p, w2, i, input, 2) == Alone(p, Advance(p, w2, i, input), i, input, 1);
  }

  /** Login `i` is where a login ends that did `outcome` as a whole. */
  predicate EndsAs(w: LoginWorld, i: nat, outcome: (PubAuthState, Result<UserAccount>)) {
    && i < |w.logins| && w.db == outcome.0
    && w.logins[i] == match outcome.1 case Ok(user) => LoggedIn(user) case Err(_) => LinkedUserMissing
  }

  lemma LinkedAlone(p: Platform, w: LoginWorld, i: nat, profile: ProviderProfile, workspaceId: Option<string>,
                    draw: LinkDraw, at: LinkTimes)
    requires i < |w.logins| && w.logins[i] == LinkFind(profile, workspaceId)
    requires FindLink(w.db, profile.providerName, profile.subject).Some?
    ensures EndsAs(Alone(p, w, i, LoginInput(draw, at), 4), i, ResolveUser(p, w.db, profile, workspaceId, draw, at))
  {
    var input, link := LoginInput(draw, at), FindLink(w.db, profile.providerName, profile.subject).value;
    var w1 := Advance(p, w, i, input);
    assert w1.db == w.db && w1.logins[i] == AccountFind(link, profile);
    var w2 := Advance(p, w1, i, input);
    assert w2.db == w.db;
    var w3 := Advance(p, w2, i, input);
    assert Advance(p, w3, i, input).db == w3.db;
    FourSteps(p, w, i, input);
  }

  lemma FirstAlone(p: Platform, w: LoginWorld, i: nat, profile: ProviderProfile, workspaceId: Option<string>,
                   draw: LinkDraw, at: LinkTimes)
    requires i < |w.logins| && w.logins[i] == LinkFind(profile, workspaceId)
    requires FindLink(w.db, profile.providerName, profile.subject).None?
    ensures EndsAs(Alone(p, w, i, LoginInput(draw, at), 4), i, ResolveUser(p, w.db, profile, workspaceId, draw, at))
  {
    var input := LoginInput(draw, at);
    var w1 := Advance(p, w, i, input);
    assert w1.db == w.db && w1.logins[i] == EmailFind(profile, workspaceId);
    var w2 := Advance(p, w1, i, input);
    assert w2.db == w.db;
    var w3 := Advance(p, w2, i, input);
    assert w3.logins[i].LoggedIn? || w3.logins[i].LinkSave?;
    FourSteps(p, w, i, input);
  }

  /** Run without interruption, the steps of a login do what it does as a whole. */
  lemma AloneIsResolve(p: Platform, w: LoginWorld, i: nat, profile: ProviderProfile, workspaceId: Option<string>,
                       draw: LinkDraw, at: LinkTimes)
    requires i < |w.logins| && w.logins[i] == LinkFind(profile, workspaceId)
    ensures EndsAs(Alone(p, w, i, LoginInput(draw, at), 4), i, ResolveUser(p, w.db, profile, workspaceId, draw, at))
  {
    if FindLink(w.db, profile.providerName, profile.subject).Some? {
      LinkedAlone(p, w, i, profile, workspaceId, draw, at);
    } else {
      FirstAlone(p, w, i, profile, workspaceId, draw, at);
    }
  }

  /* ---------- two first logins that overlap ---------- */

  /** Some moves lead from the state without logins to this world. */
  ghost predicate Reachable(p: Platform, db: PubAuthState, w: LoginWorld) {
    exists worlds: seq<LoginWorld>, moves: seq<LoginMove> ::
      History(p, worlds, moves) && worlds[0] == LoginWorld(db, []) && worlds[|moves|] == w
  }

  lemma ReachStart(p: Platform, db: PubAuthState)
    requires TablesOk(db)
    ensures Reachable(p, db, LoginWorld(db, []))
  {
    var worlds: seq<LoginWorld>, moves: seq<LoginMove> := [LoginWorld(db, [])], [];
    assert History(p, worlds, moves) && worlds[|moves|] == LoginWorld(db, []);
  }

  lemma HistoryGrows(p: Platform, worlds: seq<LoginWorld>, moves: seq<LoginMove>, move: LoginMove)
    requires History(p, worlds, moves) && Drawn(worlds[|moves|], move)
    ensures History(p, worlds + [Do(p, worlds[|moves|], move)], moves + [move])
  {
    var worlds', moves' := worlds + [Do(p, worlds[|moves|], move)], moves + [move];
    forall k | 0 <= k < |moves'|
      ensures Drawn(worlds'[k], moves'[k]) && worlds'[k + 1] == Do(p, worlds'[k], moves'[k])
    {
      if k < |moves| {
        assert worlds'[k] == worlds[k] && worlds'[k + 1] == worlds[k + 1];
      }
    }
  }

  lemma ReachMove(p: Platform, db: PubAuthState, w: LoginWorld, move: LoginMove)
    requires Reachable(p, db, w) && Drawn(w, move)
    ensures Reachable(p, db, Do(p, w, move))
  {
    var worlds: seq<LoginWorld>, moves: seq<LoginMove> :|
      History(p, worlds, moves) && worlds[0] == LoginWorld(db, []) && worlds[|moves|] == w;
    HistoryGrows(p, worlds, moves, move);
    var worlds', moves' := worlds + [Do(p, w, move)], moves + [move];
    assert worlds'[0] == LoginWorld(db, []) && worlds'[|moves'|] == Do(p, w, move);
  }

  /** An identity that no link and no account of its address is known for. */
  predicate Unknown(p: Platform, db: PubAuthState, profile: ProviderProfile) {
    FindLink(db, profile.providerName, profile.subject).None? && AccountForEmail(p, db, profile).None?
  }

  lemma ReachTwoFinds(p: Platform, db: PubAuthState, profile: ProviderProfile)
    requires TablesOk(db)
    ensures Reachable(p, db, LoginWorld(db, [LinkFind(profile, None), LinkFind(profile, None)]))
  {
    var find, arrive := LinkFind(profile, None), Arrive(profile, None);
    ReachStart(p, db);
    ReachMove(p, db, LoginWorld(db, []), arrive);
    assert Do(p, LoginWorld(db, []), arrive) == LoginWorld(db, [find]);
    ReachMove(p, db, LoginWorld(db, [find]), arrive);
    assert [find] + [find] == [find, find];
  }

  /** Both logins take the same step that only reads. */
  lemma ReachBothRead(p: Platform, db: PubAuthState, task: LoginTask, next: LoginTask, input: LoginInput)
    requires Reachable(p, db, LoginWorld(db, [task, task])) && (task.LinkFind? || task.EmailFind?)
    requires NextLogin(p, db, task, input) == next
    ensures Reachable(p, db, LoginWorld(db, [next, next]))
  {
    ReachMove(p, db, LoginWorld(db, [task, task]), Proceed(0, input));
    assert [task, task][0 := next] == [next, task];
    assert Do(p, LoginWorld(db, [task, task]), Proceed(0, input)) == LoginWorld(db, [next, task]);
    ReachMove(p, db, LoginWorld(db, [next, task]), Proceed(1, input));
    assert [next, task][1 := next] == [next, next];
  }

  lemma ReachTwoFirst(p: Platform, db: PubAuthState, profile: ProviderProfile, input: LoginInput)
    requires TablesOk(db) && Unknown(p, db, profile)
    ensures Reachable(p, db, LoginWorld(db, [AccountSave(profile, None), AccountSave(profile, None)]))
  {
    ReachTwoFinds(p, db, profile);
    ReachBothRead(p, db, LinkFind(profile, None), EmailFind(profile, None), input);
    ReachBothRead(p, db, EmailFind(profile, None), AccountSave(profile, None), input);
  }

  /** Both logins have succeeded, with accounts of their own, and each account is linked to the identity. */
  ghost predicate LinkedTwice(w: LoginWorld, profile: ProviderProfile) {
    && |w.logins| == 2 && w.logins[0].LoggedIn? && w.logins[1].LoggedIn?
    && w.logins[0].user.id != w.logins[1].user.id
    && (forall i :: 0 <= i < 2 ==> exists l :: l in w.db.providerLinks && l.provider == profile.providerName
                                               && l.providerSubject == profile.subject && l.userId == w.logins[i].user.id)
    && !OnePerIdentity(w.db.providerLinks)
  }

  /**
   * Two first logins of one identity do end with two links: for any identity not known yet, some
   * interleaving gives it two accounts and links it to both.
   */
  lemma DoubleLinkReachable(p: Platform, db: PubAuthState, profile: ProviderProfile, a: LoginInput, b: LoginInput)
    requires TablesOk(db) && Unknown(p, db, profile)
    requires a.draw.userSuffix != b.draw.userSuffix && a.draw.linkSuffix != b.draw.linkSuffix
    requires forall l :: l in db.providerLinks ==> l.id != LinkId(a.draw) && l.id != LinkId(b.draw)
    ensures exists w :: Reachable(p, db, w) && LinkedTwice(w, profile)
  {
    var u, v := NewUser(profile, None, a.draw, a.at), NewUser(profile, None, b.draw, b.at);
    var w := LoginWorld(SaveUser(SaveUser(db, u), v), [LinkSave(u, profile), LinkSave(v, profile)]);
    ReachTwoFirst(p, db, profile, a);
    ReachTwoSaved(p, db, profile, a, b);
    assert u.id[|"user-account-"|..] == a.draw.userSuffix && v.id[|"user-account-"|..] == b.draw.userSuffix;
    DoubleSave(p, db, w, profile, u, v, a, b);
  }

  lemma ReachTwoSaved(p: Platform, db: PubAuthState, profile: ProviderProfile, a: LoginInput, b: LoginInput)
    requires Reachable(p, db, LoginWorld(db, [AccountSave(profile, None), AccountSave(profile, None)]))
    ensures var u, v := NewUser(profile, None, a.draw, a.at), NewUser(profile, None, b.draw, b.at);
            Reachable(p, db, LoginWorld(SaveUser(SaveUser(db, u), v), [LinkSave(u, profile), LinkSave(v, profile)]))
  {
    var save := AccountSave(profile, None);
    var u, v := NewUser(profile, None, a.draw, a.at), NewUser(profile, None, b.draw, b.at);
    var w0, w1 := LoginWorld(db, [save, save]), LoginWorld(SaveUser(db, u), [LinkSave(u, profile), save]);
    ReachMove(p, db, w0, Proceed(0, a));
    assert [save, save][0 := LinkSave(u, profile)] == w1.logins;
    assert Do(p, w0, Proceed(0, a)) == w1;
    ReachMove(p, db, w1, Proceed(1, b));
    assert w1.logins[1 := LinkSave(v, profile)] == [LinkSave(u, profile), LinkSave(v, profile)];
  }

  lemma DoubleSave(p: Platform, db: PubAuthState, w: LoginWorld, profile: ProviderProfile, u: UserAccount,
                   v: UserAccount, a: LoginInput,
                   b: LoginInput)
    requires Reachable(p, db, w) && w.logins == [LinkSave(u, profile), LinkSave(v, profile)] && u.id != v.id
    requires a.draw.linkSuffix != b.draw.linkSuffix && UniqueKeys(w.db.providerLinks, LinkKey)
    requires forall l :: l in w.db.providerLinks ==> l.id != LinkId(a.draw) && l.id != LinkId(b.draw)
    ensures exists w' :: Reachable(p, db, w') && LinkedTwice(w', profile)
  {
    var x, y := NewLink(u, profile, a.draw, a.at), NewLink(v, profile, b.draw, b.at);
    assert x.id != y.id by {
      assert x.id[|"provider-link-"|..] == a.draw.linkSuffix && y.id[|"provider-link-"|..] == b.draw.linkSuffix;
    }
    var w1 := LoginWorld(SaveLink(w.db, x), [LoggedIn(u), LinkSave(v, profile)]);
    ReachMove(p, db, w, Proceed(0, a));
    assert Do(p, w, Proceed(0, a)) == w1;
    ReachMove(p, db, w1, Proceed(1, b));
    var w2 := LoginWorld(SaveLink(w1.db, y), [LoggedIn(u), LoggedIn(v)]);
    assert Do(p, w1, Proceed(1, b)) == w2;
    assert x in w2.db.providerLinks && y in w2.db.providerLinks && SamePair(x, y) && x != y;
    assert LinkedTwice(w2, profile);
  }

  /** The same with every value given, on any platform: an empty state and a profile without address. */
  lemma IdentityIsLinkedTwice(p: Platform)
    ensures exists w :: Reachable(p, PubAuthState([], [], [], [], [], [], [], [], [], [], []), w)
                        && LinkedTwice(w, ProviderProfile("google", "s", None, None))
  {
    var at := LinkTimes(0, 0, 0, 0);
    DoubleLinkReachable(p, PubAuthState([], [], [], [], [], [], [], [], [], [], []), ProviderProfile("google", "s", None, None),
                        LoginInput(LinkDraw("a", "b"), at), LoginInput(LinkDraw("c", "d"), at));
  }
}
