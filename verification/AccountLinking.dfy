/** Broker logins: which account an external identity is linked to. */
module AccountLinking {
  import opened Tables
  import opened Jwt
  import opened Model
  import opened Authorization
  import opened TokenRuns

  datatype ProviderProfile = ProviderProfile(providerName: string, subject: string, email: Option<string>, displayName: Option<string>)

  /** The random tails of the two ids that a first login draws. */
  datatype LinkDraw = LinkDraw(userSuffix: string, linkSuffix: string)

  /** The clock readings of one login, in order. */
  datatype LinkTimes = LinkTimes(userCreated: Millis, userLogin: Millis, linkCreated: Millis, linkLogin: Millis)

  function LinkKey(row: ProviderLink): string { row.id }

  function FindLink(s: PubAuthState, provider: string, subject: string): (link: Option<ProviderLink>)
    ensures link.Some? ==> link.value in s.providerLinks && link.value.provider == provider && link.value.providerSubject == subject
    ensures link.None? ==> forall l :: l in s.providerLinks ==> l.provider != provider || l.providerSubject != subject
  {
    Find(s.providerLinks, (l: ProviderLink) => l.provider == provider && l.providerSubject == subject)
  }

  function FindByEmail(p: Platform, s: PubAuthState, email: string): (user: Option<UserAccount>)
    ensures user.Some? ==> user.value in s.users && user.value.active
  {
    Find(s.users, (u: UserAccount) => p.toLowerCase(u.email) == p.toLowerCase(email) && u.active)
  }

  function SaveLink(s: PubAuthState, link: ProviderLink): PubAuthState {
    s.(providerLinks := Upsert(s.providerLinks, LinkKey, link))
  }

  function NewUser(profile: ProviderProfile, workspaceId: Option<string>, draw: LinkDraw, at: LinkTimes): UserAccount {
    var external := profile.providerName + "-" + profile.subject;
    var address := if profile.email.Some? then profile.email.value else external + "@pubauth.external";
    UserAccount("user-account-" + draw.userSuffix, external, address, "external", address,
                if profile.displayName.Some? then profile.displayName.value
                else if profile.email.Some? then profile.email.value else profile.subject,
                if workspaceId.Some? then workspaceId.value else "workspace-core-platform",
                profile.providerName, false, true, at.userCreated, Some(at.userLogin))
  }

  function NewLink(user: UserAccount, profile: ProviderProfile, draw: LinkDraw, at: LinkTimes): ProviderLink {
    ProviderLink("provider-link-" + draw.linkSuffix, user.id, profile.providerName, profile.subject, profile.email, at.linkCreated, Some(at.linkLogin))
  }

  function RefreshedLink(link: ProviderLink, profile: ProviderProfile, at: LinkTimes): ProviderLink {
    link.(email := if profile.email.Some? then profile.email else link.email, lastLoginAt := Some(at.linkLogin))
  }

  /** An active account with the profile's address, if the profile has one. */
  function AccountForEmail(p: Platform, s: PubAuthState, profile: ProviderProfile): (user: Option<UserAccount>)
    ensures user.Some? ==> user.value in s.users && user.value.active
  {
    if Truthy(profile.email) then FindByEmail(p, s, profile.email.value) else None
  }

  /** One broker login, run without another login in between. */
  function ResolveUser(p: Platform, s: PubAuthState, profile: ProviderProfile, workspaceId: Option<string>,
                       draw: LinkDraw, at: LinkTimes)
    : (PubAuthState, Result<UserAccount>)
  {
    var link := FindLink(s, profile.providerName, profile.subject);
    if link.Some? then
      var user := Lookup(s.users, UserKey, link.value.userId);
      if user.None? then (s, Err("linked_user_missing"))
      else (SaveLink(s, RefreshedLink(link.value, profile, at)), Ok(user.value))
    else
      var existing := AccountForEmail(p, s, profile);
      if existing.Some? then (SaveLink(s, NewLink(existing.value, profile, draw, at)), Ok(existing.value))
      else
        var user := NewUser(profile, workspaceId, draw, at);
        (SaveLink(SaveUser(s, user), NewLink(user, profile, draw, at)), Ok(user))
  }

  class BrokerAccountLinkingService {
    const p: Platform
    const file: StateFile

    constructor (p: Platform, file: StateFile)
      ensures this.p == p && this.file == file
    {
      this.p, this.file := p, file;
    }

    method Resolve(profile: ProviderProfile, workspaceId: Option<string>, draw: LinkDraw,
                   at: LinkTimes) returns (r: Result<UserAccount>)
      modifies file
      ensures (file.state, r) == ResolveUser(p, old(file.state), profile, workspaceId, draw, at)
    {
      var existingLink := FindLink(file.state, profile.providerName, profile.subject);
      if existingLink.Some? {
        var linkedUser := Lookup(file.state.users, UserKey, existingLink.value.userId);
        if linkedUser.None? {
          return Err("linked_user_missing");
        }
        file.state := SaveLink(file.state, RefreshedLink(existingLink.value, profile, at));
        return Ok(linkedUser.value);
      }
      if Truthy(profile.email) {
        var existingUser := FindByEmail(p, file.state, profile.email.value);
        if existingUser.Some? {
          Link(existingUser.value, profile, draw, at);
          return Ok(existingUser.value);
        }
      }
      var user := NewUser(profile, workspaceId, draw, at);
      file.state := SaveUser(file.state, user);
      Link(user, profile, draw, at);
      r := Ok(user);
    }

    method Link(user: UserAccount, profile: ProviderProfile, draw: LinkDraw, at: LinkTimes)
      modifies file
      ensures file.state == old(file.state).(providerLinks := file.state.providerLinks)
      ensures forall l :: l in file.state.providerLinks <==>
                (l in old(file.state).providerLinks && l.id != "provider-link-" + draw.linkSuffix) || l == NewLink(user, profile, draw, at)
      ensures FindLink(old(file.state), profile.providerName, profile.subject).None? ==>
                Owner(file.state, profile.providerName, profile.subject) == Some(user.id)
      ensures file.state.providerLinks == SaveLink(old(file.state), NewLink(user, profile, draw, at)).providerLinks
    {
      file.state := SaveLink(file.state, NewLink(user, profile, draw, at));
    }
  }

  /* ---------- runs ---------- */

  datatype LoginKind =
    | BrokerLogin(profile: ProviderProfile, workspaceId: Option<string>, draw: LinkDraw, at: LinkTimes)
    | LocalLogin(username: string, password: string, isLocal: bool, sessionId: string, now: Millis)
    | OtherWork(next: PubAuthState)

  ghost predicate LoginAllowed(s: PubAuthState, step: LoginKind) {
    match step
    case BrokerLogin(_, _, draw, _) =>
      && (forall u :: u in s.users ==> u.id != "user-account-" + draw.userSuffix)
      && (forall l :: l in s.providerLinks ==> l.id != "provider-link-" + draw.linkSuffix)
    case LocalLogin(_, _, _, _, _) => true
    case OtherWork(next) => next.users == s.users && next.providerLinks == s.providerLinks
  }

  function LoginApply(p: Platform, s: PubAuthState, step: LoginKind): PubAuthState {
    match step
    case BrokerLogin(profile, workspaceId, draw, at) => ResolveUser(p, s, profile, workspaceId, draw, at).0
    case LocalLogin(username, password, isLocal, sessionId, now) => Login(p, s, username, password, isLocal, sessionId, now).0
    case OtherWork(next) => next
  }

  ghost predicate LoginRun(p: Platform, states: seq<PubAuthState>, steps: seq<LoginKind>) {
    && |states| == |steps| + 1
    && forall k :: 0 <= k < |steps| ==> LoginAllowed(states[k], steps[k]) && states[k + 1] == LoginApply(p, states[k], steps[k])
  }

  predicate SamePair(a: ProviderLink, b: ProviderLink) {
    a.provider == b.provider && a.providerSubject == b.providerSubject
  }

  ghost predicate HasUser(users: seq<UserAccount>, id: string) {
    exists u :: u in users && u.id == id
  }

  ghost predicate OnePerIdentity(links: seq<ProviderLink>) {
    && UniqueKeys(links, LinkKey)
    && forall a, b :: a in links && b in links && SamePair(a, b) ==> a == b
  }

  ghost predicate LinkedUsersExist(s: PubAuthState) {
    forall l :: l in s.providerLinks ==> HasUser(s.users, l.userId)
  }

  /** One link per external identity, each to an account that exists. */
  ghost predicate LinksOk(s: PubAuthState) {
    UniqueKeys(s.users, UserKey) && OnePerIdentity(s.providerLinks) && LinkedUsersExist(s)
  }

  /** The account that an external identity is linked to. */
  function Owner(s: PubAuthState, provider: string, subject: string): Option<string> {
    var link := FindLink(s, provider, subject);
    if link.Some? then Some(link.value.userId) else None
  }

  /** No link loses or changes its account, and no account changes except for its last login. */
  ghost predicate Carries(s: PubAuthState, next: PubAuthState) {
    && (forall l :: l in s.providerLinks ==> CarriesLink(next.providerLinks, l))
    && (forall u :: u in s.users ==> CarriesUser(next.users, u))
  }

  ghost predicate CarriesLink(links: seq<ProviderLink>, l: ProviderLink) {
    exists m :: m in links && SamePair(l, m) && m.userId == l.userId
  }

  ghost predicate CarriesUser(users: seq<UserAccount>, u: UserAccount) {
    exists v :: v in users && v == u.(lastLoginAt := v.lastLoginAt)
  }

  lemma CarriesTransitive(a: PubAuthState, b: PubAuthState, c: PubAuthState)
    requires Carries(a, b) && Carries(b, c)
    ensures Carries(a, c)
  {
    forall l | l in a.providerLinks
      ensures CarriesLink(c.providerLinks, l)
    {
      var m :| m in b.providerLinks && SamePair(l, m) && m.userId == l.userId;
      assert CarriesLink(c.providerLinks, m);
    }
    forall u | u in a.users
      ensures CarriesUser(c.users, u)
    {
      var v :| v in b.users && v == u.(lastLoginAt := v.lastLoginAt);
      assert CarriesUser(c.users, v);
    }
  }

  lemma SameUsersCarry(users: seq<UserAccount>)
    ensures forall u :: u in users ==> CarriesUser(users, u)
  {
    forall u | u in users
      ensures CarriesUser(users, u)
    {
      assert u == u.(lastLoginAt := u.lastLoginAt);
    }
  }

  lemma SameLinksCarry(links: seq<ProviderLink>, more: seq<ProviderLink>)
    requires forall l :: l in links ==> l in more
    ensures forall l :: l in links ==> CarriesLink(more, l)
  {
    assert forall l :: l in links ==> SamePair(l, l);
  }

  lemma LinkRowIsById(links: seq<ProviderLink>, a: ProviderLink, b: ProviderLink)
    requires UniqueKeys(links, LinkKey) && a in links && b in links && a.id == b.id
    ensures a == b
  {
    var i :| 0 <= i < |links| && links[i] == a;
    var j :| 0 <= j < |links| && links[j] == b;
    assert i != j ==> LinkKey(links[i]) != LinkKey(links[j]);
  }

  lemma UserRowIsById(s: PubAuthState, a: UserAccount, b: UserAccount)
    requires UniqueKeys(s.users, UserKey) && a in s.users && b in s.users && a.id == b.id
    ensures a == b
  {
    var i :| 0 <= i < |s.users| && s.users[i] == a;
    var j :| 0 <= j < |s.users| && s.users[j] == b;
    assert i != j ==> UserKey(s.users[i]) != UserKey(s.users[j]);
  }

  /** The saved link is new for its identity, or replaces the one that had its id. */
  ghost predicate Replaces(links: seq<ProviderLink>, row: ProviderLink) {
    && (forall l :: l in links && SamePair(l, row) ==> l.id == row.id)
    && (forall l :: l in links && l.id == row.id ==> SamePair(l, row) && l.userId == row.userId)
  }

  lemma SavedLinkOnePerIdentity(links: seq<ProviderLink>, row: ProviderLink)
    requires OnePerIdentity(links) && Replaces(links, row)
    ensures OnePerIdentity(Upsert(links, LinkKey, row))
  {
    UpsertUnique(links, LinkKey, row);
  }

  lemma SavedLinkCarries(links: seq<ProviderLink>, row: ProviderLink)
    requires Replaces(links, row)
    ensures forall l :: l in links ==> CarriesLink(Upsert(links, LinkKey, row), l)
  {
    var next := Upsert(links, LinkKey, row);
    assert row in next;
    forall l | l in links
      ensures CarriesLink(next, l)
    {
      if l.id == row.id {
        assert SamePair(l, row);
      } else {
        assert l in next && SamePair(l, l);
      }
    }
  }

  lemma SavedLinkUsersExist(s: PubAuthState, row: ProviderLink)
    requires LinkedUsersExist(s) && HasUser(s.users, row.userId)
    ensures LinkedUsersExist(SaveLink(s, row))
  {
    forall l | l in SaveLink(s, row).providerLinks
      ensures HasUser(s.users, l.userId)
    {
      assert l in s.providerLinks || l == row;
    }
  }

  lemma SavedLinkOk(s: PubAuthState, row: ProviderLink)
    requires LinksOk(s) && HasUser(s.users, row.userId) && Replaces(s.providerLinks, row)
    ensures LinksOk(SaveLink(s, row))
  {
    SavedLinkUsersExist(s, row);
    SavedLinkOnePerIdentity(s.providerLinks, row);
  }

  lemma SavedLinkCarriesAll(s: PubAuthState, row: ProviderLink)
    requires Replaces(s.providerLinks, row)
    ensures Carries(s, SaveLink(s, row))
  {
    SavedLinkCarries(s.providerLinks, row);
    SameUsersCarry(s.users);
  }

  lemma SavedLinkKeepsLinks(s: PubAuthState, row: ProviderLink)
    requires LinksOk(s) && HasUser(s.users, row.userId) && Replaces(s.providerLinks, row)
    ensures LinksOk(SaveLink(s, row)) && Carries(s, SaveLink(s, row))
  {
    SavedLinkOk(s, row);
    SavedLinkCarriesAll(s, row);
  }

  lemma SavedUserCarries(users: seq<UserAccount>, user: UserAccount)
    requires forall u :: u in users && u.id == user.id ==> user == u.(lastLoginAt := user.lastLoginAt)
    ensures forall u :: u in users ==> CarriesUser(Upsert(users, UserKey, user), u)
  {
    var next := Upsert(users, UserKey, user);
    forall u | u in users
      ensures CarriesUser(next, u)
    {
      var v := if u.id == user.id then user else u;
      assert v in next && v == u.(lastLoginAt := v.lastLoginAt);
    }
  }

  /** Saving a new account, or an account whose last login changed. */
  lemma SavedUserKeepsLinks(s: PubAuthState, user: UserAccount)
    requires LinksOk(s)
    requires forall u :: u in s.users && u.id == user.id ==> user == u.(lastLoginAt := user.lastLoginAt)
    ensures LinksOk(SaveUser(s, user)) && Carries(s, SaveUser(s, user)) && HasUser(SaveUser(s, user).users, user.id)
  {
    var next := SaveUser(s, user);
    UpsertUnique(s.users, UserKey, user);
    SavedUserCarries(s.users, user);
    SameLinksCarry(s.providerLinks, s.providerLinks);
    assert user in next.users;
    forall id | HasUser(s.users, id)
      ensures HasUser(next.users, id)
    {
      var u :| u in s.users && u.id == id;
      assert CarriesUser(next.users, u);
    }
  }

  lemma RefreshReplaces(s: PubAuthState, link: ProviderLink, profile: ProviderProfile, at: LinkTimes)
    requires OnePerIdentity(s.providerLinks) && link in s.providerLinks
    ensures Replaces(s.providerLinks, RefreshedLink(link, profile, at))
  {
    forall l | l in s.providerLinks && l.id == link.id
      ensures l == link
    {
      LinkRowIsById(s.providerLinks, l, link);
    }
    assert forall l :: SamePair(l, RefreshedLink(link, profile, at)) ==> SamePair(l, link);
  }

  /** The state and account of a login whose identity has no link yet. */
  function FirstLogin(p: Platform, s: PubAuthState, profile: ProviderProfile, workspaceId: Option<string>,
                      draw: LinkDraw, at: LinkTimes)
    : (PubAuthState, UserAccount)
  {
    var existing := AccountForEmail(p, s, profile);
    if existing.Some? then (s, existing.value)
    else (SaveUser(s, NewUser(profile, workspaceId, draw, at)), NewUser(profile, workspaceId, draw, at))
  }

  lemma FirstLoginKeepsLinks(p: Platform, s: PubAuthState, profile: ProviderProfile, workspaceId: Option<string>,
                             draw: LinkDraw, at: LinkTimes)
    requires LinksOk(s) && LoginAllowed(s, BrokerLogin(profile, workspaceId, draw, at))
    ensures var (mid, user) := FirstLogin(p, s, profile, workspaceId, draw, at);
            LinksOk(mid) && Carries(s, mid) && HasUser(mid.users, user.id) && mid.providerLinks == s.providerLinks
  {
    if AccountForEmail(p, s, profile).Some? {
      SameRowsCarry(s, s);
    } else {
      SavedUserKeepsLinks(s, NewUser(profile, workspaceId, draw, at));
    }
  }

  lemma ResolveSplits(p: Platform, s: PubAuthState, profile: ProviderProfile, workspaceId: Option<string>,
                      draw: LinkDraw, at: LinkTimes)
    requires FindLink(s, profile.providerName, profile.subject).None?
    ensures var (mid, user) := FirstLogin(p, s, profile, workspaceId, draw, at);
            ResolveUser(p, s, profile, workspaceId, draw, at) == (SaveLink(mid, NewLink(user, profile, draw, at)), Ok(user))
  {
  }

  lemma BrokerKeepsLinks(p: Platform, s: PubAuthState, profile: ProviderProfile, workspaceId: Option<string>,
                         draw: LinkDraw, at: LinkTimes)
    requires LinksOk(s) && LoginAllowed(s, BrokerLogin(profile, workspaceId, draw, at))
    ensures var (next, r) := ResolveUser(p, s, profile, workspaceId, draw, at);
            LinksOk(next) && Carries(s, next) && r.Ok?
  {
    var link := FindLink(s, profile.providerName, profile.subject);
    if link.Some? {
      RefreshReplaces(s, link.value, profile, at);
      SavedLinkKeepsLinks(s, RefreshedLink(link.value, profile, at));
      LinkedUserFound(s, link.value);
    } else {
      var (mid, user) := FirstLogin(p, s, profile, workspaceId, draw, at);
      FirstLoginKeepsLinks(p, s, profile, workspaceId, draw, at);
      var row := NewLink(user, profile, draw, at);
      assert Replaces(mid.providerLinks, row);
      SavedLinkKeepsLinks(mid, row);
      ResolveSplits(p, s, profile, workspaceId, draw, at);
      CarriesTransitive(s, mid, SaveLink(mid, row));
    }
  }

  lemma LinkedUserFound(s: PubAuthState, link: ProviderLink)
    requires LinkedUsersExist(s) && link in s.providerLinks
    ensures Lookup(s.users, UserKey, link.userId).Some?
  {
    assert HasUser(s.users, link.userId);
    var u :| u in s.users && u.id == link.userId;
    assert UserKey(u) == link.userId;
  }

  lemma LocalLoginKeepsLinks(p: Platform, s: PubAuthState, username: string, password: string, isLocal: bool,
                             sessionId: string, now: Millis)
    requires LinksOk(s)
    ensures var next := Login(p, s, username, password, isLocal, sessionId, now).0;
            LinksOk(next) && Carries(s, next)
  {
    var next := Login(p, s, username, password, isLocal, sessionId, now).0;
    var user := CheckLogin(p, s, username, password, isLocal);
    if user.Ok? {
      SeenUserKeepsLinks(s, user.value, now);
      var mid := SaveUser(s, user.value.(lastLoginAt := Some(now)));
      SameRowsCarry(mid, next);
      CarriesTransitive(s, mid, next);
    } else {
      SameRowsCarry(s, s);
    }
  }

  lemma SeenUserKeepsLinks(s: PubAuthState, user: UserAccount, now: Millis)
    requires LinksOk(s) && user in s.users
    ensures var mid := SaveUser(s, user.(lastLoginAt := Some(now)));
            LinksOk(mid) && Carries(s, mid)
  {
    var saved := user.(lastLoginAt := Some(now));
    forall u | u in s.users && u.id == saved.id
      ensures saved == u.(lastLoginAt := saved.lastLoginAt)
    {
      UserRowIsById(s, u, user);
    }
    SavedUserKeepsLinks(s, saved);
  }

  lemma SameRowsCarry(s: PubAuthState, next: PubAuthState)
    requires next.users == s.users && next.providerLinks == s.providerLinks
    ensures Carries(s, next) && (LinksOk(s) ==> LinksOk(next))
  {
    SameUsersCarry(s.users);
    SameLinksCarry(s.providerLinks, s.providerLinks);
  }

  lemma LoginStepKeepsLinks(p: Platform, s: PubAuthState, step: LoginKind)
    requires LinksOk(s) && LoginAllowed(s, step)
    ensures LinksOk(LoginApply(p, s, step)) && Carries(s, LoginApply(p, s, step))
  {
    match step
    case BrokerLogin(profile, workspaceId, draw, at) => BrokerKeepsLinks(p, s, profile, workspaceId, draw, at);
    case LocalLogin(username, password, isLocal, sessionId, now) =>
      LocalLoginKeepsLinks(p, s, username, password, isLocal, sessionId, now);
    case OtherWork(next) => SameRowsCarry(s, next);
  }

  lemma OwnerCarried(s: PubAuthState, next: PubAuthState, provider: string, subject: string)
    requires LinksOk(next) && Carries(s, next)
    ensures Owner(s, provider, subject).Some? ==> Owner(next, provider, subject) == Owner(s, provider, subject)
  {
    var link := FindLink(s, provider, subject);
    if link.Some? {
      assert CarriesLink(next.providerLinks, link.value);
      var m :| m in next.providerLinks && SamePair(link.value, m) && m.userId == link.value.userId;
      OwnerOfRow(next, m);
    }
  }

  lemma OwnerOfRow(s: PubAuthState, row: ProviderLink)
    requires OnePerIdentity(s.providerLinks) && row in s.providerLinks
    ensures Owner(s, row.provider, row.providerSubject) == Some(row.userId)
  {
    assert SamePair(FindLink(s, row.provider, row.providerSubject).value, row);
  }

  /**
   * Over any run of logins that do not overlap: every external identity keeps at most one link, the
   * account it names never changes and always exists, and no account is overwritten by another.
   */
  lemma LinksAreStable(p: Platform, states: seq<PubAuthState>, steps: seq<LoginKind>, i: nat, k: nat)
    requires LoginRun(p, states, steps) && i <= k < |states| && LinksOk(states[0])
    ensures LinksOk(states[i]) && LinksOk(states[k]) && Carries(states[i], states[k])
    ensures forall provider, subject :: Owner(states[i], provider, subject).Some? ==>
              Owner(states[k], provider, subject) == Owner(states[i], provider, subject)
  {
    forall j | 0 <= j < |states| - 1 && LinksOk(states[j])
      ensures LinksOk(states[j + 1]) && Carries(states[j], states[j + 1])
    {
      LoginStepKeepsLinks(p, states[j], steps[j]);
    }
    Kept(states, LinksOk, 0, i);
    SameRowsCarry(states[i], states[i]);
    forall j | i <= j < |states| - 1 && LinksOk(states[j]) && Carries(states[i], states[j])
      ensures LinksOk(states[j + 1]) && Carries(states[i], states[j + 1])
    {
      CarriesTransitive(states[i], states[j], states[j + 1]);
    }
    Kept(states, s => LinksOk(s) && Carries(states[i], s), i, k);
    forall provider, subject
      ensures Owner(states[i], provider, subject).Some? ==> Owner(states[k], provider, subject) == Owner(states[i], provider, subject)
    {
      OwnerCarried(states[i], states[k], provider, subject);
    }
  }

  /** The account of an identity that has a link is the one returned, and stays its account. */
  lemma LinkedIsOwner(p: Platform, s: PubAuthState, profile: ProviderProfile, workspaceId: Option<string>,
                      draw: LinkDraw, at: LinkTimes)
    requires LinksOk(s) && FindLink(s, profile.providerName, profile.subject).Some?
    ensures var (next, r) := ResolveUser(p, s, profile, workspaceId, draw, at);
            && r.Ok? && Owner(s, profile.providerName, profile.subject) == Some(r.value.id)
            && Owner(next, profile.providerName, profile.subject) == Some(r.value.id)
  {
    var link := FindLink(s, profile.providerName, profile.subject).value;
    var row := RefreshedLink(link, profile, at);
    LinkedUserFound(s, link);
    RefreshReplaces(s, link, profile, at);
    SavedLinkOnePerIdentity(s.providerLinks, row);
    OwnerOfRow(SaveLink(s, row), row);
  }

  /** The account of a first login is the one returned and linked. */
  lemma FirstIsOwner(p: Platform, s: PubAuthState, profile: ProviderProfile, workspaceId: Option<string>,
                     draw: LinkDraw, at: LinkTimes)
    requires LinksOk(s) && LoginAllowed(s, BrokerLogin(profile, workspaceId, draw, at))
    requires FindLink(s, profile.providerName, profile.subject).None?
    ensures var (next, r) := ResolveUser(p, s, profile, workspaceId, draw, at);
            r.Ok? && Owner(next, profile.providerName, profile.subject) == Some(r.value.id)
  {
    var (mid, user) := FirstLogin(p, s, profile, workspaceId, draw, at);
    var row := NewLink(user, profile, draw, at);
    ResolveSplits(p, s, profile, workspaceId, draw, at);
    FirstLoginKeepsRows(p, s, profile, workspaceId, draw, at);
    SavedLinkOnePerIdentity(s.providerLinks, row);
    OwnerOfRow(SaveLink(mid, row), row);
  }

  lemma FirstLoginKeepsRows(p: Platform, s: PubAuthState, profile: ProviderProfile, workspaceId: Option<string>,
                            draw: LinkDraw, at: LinkTimes)
    ensures FirstLogin(p, s, profile, workspaceId, draw, at).0.providerLinks == s.providerLinks
  {
  }

  lemma ResolvedIsOwner(p: Platform, s: PubAuthState, profile: ProviderProfile, workspaceId: Option<string>,
                        draw: LinkDraw, at: LinkTimes)
    requires LinksOk(s) && LoginAllowed(s, BrokerLogin(profile, workspaceId, draw, at))
    ensures var (next, r) := ResolveUser(p, s, profile, workspaceId, draw, at);
            && r.Ok? && Owner(next, profile.providerName, profile.subject) == Some(r.value.id)
            && (Owner(s, profile.providerName, profile.subject).Some? ==> Owner(s, profile.providerName, profile.subject) == Some(r.value.id))
  {
    if FindLink(s, profile.providerName, profile.subject).Some? {
      LinkedIsOwner(p, s, profile, workspaceId, draw, at);
    } else {
      FirstIsOwner(p, s, profile, workspaceId, draw, at);
    }
  }

  /** No broker login of a run finds its linked account missing, and repeated logins return the same account. */
  lemma RepeatLoginsAgree(p: Platform, states: seq<PubAuthState>, steps: seq<LoginKind>, i: nat, k: nat)
    requires LoginRun(p, states, steps) && LinksOk(states[0]) && i <= k < |steps|
    requires steps[i].BrokerLogin? && steps[k].BrokerLogin?
    requires steps[i].profile.providerName == steps[k].profile.providerName && steps[i].profile.subject == steps[k].profile.subject
    ensures var first := ResolveUser(p, states[i], steps[i].profile, steps[i].workspaceId, steps[i].draw, steps[i].at).1;
            var later := ResolveUser(p, states[k], steps[k].profile, steps[k].workspaceId, steps[k].draw, steps[k].at).1;
            first.Ok? && later.Ok? && first.value.id == later.value.id
  {
    LinksAreStable(p, states, steps, i, k);
    ResolveAt(p, states, steps, i);
    ResolveAt(p, states, steps, k);
    if i < k {
      var profile := steps[i].profile;
      LinksAreStable(p, states, steps, i + 1, k);
      assert Owner(states[k], profile.providerName, profile.subject) == Owner(states[i + 1], profile.providerName, profile.subject);
    }
  }

  /** What the broker login of step `i` returns is the owner afterwards, and was the owner before if there was one. */
  lemma ResolveAt(p: Platform, states: seq<PubAuthState>, steps: seq<LoginKind>, i: nat)
    requires LoginRun(p, states, steps) && i < |steps| && steps[i].BrokerLogin? && LinksOk(states[i])
    ensures var BrokerLogin(profile, workspaceId, draw, at) := steps[i];
            var r := ResolveUser(p, states[i], profile, workspaceId, draw, at).1;
            var before := Owner(states[i], profile.providerName, profile.subject);
            && r.Ok? && Owner(states[i + 1], profile.providerName, profile.subject) == Some(r.value.id)
            && (before.Some? ==> before == Some(r.value.id))
  {
    ResolvedIsOwner(p, states[i], steps[i].profile, steps[i].workspaceId, steps[i].draw, steps[i].at);
  }
}
