/** What a scoped administrator sees of the catalog, and what it may manage. */
module Overview {
  import opened Tables
  import opened Model
  import opened Catalog

  datatype AdminActor = AdminActor(subjectId: string, workspaceId: string)

  /** A user account without its password hash. */
  datatype UserView = UserView(
    id: string, subjectId: string, username: string, email: string, displayName: string, workspaceId: string,
    authProvider: string, bootstrapAccount: bool, active: bool, createdAt: Millis, lastLoginAt: Option<Millis>)

  /** A signing key without its private half. */
  datatype KeyView = KeyView(keyId: string, publicKeyPem: string, status: string)

  datatype AuditEvent = AuditEvent(
    id: string, actor: string, action: string, entityType: string, entityId: string, workspaceId: Option<string>,
    outcome: string, description: string, createdAt: Millis)

  datatype Counts = Counts(
    products: nat, workspaces: nat, users: nat, clients: nat, routePolicies: nat, roles: nat,
    assignments: nat, sessions: nat, signingKeys: nat, auditEvents: nat)

  datatype AdminOverview = AdminOverview(
    products: seq<Product>, workspaces: seq<Workspace>, users: seq<UserView>, clients: seq<OidcClient>,
    routePolicies: seq<RoutePolicy>, roles: seq<Role>, assignments: seq<Assignment>, sessions: seq<AuthSession>,
    signingKeys: seq<KeyView>, auditEvents: seq<AuditEvent>, counts: Counts)

  /* ---------- grants ---------- */

  predicate IsAdminRole(role: string) {
    role == "super_admin" || role == "tenant_admin" || role == "product_admin" || role == "viewer"
  }

  /** The assignments that give `subjectId` an admin role. */
  function Grants(assignments: seq<Assignment>, subjectId: string): (grants: seq<Assignment>)
    ensures forall g :: g in grants <==> g in assignments && g.userId == subjectId && IsAdminRole(g.role)
  {
    Filter(assignments, (a: Assignment) => a.userId == subjectId && IsAdminRole(a.role))
  }

  predicate HasRole(grants: seq<Assignment>, role: string) {
    exists g :: g in grants && g.role == role
  }

  function GrantWorkspaces(grants: seq<Assignment>): set<string> {
    set g | g in grants && Truthy(g.workspaceId) :: g.workspaceId.value
  }

  function GrantProducts(grants: seq<Assignment>): set<string> {
    set g | g in grants && Truthy(g.productId) :: g.productId.value
  }

  function AllowedWorkspaces(grants: seq<Assignment>, actor: AdminActor): set<string> {
    var granted := GrantWorkspaces(grants);
    if granted != {} then granted else {actor.workspaceId}
  }

  /* ---------- the filtered tables ---------- */

  predicate InScope(id: Option<string>, allowed: set<string>) {
    !Truthy(id) || id.value in allowed
  }

  function VisibleProducts(rows: seq<Product>, ws: set<string>): seq<Product> {
    Filter(rows, (x: Product) => x.workspaceId in ws)
  }

  function AllowedProducts(visible: seq<Product>, grants: seq<Assignment>): set<string> {
    (set x | x in visible :: x.id) + GrantProducts(grants)
  }

  function VisibleWorkspaces(rows: seq<Workspace>, ws: set<string>): seq<Workspace> {
    Filter(rows, (x: Workspace) => x.id in ws)
  }

  function VisibleUsers(rows: seq<UserView>, ws: set<string>): seq<UserView> {
    Filter(rows, (x: UserView) => x.workspaceId in ws)
  }

  function VisibleClients(rows: seq<OidcClient>, ws: set<string>, ps: set<string>): seq<OidcClient> {
    Filter(rows, (x: OidcClient) => x.productId in ps || x.workspaceId in ws)
  }

  function VisiblePolicies(rows: seq<RoutePolicy>, ps: set<string>): seq<RoutePolicy> {
    Filter(rows, (x: RoutePolicy) => x.productId in ps)
  }

  function VisibleRoles(rows: seq<Role>, ws: set<string>): seq<Role> {
    Filter(rows, (x: Role) => InScope(x.workspaceId, ws))
  }

  function VisibleAssignments(rows: seq<Assignment>, ws: set<string>, ps: set<string>): seq<Assignment> {
    Filter(rows, (x: Assignment) => InScope(x.workspaceId, ws) && InScope(x.productId, ps))
  }

  function VisibleSessions(rows: seq<AuthSession>, ws: set<string>): seq<AuthSession> {
    Filter(rows, (x: AuthSession) => x.workspaceId in ws)
  }

  function VisibleEvents(rows: seq<AuditEvent>, ws: set<string>): seq<AuditEvent> {
    Filter(rows, (x: AuditEvent) => InScope(x.workspaceId, ws))
  }

  function Scoped(o: AdminOverview, ws: set<string>, grants: seq<Assignment>): AdminOverview {
    var products := VisibleProducts(o.products, ws);
    var ps := AllowedProducts(products, grants);
    var workspaces := VisibleWorkspaces(o.workspaces, ws);
    var users := VisibleUsers(o.users, ws);
    var clients := VisibleClients(o.clients, ws, ps);
    var routePolicies := VisiblePolicies(o.routePolicies, ps);
    var roles := VisibleRoles(o.roles, ws);
    var assignments := VisibleAssignments(o.assignments, ws, ps);
    var sessions := VisibleSessions(o.sessions, ws);
    var auditEvents := VisibleEvents(o.auditEvents, ws);
    AdminOverview(products, workspaces, users, clients, routePolicies, roles, assignments, sessions, o.signingKeys, auditEvents,
                  Counts(|products|, |workspaces|, |users|, |clients|, |routePolicies|, |roles|, |assignments|, |sessions|,
                         |o.signingKeys|, |auditEvents|))
  }

  /** `stored` are the assignments in the repository, from which the grants are read. */
  function FilterOverview(actor: AdminActor, stored: seq<Assignment>, o: AdminOverview): AdminOverview {
    var grants := Grants(stored, actor.subjectId);
    if HasRole(grants, "super_admin") then o else Scoped(o, AllowedWorkspaces(grants, actor), grants)
  }

  predicate CountsMatch(o: AdminOverview) {
    o.counts == Counts(|o.products|, |o.workspaces|, |o.users|, |o.clients|, |o.routePolicies|, |o.roles|, |o.assignments|,
                       |o.sessions|, |o.signingKeys|, |o.auditEvents|)
  }

  lemma ScopedTwice(o: AdminOverview, ws: set<string>, grants: seq<Assignment>)
    ensures Scoped(Scoped(o, ws, grants), ws, grants) == Scoped(o, ws, grants)
  {
    var v := Scoped(o, ws, grants);
    var ps := AllowedProducts(v.products, grants);
    FilterAll(v.products, (x: Product) => x.workspaceId in ws);
    FilterAll(v.workspaces, (x: Workspace) => x.id in ws);
    FilterAll(v.users, (x: UserView) => x.workspaceId in ws);
    FilterAll(v.clients, (x: OidcClient) => x.productId in ps || x.workspaceId in ws);
    FilterAll(v.routePolicies, (x: RoutePolicy) => x.productId in ps);
    FilterAll(v.roles, (x: Role) => InScope(x.workspaceId, ws));
    FilterAll(v.assignments, (x: Assignment) => InScope(x.workspaceId, ws) && InScope(x.productId, ps));
    FilterAll(v.sessions, (x: AuthSession) => x.workspaceId in ws);
    FilterAll(v.auditEvents, (x: AuditEvent) => InScope(x.workspaceId, ws));
  }

  /** Filtering a filtered view changes nothing, and a scoped view counts exactly what it lists. */
  lemma FilterIdempotent(actor: AdminActor, stored: seq<Assignment>, o: AdminOverview)
    ensures var view := FilterOverview(actor, stored, o);
            && FilterOverview(actor, stored, view) == view
            && (!HasRole(Grants(stored, actor.subjectId), "super_admin") ==> CountsMatch(view))
  {
    var grants := Grants(stored, actor.subjectId);
    ScopedTwice(o, AllowedWorkspaces(grants, actor), grants);
  }

  /* ---------- records outside the scope ---------- */

  datatype Record =
    | ProductRecord(product: Product)
    | WorkspaceRecord(workspace: Workspace)
    | UserRecord(user: UserView)
    | ClientRecord(client: OidcClient)
    | PolicyRecord(policy: RoutePolicy)
    | RoleRecord(role: Role)
    | AssignmentRecord(assignment: Assignment)
    | SessionRecord(session: AuthSession)
    | EventRecord(event: AuditEvent)

  function Named(id: Option<string>): set<string> {
    if Truthy(id) then {id.value} else {}
  }

  /** The workspaces that a record belongs to. */
  function WorkspacesOf(r: Record): set<string> {
    match r
    case ProductRecord(x) => {x.workspaceId}
    case WorkspaceRecord(x) => {x.id}
    case UserRecord(x) => {x.workspaceId}
    case ClientRecord(x) => {x.workspaceId}
    case PolicyRecord(x) => {}
    case RoleRecord(x) => Named(x.workspaceId)
    case AssignmentRecord(x) => Named(x.workspaceId)
    case SessionRecord(x) => {x.workspaceId}
    case EventRecord(x) => Named(x.workspaceId)
  }

  /** The products that a record belongs to. */
  function ProductsOf(r: Record): set<string> {
    match r
    case ProductRecord(x) => {x.id}
    case ClientRecord(x) => {x.productId}
    case PolicyRecord(x) => {x.productId}
    case AssignmentRecord(x) => Named(x.productId)
    case _ => {}
  }

  /** The product ids that the actor may see: those in its workspaces and those granted by name. */
  function ActorProducts(actor: AdminActor, o: AdminOverview): set<string> {
    var grants := Grants(o.assignments, actor.subjectId);
    AllowedProducts(VisibleProducts(o.products, AllowedWorkspaces(grants, actor)), grants)
  }

  /** The record belongs somewhere, to none of the actor's workspaces or products, and grants it nothing. */
  ghost predicate Outside(actor: AdminActor, o: AdminOverview, r: Record) {
    && WorkspacesOf(r) + ProductsOf(r) != {}
    && WorkspacesOf(r) !! AllowedWorkspaces(Grants(o.assignments, actor.subjectId), actor)
    && ProductsOf(r) !! ActorProducts(actor, o)
    && (r.AssignmentRecord? ==> r.assignment.userId != actor.subjectId || !IsAdminRole(r.assignment.role))
  }

  function InsertAt<T>(rows: seq<T>, at: nat, x: T): seq<T> {
    if rows == [] || at == 0 then [x] + rows else [rows[0]] + InsertAt(rows[1..], at - 1, x)
  }

  /** The overview with one more record, anywhere in its table. */
  function WithRecord(o: AdminOverview, at: nat, r: Record): AdminOverview {
    match r
    case ProductRecord(x) => o.(products := InsertAt(o.products, at, x), counts := o.counts.(products := |o.products| + 1))
    case WorkspaceRecord(x) => o.(workspaces := InsertAt(o.workspaces, at, x), counts := o.counts.(workspaces := |o.workspaces| + 1))
    case UserRecord(x) => o.(users := InsertAt(o.users, at, x), counts := o.counts.(users := |o.users| + 1))
    case ClientRecord(x) => o.(clients := InsertAt(o.clients, at, x), counts := o.counts.(clients := |o.clients| + 1))
    case PolicyRecord(x) => o.(routePolicies := InsertAt(o.routePolicies, at, x), counts := o.counts.(routePolicies := |o.routePolicies| + 1))
    case RoleRecord(x) => o.(roles := InsertAt(o.roles, at, x), counts := o.counts.(roles := |o.roles| + 1))
    case AssignmentRecord(x) => o.(assignments := InsertAt(o.assignments, at, x), counts := o.counts.(assignments := |o.assignments| + 1))
    case SessionRecord(x) => o.(sessions := InsertAt(o.sessions, at, x), counts := o.counts.(sessions := |o.sessions| + 1))
    case EventRecord(x) => o.(auditEvents := InsertAt(o.auditEvents, at, x), counts := o.counts.(auditEvents := |o.auditEvents| + 1))
  }

  lemma {:induction false} FilterInsert<T(!new)>(rows: seq<T>, at: nat, x: T, keep: T -> bool)
    requires !keep(x)
    ensures Filter(InsertAt(rows, at, x), keep) == Filter(rows, keep)
  {
    if rows == [] || at == 0 {
      assert ([x] + rows)[1..] == rows;
    } else {
      FilterInsert(rows[1..], at - 1, x, keep);
      assert InsertAt(rows, at, x)[1..] == InsertAt(rows[1..], at - 1, x);
    }
  }

  lemma ScopedIgnores(o: AdminOverview, ws: set<string>, grants: seq<Assignment>, at: nat, r: Record)
    requires WorkspacesOf(r) + ProductsOf(r) != {}
    requires WorkspacesOf(r) !! ws && ProductsOf(r) !! AllowedProducts(VisibleProducts(o.products, ws), grants)
    ensures Scoped(WithRecord(o, at, r), ws, grants) == Scoped(o, ws, grants)
  {
    var ps := AllowedProducts(VisibleProducts(o.products, ws), grants);
    match r
    case ProductRecord(x) => FilterInsert(o.products, at, x, (x: Product) => x.workspaceId in ws);
    case WorkspaceRecord(x) => FilterInsert(o.workspaces, at, x, (x: Workspace) => x.id in ws);
    case UserRecord(x) => FilterInsert(o.users, at, x, (x: UserView) => x.workspaceId in ws);
    case ClientRecord(x) => FilterInsert(o.clients, at, x, (x: OidcClient) => x.productId in ps || x.workspaceId in ws);
    case PolicyRecord(x) => FilterInsert(o.routePolicies, at, x, (x: RoutePolicy) => x.productId in ps);
    case RoleRecord(x) => FilterInsert(o.roles, at, x, (x: Role) => InScope(x.workspaceId, ws));
    case AssignmentRecord(x) =>
      FilterInsert(o.assignments, at, x, (x: Assignment) => InScope(x.workspaceId, ws) && InScope(x.productId, ps));
    case SessionRecord(x) => FilterInsert(o.sessions, at, x, (x: AuthSession) => x.workspaceId in ws);
    case EventRecord(x) => FilterInsert(o.auditEvents, at, x, (x: AuditEvent) => InScope(x.workspaceId, ws));
  }

  lemma GrantsIgnore(actor: AdminActor, o: AdminOverview, at: nat, r: Record)
    requires r.AssignmentRecord? ==> r.assignment.userId != actor.subjectId || !IsAdminRole(r.assignment.role)
    ensures Grants(WithRecord(o, at, r).assignments, actor.subjectId) == Grants(o.assignments, actor.subjectId)
  {
    if r.AssignmentRecord? {
      var subjectId := actor.subjectId;
      FilterInsert(o.assignments, at, r.assignment, (a: Assignment) => a.userId == subjectId && IsAdminRole(a.role));
    }
  }

  /** What the actor sees of the stored catalog. */
  function ViewOf(actor: AdminActor, o: AdminOverview): AdminOverview {
    FilterOverview(actor, o.assignments, o)
  }

  ghost predicate ScopedActor(actor: AdminActor, o: AdminOverview) {
    !HasRole(Grants(o.assignments, actor.subjectId), "super_admin")
  }

  /** One more record outside the scope of an actor that is no super admin changes nothing in its view or scope. */
  lemma OutsideRecordUnseen(actor: AdminActor, o: AdminOverview, at: nat, r: Record)
    requires ScopedActor(actor, o) && Outside(actor, o, r)
    ensures ViewOf(actor, WithRecord(o, at, r)) == ViewOf(actor, o)
    ensures ScopedActor(actor, WithRecord(o, at, r))
  {
    var grants := Grants(o.assignments, actor.subjectId);
    GrantsIgnore(actor, o, at, r);
    ScopedIgnores(o, AllowedWorkspaces(grants, actor), grants, at, r);
  }

  /** One overview has one record more than the other, and that record is outside the actor's scope. */
  ghost predicate OutsideEdit(actor: AdminActor, a: AdminOverview, b: AdminOverview) {
    || (exists at, r :: Outside(actor, a, r) && b == WithRecord(a, at, r))
    || (ScopedActor(actor, b) && exists at, r :: Outside(actor, b, r) && a == WithRecord(b, at, r))
  }

  /**
   * Non-interference: however many records outside its scope come and go, anywhere in the tables, an
   * actor that is no super admin sees the same.
   */
  lemma {:induction false} OutsideEditsUnseen(actor: AdminActor, overviews: seq<AdminOverview>)
    requires |overviews| > 0 && ScopedActor(actor, overviews[0])
    requires forall k :: 0 <= k < |overviews| - 1 ==> OutsideEdit(actor, overviews[k], overviews[k + 1])
    ensures var last := overviews[|overviews| - 1];
            ViewOf(actor, last) == ViewOf(actor, overviews[0]) && ScopedActor(actor, last)
  {
    var n := |overviews| - 1;
    if n > 0 {
      OutsideEditsUnseen(actor, overviews[..n]);
      var a, b := overviews[n - 1], overviews[n];
      assert OutsideEdit(actor, overviews[n - 1], overviews[n - 1 + 1]);
      if at, r :| Outside(actor, a, r) && b == WithRecord(a, at, r) {
        OutsideRecordUnseen(actor, a, at, r);
      } else {
        var at, r :| Outside(actor, b, r) && a == WithRecord(b, at, r);
        OutsideRecordUnseen(actor, b, at, r);
      }
    }
  }

  /* ---------- the audit window ---------- */

  function Reversed<T>(rows: seq<T>): (r: seq<T>)
    ensures |r| == |rows| && forall i :: 0 <= i < |rows| ==> r[i] == rows[|rows| - 1 - i]
  {
    if rows == [] then [] else Reversed(rows[1..]) + [rows[0]]
  }

  /** `slice(-Math.max(limit, 0))`: the last `limit` rows; a limit of zero or less keeps them all. */
  function Window<T>(rows: seq<T>, limit: int): seq<T> {
    if limit <= 0 || |rows| <= limit then rows else rows[|rows| - limit..]
  }

  /** `listRecent`: the window, newest first. */
  function ListRecent(events: seq<AuditEvent>, limit: int): seq<AuditEvent> {
    Reversed(Window(events, limit))
  }

  /** The events of the window that as many new ones push out of it. */
  function PushedOut<T>(rows: seq<T>, added: nat, limit: nat): seq<T> {
    var window := Window(rows, limit);
    if |window| + added <= limit then []
    else if added >= limit then window
    else window[..|window| + added - limit]
  }

  lemma {:induction false} FilterNone<T(!new)>(rows: seq<T>, keep: T -> bool)
    requires forall i :: 0 <= i < |rows| ==> !keep(rows[i])
    ensures Filter(rows, keep) == []
  {
    if rows != [] {
      FilterNone(rows[1..], keep);
    }
  }

  lemma {:induction false} FilterAppend<T(!new)>(a: seq<T>, b: seq<T>, keep: T -> bool)
    ensures Filter(a + b, keep) == Filter(a, keep) + Filter(b, keep)
  {
    if a == [] {
      assert a + b == b;
    } else {
      assert (a + b)[1..] == a[1..] + b;
      FilterAppend(a[1..], b, keep);
    }
  }

  lemma ReversedAppend<T>(a: seq<T>, b: seq<T>)
    ensures Reversed(a + b) == Reversed(b) + Reversed(a)
  {
  }

  /** What stays of the window. */
  function KeptIn<T>(rows: seq<T>, added: nat, limit: nat): seq<T> {
    if added >= limit then [] else Window(rows, limit - added)
  }

  /** The window splits into what new rows push out of it and what they leave in. */
  lemma WindowSplits<T>(rows: seq<T>, added: nat, limit: nat)
    requires limit > 0
    ensures Window(rows, limit) == PushedOut(rows, added, limit) + KeptIn(rows, added, limit)
  {
  }

  /** The new window is what is left in, and then the new rows. */
  lemma WindowGrows<T>(rows: seq<T>, added: seq<T>, limit: nat)
    requires limit > 0
    ensures Window(rows + added, limit) == KeptIn(rows, |added|, limit) + Window(added, limit)
  {
    if |rows| + |added| > limit {
      if |added| < limit {
        DropInFirst(rows, added, |rows| + |added| - limit);
      } else {
        DropFirst(rows, added, |added| - limit);
      }
    }
  }

  lemma DropInFirst<T>(a: seq<T>, b: seq<T>, n: nat)
    requires n <= |a|
    ensures (a + b)[n..] == a[n..] + b
  {
  }

  lemma DropFirst<T>(a: seq<T>, b: seq<T>, n: nat)
    requires n <= |b|
    ensures (a + b)[|a| + n..] == [] + b[n..]
  {
  }

  /**
   * The overview lists the most recent events before it is filtered, so that step is not free of
   * interference. New events outside the scope leave the visible ones unchanged exactly when every
   * event that they push out of the window is outside the scope as well.
   */
  lemma OutsideEventsUnseenIff(events: seq<AuditEvent>, outside: seq<AuditEvent>, limit: nat, ws: set<string>)
    requires limit > 0 && forall i :: 0 <= i < |outside| ==> !InScope(outside[i].workspaceId, ws)
    ensures VisibleEvents(ListRecent(events + outside, limit), ws) == VisibleEvents(ListRecent(events, limit), ws)
            <==> forall x :: x in PushedOut(events, |outside|, limit) ==> !InScope(x.workspaceId, ws)
  {
    var out, kept := PushedOut(events, |outside|, limit), KeptIn(events, |outside|, limit);
    WindowSplits(events, |outside|, limit);
    WindowGrows(events, outside, limit);
    RecentSplits(out, kept, ws);
    RecentSplits(kept, Window(outside, limit), ws);
    NoneVisible(Window(outside, limit), ws);
    var stay, gone := VisibleEvents(Reversed(kept), ws), VisibleEvents(Reversed(out), ws);
    assert VisibleEvents(ListRecent(events + outside, limit), ws) == [] + stay == stay;
    assert VisibleEvents(ListRecent(events, limit), ws) == stay + gone;
    if stay == stay + gone {
      assert |gone| == 0;
    }
    VisibleInReverse(out, ws);
  }

  /** New events that fill the whole window hide every event inside the scope. */
  lemma OutsideEventsFillWindow(events: seq<AuditEvent>, outside: seq<AuditEvent>, limit: nat, ws: set<string>)
    requires 0 < limit <= |outside| && forall i :: 0 <= i < |outside| ==> !InScope(outside[i].workspaceId, ws)
    ensures VisibleEvents(ListRecent(events + outside, limit), ws) == []
  {
    WindowGrows(events, outside, limit);
    assert KeptIn(events, |outside|, limit) + Window(outside, limit) == Window(outside, limit);
    NoneVisible(Window(outside, limit), ws);
  }

  lemma NoneVisible(rows: seq<AuditEvent>, ws: set<string>)
    requires forall i :: 0 <= i < |rows| ==> !InScope(rows[i].workspaceId, ws)
    ensures VisibleEvents(Reversed(rows), ws) == []
  {
    FilterNone(Reversed(rows), (x: AuditEvent) => InScope(x.workspaceId, ws));
  }

  lemma VisibleInReverse(rows: seq<AuditEvent>, ws: set<string>)
    ensures VisibleEvents(Reversed(rows), ws) == [] <==> forall x :: x in rows ==> !InScope(x.workspaceId, ws)
  {
    ReversedMembers(rows);
    if forall x :: x in rows ==> !InScope(x.workspaceId, ws) {
      NoneVisible(rows, ws);
    } else {
      var x :| x in rows && InScope(x.workspaceId, ws);
      assert x in VisibleEvents(Reversed(rows), ws);
    }
  }

  lemma RecentSplits(a: seq<AuditEvent>, b: seq<AuditEvent>, ws: set<string>)
    ensures VisibleEvents(Reversed(a + b), ws) == VisibleEvents(Reversed(b), ws) + VisibleEvents(Reversed(a), ws)
  {
    ReversedAppend(a, b);
    FilterAppend(Reversed(b), Reversed(a), (x: AuditEvent) => InScope(x.workspaceId, ws));
  }

  lemma ReversedMembers<T>(rows: seq<T>)
    ensures forall x :: x in Reversed(rows) <==> x in rows
  {
    forall i | 0 <= i < |rows|
      ensures rows[i] in Reversed(rows)
    {
      assert Reversed(rows)[|rows| - 1 - i] == rows[i];
    }
  }

  /* ---------- managing ---------- */

  datatype AccessDecision = Allowed | NotFound | Forbidden

  predicate Manages(g: Assignment, product: Product) {
    && g.workspaceId == Some(product.workspaceId)
    && (g.role == "tenant_admin" || (g.role == "product_admin" && (!Truthy(g.productId) || g.productId.value == product.id)))
  }

  function CanManageProduct(actor: AdminActor, o: AdminOverview, productId: string): AccessDecision {
    var product := Lookup(o.products, ProductKey, productId);
    var grants := Grants(o.assignments, actor.subjectId);
    if product.None? then NotFound
    else if HasRole(grants, "super_admin") then Allowed
    else if exists g :: g in grants && Manages(g, product.value) then Allowed
    else Forbidden
  }

  /** Whatever product an actor may manage, it sees, with every client and route policy of it. */
  lemma ManagedIsVisible(actor: AdminActor, o: AdminOverview, productId: string)
    requires CanManageProduct(actor, o, productId) == Allowed
    requires Lookup(o.products, ProductKey, productId).value.workspaceId != ""
    ensures var view := ViewOf(actor, o);
            && Lookup(o.products, ProductKey, productId).value in view.products
            && (forall c :: c in o.clients && c.productId == productId ==> c in view.clients)
            && (forall r :: r in o.routePolicies && r.productId == productId ==> r in view.routePolicies)
  {
    var product := Lookup(o.products, ProductKey, productId).value;
    var grants := Grants(o.assignments, actor.subjectId);
    if !HasRole(grants, "super_admin") {
      var g :| g in grants && Manages(g, product);
      assert g.workspaceId.value in GrantWorkspaces(grants);
      assert product in VisibleProducts(o.products, AllowedWorkspaces(grants, actor));
    }
  }
}
