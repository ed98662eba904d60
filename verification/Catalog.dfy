/** The admin commands that create products, workspaces, clients and route policies. */
module Catalog {
  import opened Tables
  import opened Text
  import opened Jwt
  import opened Model
  import opened Slugs
  import opened TokenRuns

  datatype CommandResult = CommandResult(ok: bool, id: string, message: string, clientSecret: Option<string>)

  /** Random values that a command draws: the tail of an id, and a client secret with its hash. */
  datatype AdminDraw = AdminDraw(suffix: string, secret: string, secretHash: string)

  datatype Command =
    | CreateProduct(workspaceId: string, name: string, slug: string, environment: string)
    | CreateWorkspace(workspaceName: string, workspaceSlug: string)
    | CreateClient(clientProductId: string, clientType: ClientType, redirectUris: seq<string>, scopes: seq<string>)
    | CreateRoutePolicy(policyProductId: string, upstreamUrl: string, pathPattern: string, methods: seq<string>, requiredRoles: seq<string>)

  function ProductKey(row: Product): string { row.id }

  function ProductSlug(row: Product): string { row.slug }

  function WorkspaceKey(row: Workspace): string { row.id }

  function WorkspaceSlug(row: Workspace): string { row.slug }

  function ClientRowKey(row: OidcClient): string { row.id }

  function PolicyKey(row: RoutePolicy): string { row.id }

  function MakeId(prefix: string, suffix: string): string {
    prefix + "-" + suffix
  }

  /** The id of a product or workspace: from the slug, or random when the slug is empty. */
  function SluggedId(prefix: string, slug: string, suffix: string): string {
    prefix + "-" + if slug != "" then slug else MakeId(prefix, suffix)
  }

  /** `slice(-8)`. */
  function LastEight(s: string): string {
    if |s| >= 8 then s[|s| - 8..] else s
  }

  function NewClient(p: Platform, product: Product, command: Command, draw: AdminDraw): OidcClient
    requires command.CreateClient?
  {
    var id := MakeId("client", draw.suffix);
    var base := NormalizeSlug(p, command.clientProductId);
    var confidential := command.clientType == Confidential;
    OidcClient(id, command.clientProductId, product.workspaceId,
               (if base != "" then base else "client") + "-" + LastEight(id),
               command.clientType,
               if confidential then "client_secret_basic" else "none",
               if confidential && draw.secret != "" then Some(draw.secretHash) else None,
               command.redirectUris, Distinct(["openid"] + command.scopes), true)
  }

  function NewPolicy(p: Platform, command: Command, draw: AdminDraw): RoutePolicy
    requires command.CreateRoutePolicy?
  {
    RoutePolicy(MakeId("policy", draw.suffix), command.policyProductId, command.upstreamUrl, command.pathPattern,
                Distinct(MapRows(command.methods, p.toUpperCase)),
                Distinct(Filter(MapRows(command.requiredRoles, Trim), (r: string) => r != "")),
                100, true)
  }

  /** One command, run without another in between. */
  function Execute(p: Platform, s: PubAuthState, command: Command, draw: AdminDraw, now: Millis): (PubAuthState,
                   CommandResult) {
    match command
    case CreateProduct(workspaceId, name, rawSlug, environment) =>
      var slug := NormalizeSlug(p, rawSlug);
      var id := SluggedId("product", slug, draw.suffix);
      if Lookup(s.workspaces, WorkspaceKey, workspaceId).None? then (s, CommandResult(false, workspaceId, "workspace_missing", None))
      else if Lookup(s.products, ProductSlug, slug).Some? then (s, CommandResult(false, id, "product_slug_already_exists", None))
      else (s.(products := Upsert(s.products, ProductKey, Product(id, workspaceId, name, slug, environment, now))),
            CommandResult(true, id, "product_created", None))
    case CreateWorkspace(name, rawSlug) =>
      var slug := NormalizeSlug(p, rawSlug);
      var id := SluggedId("workspace", slug, draw.suffix);
      if Lookup(s.workspaces, WorkspaceSlug, slug).Some? then (s, CommandResult(false, id, "workspace_slug_already_exists", None))
      else (s.(workspaces := Upsert(s.workspaces, WorkspaceKey, Workspace(id, name, slug, now))),
            CommandResult(true, id, "workspace_created", None))
    case CreateClient(productId, clientType, redirectUris, scopes) =>
      var product := Lookup(s.products, ProductKey, productId);
      if product.None? then (s, CommandResult(false, productId, "client_product_missing_or_duplicate", None))
      else
        var client := NewClient(p, product.value, command, draw);
        (s.(clients := Upsert(s.clients, ClientRowKey, client)),
         CommandResult(true, client.clientId, "client_created", if clientType == Confidential then Some(draw.secret) else None))
    case CreateRoutePolicy(productId, upstreamUrl, pathPattern, methods, requiredRoles) =>
      if Lookup(s.products, ProductKey, productId).None? then (s, CommandResult(false, productId, "route_policy_product_missing", None))
      else
        var policy := NewPolicy(p, command, draw);
        (s.(routePolicies := Upsert(s.routePolicies, PolicyKey, policy)),
         CommandResult(true, policy.id, "route_policy_created", None))
  }

  class FileAdminService {
    const p: Platform
    const file: StateFile

    constructor (p: Platform, file: StateFile)
      ensures this.p == p && this.file == file
    {
      this.p, this.file := p, file;
    }

    method AddProduct(workspaceId: string, name: string, rawSlug: string, environment: string, draw: AdminDraw, now: Millis)
      returns (r: CommandResult)
      modifies file
      ensures (file.state, r) == Execute(p, old(file.state), CreateProduct(workspaceId, name, rawSlug, environment), draw, now)
    {
      var slug := NormalizeSlug(p, rawSlug);
      var id := SluggedId("product", slug, draw.suffix);
      var workspace := Lookup(file.state.workspaces, WorkspaceKey, workspaceId);
      if workspace.None? {
        return CommandResult(false, workspaceId, "workspace_missing", None);
      }
      var existing := Lookup(file.state.products, ProductSlug, slug);
      if existing.Some? {
        return CommandResult(false, id, "product_slug_already_exists", None);
      }
      file.state := file.state.(products := Upsert(file.state.products, ProductKey, Product(id, workspaceId, name, slug, environment, now)));
      r := CommandResult(true, id, "product_created", None);
    }

    method AddWorkspace(name: string, rawSlug: string, draw: AdminDraw, now: Millis) returns (r: CommandResult)
      modifies file
      ensures (file.state, r) == Execute(p, old(file.state), CreateWorkspace(name, rawSlug), draw, now)
    {
      var slug := NormalizeSlug(p, rawSlug);
      var id := SluggedId("workspace", slug, draw.suffix);
      var existing := Lookup(file.state.workspaces, WorkspaceSlug, slug);
      if existing.Some? {
        return CommandResult(false, id, "workspace_slug_already_exists", None);
      }
      file.state := file.state.(workspaces := Upsert(file.state.workspaces, WorkspaceKey, Workspace(id, name, slug, now)));
      r := CommandResult(true, id, "workspace_created", None);
    }

    method AddClient(productId: string, clientType: ClientType, redirectUris: seq<string>, scopes: seq<string>,
                     draw: AdminDraw, now: Millis)
      returns (r: CommandResult)
      modifies file
      ensures (file.state, r) == Execute(p, old(file.state), CreateClient(productId, clientType, redirectUris, scopes), draw, now)
    {
      var product := Lookup(file.state.products, ProductKey, productId);
      if product.None? {
        return CommandResult(false, productId, "client_product_missing_or_duplicate", None);
      }
      var client := NewClient(p, product.value, CreateClient(productId, clientType, redirectUris, scopes), draw);
      file.state := file.state.(clients := Upsert(file.state.clients, ClientRowKey, client));
      r := CommandResult(true, client.clientId, "client_created", if clientType == Confidential then Some(draw.secret) else None);
    }

    method AddRoutePolicy(productId: string, upstreamUrl: string, pathPattern: string, methods: seq<string>,
                          requiredRoles: seq<string>,
                          draw: AdminDraw, now: Millis)
      returns (r: CommandResult)
      modifies file
      ensures (file.state, r)
              == Execute(p, old(file.state), CreateRoutePolicy(productId, upstreamUrl, pathPattern, methods, requiredRoles), draw, now)
    {
      var product := Lookup(file.state.products, ProductKey, productId);
      if product.None? {
        return CommandResult(false, productId, "route_policy_product_missing", None);
      }
      var policy := NewPolicy(p, CreateRoutePolicy(productId, upstreamUrl, pathPattern, methods, requiredRoles), draw);
      file.state := file.state.(routePolicies := Upsert(file.state.routePolicies, PolicyKey, policy));
      r := CommandResult(true, policy.id, "route_policy_created", None);
    }
  }

  /* ---------- integrity ---------- */

  ghost predicate HasProduct(s: PubAuthState, productId: string, workspaceId: Option<string>) {
    exists x :: x in s.products && x.id == productId && (workspaceId.Some? ==> x.workspaceId == workspaceId.value)
  }

  ghost predicate HasWorkspace(s: PubAuthState, workspaceId: string) {
    exists w :: w in s.workspaces && w.id == workspaceId
  }

  /** A stored slug is not empty, is in normal form, and determines the id. */
  ghost predicate Slugged(p: Platform, prefix: string, id: string, slug: string) {
    slug != "" && NormalizeSlug(p, slug) == slug && id == prefix + "-" + slug
  }

  ghost predicate SluggedTables(p: Platform, s: PubAuthState) {
    && (forall x :: x in s.products ==> Slugged(p, "product", x.id, x.slug))
    && (forall w :: w in s.workspaces ==> Slugged(p, "workspace", w.id, w.slug))
  }

  ghost predicate UniqueTables(s: PubAuthState) {
    && UniqueKeys(s.products, ProductKey) && UniqueKeys(s.products, ProductSlug)
    && UniqueKeys(s.workspaces, WorkspaceKey) && UniqueKeys(s.workspaces, WorkspaceSlug)
  }

  ghost predicate References(s: PubAuthState) {
    && (forall x :: x in s.products ==> HasWorkspace(s, x.workspaceId))
    && (forall c :: c in s.clients ==> HasProduct(s, c.productId, Some(c.workspaceId)))
    && (forall r :: r in s.routePolicies ==> HasProduct(s, r.productId, None))
  }

  ghost predicate Integrity(p: Platform, s: PubAuthState) {
    SluggedTables(p, s) && UniqueTables(s) && References(s)
  }

  /** Every catalog record is still there, in its place and unaltered; new ones come after. */
  ghost predicate OnlyGrows(s: PubAuthState, next: PubAuthState) {
    && s.products <= next.products
    && s.workspaces <= next.workspaces
    && s.clients <= next.clients
    && s.routePolicies <= next.routePolicies
  }

  datatype AdminStep =
    | CommandStep(command: Command, draw: AdminDraw, now: Millis)
    | OtherServices(next: PubAuthState)

  /** Slugs are not empty after normalising, random ids are new, and other services leave the catalog alone. */
  ghost predicate AdminAllowed(p: Platform, s: PubAuthState, step: AdminStep) {
    match step
    case OtherServices(next) =>
      next.products == s.products && next.workspaces == s.workspaces && next.clients == s.clients && next.routePolicies == s.routePolicies
    case CommandStep(CreateProduct(_, _, slug, _), _, _) => NormalizeSlug(p, slug) != ""
    case CommandStep(CreateWorkspace(_, slug), _, _) => NormalizeSlug(p, slug) != ""
    case CommandStep(CreateClient(_, _, _, _), draw, _) => forall c :: c in s.clients ==> c.id != MakeId("client", draw.suffix)
    case CommandStep(CreateRoutePolicy(_, _, _, _, _), draw, _) => forall r :: r in s.routePolicies ==> r.id != MakeId("policy", draw.suffix)
  }

  function AdminApply(p: Platform, s: PubAuthState, step: AdminStep): PubAuthState {
    match step
    case CommandStep(command, draw, now) => Execute(p, s, command, draw, now).0
    case OtherServices(next) => next
  }

  ghost predicate AdminRun(p: Platform, states: seq<PubAuthState>, steps: seq<AdminStep>) {
    && |states| == |steps| + 1
    && forall k :: 0 <= k < |steps| ==> AdminAllowed(p, states[k], steps[k]) && states[k + 1] == AdminApply(p, states[k], steps[k])
  }

  lemma SlugOfRuns(p: Platform, prefix: string, id: string, runs: seq<string>)
    requires KeepsSlugs(p) && AreRuns(runs) && runs != [] && id == prefix + "-" + Join(runs, '-')
    ensures Slugged(p, prefix, id, Join(runs, '-'))
  {
    JoinedIsFixed(p, runs);
    JoinEnds(runs);
  }

  /**
   * A catalog like the one a fresh installation starts with: one workspace, one product in it, clients
   * of that product, no route policies, and both slugs made of runs joined by single hyphens.
   */
  lemma SeedHasIntegrity(p: Platform, s: PubAuthState, product: Product, workspace: Workspace,
                         productRuns: seq<string>, workspaceRuns: seq<string>)
    requires KeepsSlugs(p) && AreRuns(productRuns) && AreRuns(workspaceRuns) && productRuns != [] && workspaceRuns != []
    requires s.products == [product] && s.workspaces == [workspace] && product.workspaceId == workspace.id
    requires product.slug == Join(productRuns, '-') && product.id == "product" + "-" + product.slug
    requires workspace.slug == Join(workspaceRuns, '-') && workspace.id == "workspace" + "-" + workspace.slug
    requires forall c :: c in s.clients ==> c.productId == product.id && c.workspaceId == workspace.id
    requires s.routePolicies == []
    ensures Integrity(p, s)
  {
    SlugOfRuns(p, "product", product.id, productRuns);
    SlugOfRuns(p, "workspace", workspace.id, workspaceRuns);
    assert product in s.products && workspace in s.workspaces;
  }

  lemma UniqueSnoc<T>(rows: seq<T>, key: T -> string, row: T)
    requires UniqueKeys(rows, key) && forall x :: x in rows ==> key(x) != key(row)
    ensures UniqueKeys(rows + [row], key)
  {
  }

  lemma NewProduct(p: Platform, s: PubAuthState, row: Product)
    requires Integrity(p, s) && Slugged(p, "product", row.id, row.slug) && HasWorkspace(s, row.workspaceId)
    requires forall x :: x in s.products ==> x.slug != row.slug
    ensures var next := s.(products := Upsert(s.products, ProductKey, row));
            Integrity(p, next) && OnlyGrows(s, next)
  {
    forall x | x in s.products
      ensures ProductKey(x) != ProductKey(row)
    {
      assert x.id[|"product-"|..] == x.slug && row.id[|"product-"|..] == row.slug;
    }
    UpsertAppends(s.products, ProductKey, row);
    UniqueSnoc(s.products, ProductKey, row);
    UniqueSnoc(s.products, ProductSlug, row);
    var next := s.(products := s.products + [row]);
    ProductsKept(s, next);
  }

  lemma ProductsKept(s: PubAuthState, next: PubAuthState)
    requires s.products <= next.products && s.workspaces <= next.workspaces
    ensures forall id, w :: HasProduct(s, id, w) ==> HasProduct(next, id, w)
    ensures forall w :: HasWorkspace(s, w) ==> HasWorkspace(next, w)
  {
  }

  lemma NewWorkspace(p: Platform, s: PubAuthState, row: Workspace)
    requires Integrity(p, s) && Slugged(p, "workspace", row.id, row.slug)
    requires forall w :: w in s.workspaces ==> w.slug != row.slug
    ensures var next := s.(workspaces := Upsert(s.workspaces, WorkspaceKey, row));
            Integrity(p, next) && OnlyGrows(s, next)
  {
    forall w | w in s.workspaces
      ensures WorkspaceKey(w) != WorkspaceKey(row)
    {
      assert w.id[|"workspace-"|..] == w.slug && row.id[|"workspace-"|..] == row.slug;
    }
    UpsertAppends(s.workspaces, WorkspaceKey, row);
    UniqueSnoc(s.workspaces, WorkspaceKey, row);
    UniqueSnoc(s.workspaces, WorkspaceSlug, row);
    var next := s.(workspaces := s.workspaces + [row]);
    ProductsKept(s, next);
  }

  lemma NewDependent(p: Platform, s: PubAuthState, next: PubAuthState)
    requires Integrity(p, s) && next.products == s.products && next.workspaces == s.workspaces
    requires s.clients <= next.clients && forall c :: c in next.clients ==> c in s.clients || HasProduct(s, c.productId, Some(c.workspaceId))
    requires s.routePolicies <= next.routePolicies && forall r :: r in next.routePolicies ==> r in s.routePolicies || HasProduct(s, r.productId, None)
    ensures Integrity(p, next) && OnlyGrows(s, next)
  {
    ProductsKept(s, next);
  }

  lemma ProductCommand(p: Platform, s: PubAuthState, command: Command, draw: AdminDraw, now: Millis)
    requires KeepsSlugs(p) && Integrity(p, s) && command.CreateProduct? && NormalizeSlug(p, command.slug) != ""
    ensures var next := Execute(p, s, command, draw, now).0;
            Integrity(p, next) && OnlyGrows(s, next)
  {
    SlugIdempotent(p, command.slug);
    var slug := NormalizeSlug(p, command.slug);
    if Execute(p, s, command, draw, now).1.ok {
      NewProduct(p, s, Product(SluggedId("product", slug, draw.suffix), command.workspaceId, command.name, slug, command.environment, now));
    }
  }

  lemma WorkspaceCommand(p: Platform, s: PubAuthState, command: Command, draw: AdminDraw, now: Millis)
    requires KeepsSlugs(p) && Integrity(p, s) && command.CreateWorkspace? && NormalizeSlug(p, command.workspaceSlug) != ""
    ensures var next := Execute(p, s, command, draw, now).0;
            Integrity(p, next) && OnlyGrows(s, next)
  {
    SlugIdempotent(p, command.workspaceSlug);
    var slug := NormalizeSlug(p, command.workspaceSlug);
    if Execute(p, s, command, draw, now).1.ok {
      NewWorkspace(p, s, Workspace(SluggedId("workspace", slug, draw.suffix), command.workspaceName, slug, now));
    }
  }

  lemma ClientCommand(p: Platform, s: PubAuthState, command: Command, draw: AdminDraw, now: Millis)
    requires Integrity(p, s) && command.CreateClient? && forall c :: c in s.clients ==> c.id != MakeId("client", draw.suffix)
    ensures var next := Execute(p, s, command, draw, now).0;
            Integrity(p, next) && OnlyGrows(s, next)
  {
    var product := Lookup(s.products, ProductKey, command.clientProductId);
    if product.Some? {
      var client := NewClient(p, product.value, command, draw);
      UpsertAppends(s.clients, ClientRowKey, client);
      assert HasProduct(s, client.productId, Some(client.workspaceId));
    }
    NewDependent(p, s, Execute(p, s, command, draw, now).0);
  }

  lemma PolicyCommand(p: Platform, s: PubAuthState, command: Command, draw: AdminDraw, now: Millis)
    requires Integrity(p, s) && command.CreateRoutePolicy? && forall r :: r in s.routePolicies ==> r.id != MakeId("policy", draw.suffix)
    ensures var next := Execute(p, s, command, draw, now).0;
            Integrity(p, next) && OnlyGrows(s, next)
  {
    var product := Lookup(s.products, ProductKey, command.policyProductId);
    if product.Some? {
      var policy := NewPolicy(p, command, draw);
      UpsertAppends(s.routePolicies, PolicyKey, policy);
      assert HasProduct(s, policy.productId, None);
    }
    NewDependent(p, s, Execute(p, s, command, draw, now).0);
  }

  lemma CommandKeepsIntegrity(p: Platform, s: PubAuthState, step: AdminStep)
    requires KeepsSlugs(p) && Integrity(p, s) && AdminAllowed(p, s, step)
    ensures Integrity(p, AdminApply(p, s, step)) && OnlyGrows(s, AdminApply(p, s, step))
  {
    match step
    case OtherServices(next) => NewDependent(p, s, next);
    case CommandStep(command, draw, now) =>
      match command
      case CreateProduct(_, _, _, _) => ProductCommand(p, s, command, draw, now);
      case CreateWorkspace(_, _) => WorkspaceCommand(p, s, command, draw, now);
      case CreateClient(_, _, _, _) => ClientCommand(p, s, command, draw, now);
      case CreateRoutePolicy(_, _, _, _, _) => PolicyCommand(p, s, command, draw, now);
  }

  /**
   * Over any run of commands that do not overlap: product and workspace ids and slugs stay unique and
   * slugs normal, every product's workspace exists, every client names an existing product and its
   * workspace, every route policy's product exists, and no record created earlier is lost or altered.
   */
  lemma CatalogIntegrity(p: Platform, states: seq<PubAuthState>, steps: seq<AdminStep>, i: nat, k: nat)
    requires KeepsSlugs(p) && AdminRun(p, states, steps) && i <= k < |states| && Integrity(p, states[0])
    ensures Integrity(p, states[k]) && OnlyGrows(states[i], states[k])
  {
    forall j | 0 <= j < |states| - 1 && Integrity(p, states[j])
      ensures Integrity(p, states[j + 1]) && OnlyGrows(states[j], states[j + 1])
    {
      CommandKeepsIntegrity(p, states[j], steps[j]);
    }
    Kept(states, s => Integrity(p, s), 0, i);
    Kept(states, s => Integrity(p, s) && OnlyGrows(states[i], s), i, k);
  }

  /* ---------- exactly when records survive ---------- */

  /** Every catalog record is still there, unaltered. */
  ghost predicate Keeps(s: PubAuthState, next: PubAuthState) {
    && (forall x :: x in s.products ==> x in next.products)
    && (forall w :: w in s.workspaces ==> w in next.workspaces)
    && (forall c :: c in s.clients ==> c in next.clients)
    && (forall r :: r in s.routePolicies ==> r in next.routePolicies)
  }

  /** Some stored record other than `row` has the id of `row`. */
  ghost predicate Taken<T(!new)>(rows: seq<T>, key: T -> string, row: T) {
    exists x :: x in rows && key(x) == key(row) && x != row
  }

  /** Saving a row loses no other exactly when its id is not taken. */
  lemma UpsertKeepsIff<T(!new)>(rows: seq<T>, key: T -> string, row: T)
    ensures (forall x :: x in rows ==> x in Upsert(rows, key, row)) <==> !Taken(rows, key, row)
  {
  }

  function NewProductId(p: Platform, rawSlug: string, draw: AdminDraw): string {
    SluggedId("product", NormalizeSlug(p, rawSlug), draw.suffix)
  }

  function NewWorkspaceId(p: Platform, rawSlug: string, draw: AdminDraw): string {
    SluggedId("workspace", NormalizeSlug(p, rawSlug), draw.suffix)
  }

  /** The id that the command would save under is free, or held by the very record it would save. */
  ghost predicate IdFree(p: Platform, s: PubAuthState, command: Command, draw: AdminDraw) {
    match command
    case CreateProduct(_, _, slug, _) => forall x :: x in s.products ==> x.id != NewProductId(p, slug, draw)
    case CreateWorkspace(_, slug) => forall w :: w in s.workspaces ==> w.id != NewWorkspaceId(p, slug, draw)
    case CreateClient(productId, _, _, _) =>
      var product := Lookup(s.products, ProductKey, productId);
      product.Some? ==> !Taken(s.clients, ClientRowKey, NewClient(p, product.value, command, draw))
    case CreateRoutePolicy(_, _, _, _, _) => !Taken(s.routePolicies, PolicyKey, NewPolicy(p, command, draw))
  }

  lemma ProductKeptIff(p: Platform, s: PubAuthState, command: Command, draw: AdminDraw, now: Millis)
    requires command.CreateProduct?
    ensures var (next, r) := Execute(p, s, command, draw, now);
            (forall x :: x in s.products ==> x in next.products) <==> !r.ok || IdFree(p, s, command, draw)
  {
    var slug := NormalizeSlug(p, command.slug);
    var row := Product(NewProductId(p, command.slug, draw), command.workspaceId, command.name, slug, command.environment, now);
    UpsertKeepsIff(s.products, ProductKey, row);
    if Execute(p, s, command, draw, now).1.ok {
      assert forall x :: x in s.products ==> ProductSlug(x) != slug;
      assert forall x :: x in s.products && ProductKey(x) == row.id ==> x != row;
    }
  }

  lemma WorkspaceKeptIff(p: Platform, s: PubAuthState, command: Command, draw: AdminDraw, now: Millis)
    requires command.CreateWorkspace?
    ensures var (next, r) := Execute(p, s, command, draw, now);
            (forall w :: w in s.workspaces ==> w in next.workspaces) <==> !r.ok || IdFree(p, s, command, draw)
  {
    var slug := NormalizeSlug(p, command.workspaceSlug);
    var row := Workspace(NewWorkspaceId(p, command.workspaceSlug, draw), command.workspaceName, slug, now);
    UpsertKeepsIff(s.workspaces, WorkspaceKey, row);
    if Execute(p, s, command, draw, now).1.ok {
      assert forall w :: w in s.workspaces ==> WorkspaceSlug(w) != slug;
      assert forall w :: w in s.workspaces && WorkspaceKey(w) == row.id ==> w != row;
    }
  }

  lemma ClientKeptIff(p: Platform, s: PubAuthState, command: Command, draw: AdminDraw, now: Millis)
    requires command.CreateClient?
    ensures var (next, r) := Execute(p, s, command, draw, now);
            (forall c :: c in s.clients ==> c in next.clients) <==> !r.ok || IdFree(p, s, command, draw)
  {
    var product := Lookup(s.products, ProductKey, command.clientProductId);
    if product.Some? {
      UpsertKeepsIff(s.clients, ClientRowKey, NewClient(p, product.value, command, draw));
    }
  }

  lemma PolicyKeptIff(p: Platform, s: PubAuthState, command: Command, draw: AdminDraw, now: Millis)
    requires command.CreateRoutePolicy?
    ensures var (next, r) := Execute(p, s, command, draw, now);
            (forall x :: x in s.routePolicies ==> x in next.routePolicies) <==> !r.ok || IdFree(p, s, command, draw)
  {
    UpsertKeepsIff(s.routePolicies, PolicyKey, NewPolicy(p, command, draw));
  }

  /** A create loses no stored record exactly when it is refused or its id is free. */
  lemma CreateKeepsIff(p: Platform, s: PubAuthState, command: Command, draw: AdminDraw, now: Millis)
    ensures var (next, r) := Execute(p, s, command, draw, now);
            Keeps(s, next) <==> !r.ok || IdFree(p, s, command, draw)
  {
    match command
    case CreateProduct(_, _, _, _) => ProductKeptIff(p, s, command, draw, now);
    case CreateWorkspace(_, _) => WorkspaceKeptIff(p, s, command, draw, now);
    case CreateClient(_, _, _, _) => ClientKeptIff(p, s, command, draw, now);
    case CreateRoutePolicy(_, _, _, _, _) => PolicyKeptIff(p, s, command, draw, now);
  }

  /** Any commands at all, with any slugs and ids; other services leave the catalog alone. */
  ghost predicate AnyAdminRun(p: Platform, states: seq<PubAuthState>, steps: seq<AdminStep>) {
    && |states| == |steps| + 1
    && forall k :: 0 <= k < |steps| ==>
         && (steps[k].OtherServices? ==> AdminAllowed(p, states[k], steps[k]))
         && states[k + 1] == AdminApply(p, states[k], steps[k])
  }

  /** Step by step: an accepted create saves under a free id. */
  ghost predicate SavesFreely(p: Platform, s: PubAuthState, step: AdminStep) {
    step.CommandStep? && Execute(p, s, step.command, step.draw, step.now).1.ok ==> IdFree(p, s, step.command, step.draw)
  }

  lemma StepKeepsIff(p: Platform, s: PubAuthState, step: AdminStep)
    requires step.OtherServices? ==> AdminAllowed(p, s, step)
    ensures Keeps(s, AdminApply(p, s, step)) <==> SavesFreely(p, s, step)
  {
    if step.CommandStep? {
      CreateKeepsIff(p, s, step.command, step.draw, step.now);
    }
  }

  ghost predicate NeverLoses(states: seq<PubAuthState>) {
    forall i, k :: 0 <= i <= k < |states| ==> Keeps(states[i], states[k])
  }

  ghost predicate AlwaysFree(p: Platform, states: seq<PubAuthState>, steps: seq<AdminStep>)
    requires |states| == |steps| + 1
  {
    forall j :: 0 <= j < |steps| ==> SavesFreely(p, states[j], steps[j])
  }

  lemma LosingNothingIsFree(p: Platform, states: seq<PubAuthState>, steps: seq<AdminStep>)
    requires AnyAdminRun(p, states, steps) && NeverLoses(states)
    ensures AlwaysFree(p, states, steps)
  {
    forall j | 0 <= j < |steps|
      ensures SavesFreely(p, states[j], steps[j])
    {
      StepKeepsIff(p, states[j], steps[j]);
      assert Keeps(states[j], states[j + 1]);
    }
  }

  lemma FreeLosesNothing(p: Platform, states: seq<PubAuthState>, steps: seq<AdminStep>)
    requires AnyAdminRun(p, states, steps) && AlwaysFree(p, states, steps)
    ensures NeverLoses(states)
  {
    forall j | 0 <= j < |states| - 1
      ensures Keeps(states[j], states[j + 1])
    {
      StepKeepsIff(p, states[j], steps[j]);
    }
    forall i, k | 0 <= i <= k < |states|
      ensures Keeps(states[i], states[k])
    {
      KeepsFrom(states, i, k);
    }
  }

  /**
   * Over any run of commands, empty slugs and repeated ids included, no record is ever lost or altered
   * exactly when every accepted create saved under a free id.
   */
  lemma RunKeepsIff(p: Platform, states: seq<PubAuthState>, steps: seq<AdminStep>)
    requires AnyAdminRun(p, states, steps)
    ensures NeverLoses(states) <==> AlwaysFree(p, states, steps)
  {
    if NeverLoses(states) {
      LosingNothingIsFree(p, states, steps);
    } else if AlwaysFree(p, states, steps) {
      FreeLosesNothing(p, states, steps);
    }
  }

  lemma {:induction false} KeepsFrom(states: seq<PubAuthState>, i: nat, k: nat)
    requires i <= k < |states| && forall j :: 0 <= j < |states| - 1 ==> Keeps(states[j], states[j + 1])
    ensures Keeps(states[i], states[k])
  {
    if i < k {
      KeepsFrom(states, i, k - 1);
      assert Keeps(states[k - 1], states[k - 1 + 1]);
    }
  }

  /**
   * A run in which a record is lost: a product created without a slug gets a random id, and a product
   * created next, whose slug spells that id's tail, takes the id over and erases the first.
   */
  lemma EmptySlugIsErased(p: Platform, s: PubAuthState, first: Command, a: AdminDraw, second: Command, b: AdminDraw,
                          now: Millis, later: Millis)
    requires first.CreateProduct? && NormalizeSlug(p, first.slug) == "" && Execute(p, s, first, a, now).1.ok
    requires second.CreateProduct? && NormalizeSlug(p, second.slug) == MakeId("product", a.suffix)
    requires HasWorkspace(s, second.workspaceId) && forall x :: x in s.products ==> x.slug != MakeId("product", a.suffix)
    ensures var (mid, created) := Execute(p, s, first, a, now);
            var (next, r) := Execute(p, mid, second, b, later);
            && r.ok && !IdFree(p, mid, second, b)
            && exists x :: x in mid.products && x.id == created.id && x !in next.products
  {
    var (mid, created) := Execute(p, s, first, a, now);
    var row := Product(created.id, first.workspaceId, first.name, "", first.environment, now);
    assert MakeId("product", a.suffix) != "";
    assert row in mid.products;
    assert NewProductId(p, second.slug, b) == row.id;
  }
}
