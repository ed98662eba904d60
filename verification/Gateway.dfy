/** The gateway decision: rule order, the two first-match evaluators, and the request sent upstream. */
module Gateway {
  import opened Tables
  import opened Text
  import opened Jwt
  import opened SigningKeys
  import opened Model
  import opened Stores
  import opened PathPattern
  import opened Acceptance
  import opened Credentials

  datatype RouteRule = RouteRule(appId: string, upstreamUrl: string, pathPattern: string, methods: seq<string>, requiredRoles: seq<string>)

  datatype PolicyRule = PolicyRule(pathPattern: string, methods: seq<string>, requiredRoles: seq<string>, requiredGroups: Option<seq<string>>)

  datatype RouteDecision = RouteDecision(matched: bool, appId: string, upstreamUrl: string, reason: string)

  datatype PolicyDecision = PolicyDecision(allowed: bool, reason: string)

  datatype GatewayRequest = GatewayRequest(httpMethod: string, path: string, headers: Headers)

  datatype TrustedRequest = TrustedRequest(upstreamUrl: string, httpMethod: string, path: string, headers: Headers)

  datatype Decision = Decision(allowed: bool, reason: string, upstream: Option<TrustedRequest>)

  /* ---------- rules ---------- */

  /** Inserts behind every policy of at least its priority. */
  function InsertByPriority(sorted: seq<RoutePolicy>, policy: RoutePolicy): seq<RoutePolicy> {
    if sorted == [] || sorted[0].priority < policy.priority then [policy] + sorted
    else [sorted[0]] + InsertByPriority(sorted[1..], policy)
  }

  /** The stable sort by descending priority. */
  function SortByPriority(policies: seq<RoutePolicy>): seq<RoutePolicy> {
    if policies == [] then []
    else InsertByPriority(SortByPriority(policies[..|policies| - 1]), policies[|policies| - 1])
  }

  function ToRouteRule(policy: RoutePolicy): RouteRule {
    RouteRule(policy.productId, policy.upstreamUrl, policy.pathPattern, policy.methods, policy.requiredRoles)
  }

  function ToPolicyRule(rule: RouteRule): PolicyRule {
    PolicyRule(rule.pathPattern, rule.methods, rule.requiredRoles, None)
  }

  predicate IsActivePolicy(policy: RoutePolicy) { policy.active }

  function BuildRouteRules(policies: seq<RoutePolicy>): seq<RouteRule> {
    MapRows(SortByPriority(Filter(policies, IsActivePolicy)), ToRouteRule)
  }

  /* ---------- the two evaluators ---------- */

  function ResolveGatewayRoute(p: Platform, path: string, httpMethod: string, rules: seq<RouteRule>): RouteDecision {
    if NormalizeRequestPath(path).None? then RouteDecision(false, "", "", "invalid_path")
    else
      var rule := Find(rules, (r: RouteRule) => MatchPathPattern(r.pathPattern, path));
      if rule.None? then RouteDecision(false, "", "", "no_route_rule")
      else if p.toUpperCase(httpMethod) !in rule.value.methods then RouteDecision(false, "", "", "method_not_allowed")
      else RouteDecision(true, rule.value.appId, rule.value.upstreamUrl, "matched")
  }

  predicate Intersects(required: seq<string>, held: seq<string>) {
    exists x :: x in required && x in held
  }

  function EvaluatePolicy(p: Platform, principal: Principal, path: string, httpMethod: string,
                          rules: seq<PolicyRule>): PolicyDecision {
    if NormalizeRequestPath(path).None? then PolicyDecision(false, "invalid_path")
    else
      var rule := Find(rules, (r: PolicyRule) => MatchPathPattern(r.pathPattern, path));
      if rule.None? then PolicyDecision(false, "no_matching_rule")
      else if p.toUpperCase(httpMethod) !in rule.value.methods then PolicyDecision(false, "method_not_allowed")
      else if !Intersects(rule.value.requiredRoles, principal.roles) then PolicyDecision(false, "missing_role")
      else if rule.value.requiredGroups.Some? && rule.value.requiredGroups.value != []
              && !Intersects(rule.value.requiredGroups.value, principal.groups) then PolicyDecision(false, "missing_group")
      else PolicyDecision(true, "allowed")
  }

  /* ---------- the request sent upstream ---------- */

  predicate IsPubAuthHeader(p: Platform, name: string) {
    var lower := p.toLowerCase(name);
    |lower| >= 10 && lower[..10] == "x-pubauth-"
  }

  function ForwardHeaders(principal: Principal): Headers {
    map["x-pubauth-user-id" := Single(principal.userId),
        "x-pubauth-workspace-id" := Single(principal.workspaceId),
        "x-pubauth-roles" := Single(Join(principal.roles, ',')),
        "x-pubauth-groups" := Single(Join(principal.groups, ','))]
  }

  function BuildTrustedRequest(p: Platform, upstreamUrl: string, request: GatewayRequest,
                               principal: Principal): TrustedRequest {
    var kept := map name | name in request.headers && !IsPubAuthHeader(p, name) :: request.headers[name];
    TrustedRequest(upstreamUrl, request.httpMethod, request.path, kept + ForwardHeaders(principal))
  }

  /** `verified` is what the verifier returns for `credential`; it is read only if there is one. */
  function AuthorizeGatewayRequest(p: Platform, request: GatewayRequest, rules: seq<RouteRule>, policyRules: seq<PolicyRule>,
                                   credential: Option<Credential>, verified: Option<Principal>): Decision {
    var route := ResolveGatewayRoute(p, request.path, request.httpMethod, rules);
    if !route.matched || route.upstreamUrl == "" || route.appId == "" then Decision(false, "deny_by_default", None)
    else if credential.None? then Decision(false, "missing_credential", None)
    else if verified.None? then Decision(false, "invalid_credential", None)
    else
      var policy := EvaluatePolicy(p, verified.value, request.path, request.httpMethod, policyRules);
      if !policy.allowed then Decision(false, policy.reason, None)
      else Decision(true, "allowed", Some(BuildTrustedRequest(p, route.upstreamUrl, request, verified.value)))
  }

  /* ---------- one request on one snapshot ---------- */

  function VerifySession(s: PubAuthState, sessionId: string, now: Millis): Option<Principal> {
    var session := FindSession(s, sessionId);
    if !SessionLive(session, now) then None
    else
      var row := session.value;
      Some(Principal(row.subjectId, row.workspaceId, GatewayRoles(s, row.subjectId, row.workspaceId), []))
  }

  function VerifyCredential(p: Platform, s: PubAuthState, service: KeyService, issuer: string,
                            credential: Option<Credential>, now: Millis): Option<Principal> {
    match credential
    case None => None
    case Some(Bearer(token)) => VerifyBearer(p, s, service, issuer, token, now)
    case Some(SessionCookie(id)) => VerifySession(s, id, now)
  }

  function CredentialOf(request: GatewayRequest, sessionMode: bool): Option<Credential> {
    ReadGatewayCredential(request.headers, sessionMode, "pubauth_session")
  }

  /** `handleGatewayRequest` up to forwarding. */
  function HandleGatewayRequest(p: Platform, s: PubAuthState, service: KeyService, issuer: string, sessionMode: bool,
                                request: GatewayRequest, now: Millis): Decision {
    if "/_pubauth/" <= request.path then Decision(false, "not_found", None)
    else
      var rules := BuildRouteRules(s.routePolicies);
      var credential := CredentialOf(request, sessionMode);
      AuthorizeGatewayRequest(p, request, rules, MapRows(rules, ToPolicyRule), credential,
                              VerifyCredential(p, s, service, issuer, credential, now))
  }

  /* ---------- which policy decides ---------- */

  predicate Applies(policy: RoutePolicy, path: string) {
    policy.active && MatchPathPattern(policy.pathPattern, path)
  }

  /** Stored policy `i` applies, no applicable one has a higher priority, and no earlier one has the same. */
  ghost predicate Best(policies: seq<RoutePolicy>, path: string, i: int) {
    && 0 <= i < |policies|
    && Applies(policies[i], path)
    && forall j :: 0 <= j < |policies| && Applies(policies[j], path) ==>
         policies[j].priority < policies[i].priority || (policies[j].priority == policies[i].priority && i <= j)
  }

  predicate ByPriority(sorted: seq<RoutePolicy>) {
    forall i, j :: 0 <= i < j < |sorted| ==> sorted[i].priority >= sorted[j].priority
  }

  lemma {:induction false} InsertKeepsOrder(sorted: seq<RoutePolicy>, policy: RoutePolicy)
    requires ByPriority(sorted)
    ensures ByPriority(InsertByPriority(sorted, policy))
    ensures forall x :: x in InsertByPriority(sorted, policy) <==> x in sorted || x == policy
  {
    if sorted != [] && sorted[0].priority >= policy.priority {
      InsertKeepsOrder(sorted[1..], policy);
      var rest := InsertByPriority(sorted[1..], policy);
      assert forall i :: 0 <= i < |rest| ==> rest[i] in rest;
    }
  }

  lemma {:induction false} FindInserted(sorted: seq<RoutePolicy>, policy: RoutePolicy, hit: RoutePolicy -> bool)
    requires ByPriority(sorted)
    ensures Find(InsertByPriority(sorted, policy), hit)
            == if hit(policy) && (Find(sorted, hit).None? || Find(sorted, hit).value.priority < policy.priority) then Some(policy)
               else Find(sorted, hit)
  {
    if sorted != [] && sorted[0].priority >= policy.priority {
      FindInserted(sorted[1..], policy, hit);
    } else {
      assert ([policy] + sorted)[1..] == sorted;
      if Find(sorted, hit).Some? {
        var i :| 0 <= i < |sorted| && sorted[i] == Find(sorted, hit).value;
        assert i > 0 ==> sorted[0].priority >= sorted[i].priority;
      }
    }
  }

  lemma {:induction false} SortIsOrdered(policies: seq<RoutePolicy>)
    ensures ByPriority(SortByPriority(policies))
  {
    if policies != [] {
      SortIsOrdered(policies[..|policies| - 1]);
      InsertKeepsOrder(SortByPriority(policies[..|policies| - 1]), policies[|policies| - 1]);
    }
  }

  lemma {:induction false} FilterSnoc(policies: seq<RoutePolicy>, last: RoutePolicy)
    ensures Filter(policies + [last], IsActivePolicy) == Filter(policies, IsActivePolicy) + if last.active then [last] else []
  {
    if policies == [] {
      assert policies + [last] == [last];
    } else {
      assert (policies + [last])[1..] == policies[1..] + [last];
      FilterSnoc(policies[1..], last);
    }
  }

  function FirstMatch(policies: seq<RoutePolicy>, path: string): Option<RoutePolicy> {
    Find(SortByPriority(Filter(policies, IsActivePolicy)), (q: RoutePolicy) => MatchPathPattern(q.pathPattern, path))
  }

  lemma FirstMatchSnoc(policies: seq<RoutePolicy>, last: RoutePolicy, path: string)
    ensures FirstMatch(policies + [last], path)
            == if Applies(last, path) && (FirstMatch(policies, path).None? || FirstMatch(policies, path).value.priority < last.priority)
               then Some(last) else FirstMatch(policies, path)
  {
    var active := Filter(policies, IsActivePolicy);
    FilterSnoc(policies, last);
    if last.active {
      assert (active + [last])[..|active|] == active;
      SortIsOrdered(active);
      FindInserted(SortByPriority(active), last, (q: RoutePolicy) => MatchPathPattern(q.pathPattern, path));
    } else {
      assert active + [] == active;
    }
  }

  /** The policies that decide: `q` is the best one, or there is none. */
  ghost predicate Decides(policies: seq<RoutePolicy>, path: string, q: Option<RoutePolicy>) {
    match q
    case None => forall j :: 0 <= j < |policies| ==> !Applies(policies[j], path)
    case Some(policy) => exists i :: Best(policies, path, i) && policies[i] == policy
  }

  lemma BestTakesOver(rest: seq<RoutePolicy>, last: RoutePolicy, path: string, i: int)
    requires Best(rest, path, i) && Applies(last, path) && rest[i].priority < last.priority
    ensures Best(rest + [last], path, |rest|)
  {
  }

  lemma BestRemains(rest: seq<RoutePolicy>, last: RoutePolicy, path: string, i: int)
    requires Best(rest, path, i) && !(Applies(last, path) && rest[i].priority < last.priority)
    ensures Best(rest + [last], path, i)
  {
  }

  /** One more policy takes over only if it applies and has a strictly higher priority. */
  lemma DecidesSnoc(rest: seq<RoutePolicy>, last: RoutePolicy, path: string, before: Option<RoutePolicy>)
    requires Decides(rest, path, before)
    ensures Decides(rest + [last], path,
                    if Applies(last, path) && (before.None? || before.value.priority < last.priority) then Some(last) else before)
  {
    var policies := rest + [last];
    if before.Some? {
      var i :| Best(rest, path, i) && rest[i] == before.value;
      if Applies(last, path) && before.value.priority < last.priority {
        BestTakesOver(rest, last, path, i);
        assert policies[|rest|] == last;
      } else {
        BestRemains(rest, last, path, i);
        assert policies[i] == before.value;
      }
    } else if Applies(last, path) {
      assert Best(policies, path, |rest|) && policies[|rest|] == last;
    }
  }

  lemma FirstMatchDecidesSnoc(rest: seq<RoutePolicy>, last: RoutePolicy, path: string)
    requires Decides(rest, path, FirstMatch(rest, path))
    ensures Decides(rest + [last], path, FirstMatch(rest + [last], path))
  {
    FirstMatchSnoc(rest, last, path);
    DecidesSnoc(rest, last, path, FirstMatch(rest, path));
  }

  /** The first match in rule order is the best stored policy, and there is one unless none applies. */
  lemma {:induction false} FirstMatchIsBest(policies: seq<RoutePolicy>, path: string)
    ensures Decides(policies, path, FirstMatch(policies, path))
  {
    if policies == [] {
      assert FirstMatch([], path) == None;
    } else {
      var rest, last := policies[..|policies| - 1], policies[|policies| - 1];
      assert policies == rest + [last];
      FirstMatchIsBest(rest, path);
      FirstMatchDecidesSnoc(rest, last, path);
    }
  }

  lemma {:induction false} FindMapped<T(!new), U(!new)>(rows: seq<T>, f: T -> U, onT: T -> bool, onU: U -> bool)
    requires forall x :: onT(x) <==> onU(f(x))
    ensures Find(MapRows(rows, f), onU) == match Find(rows, onT) case None => None case Some(x) => Some(f(x))
  {
    if rows != [] {
      assert MapRows(rows, f)[1..] == MapRows(rows[1..], f);
      FindMapped(rows[1..], f, onT, onU);
    }
  }

  /** The decision that one policy makes on its own. */
  function DecideBy(p: Platform, request: GatewayRequest, policy: Option<RoutePolicy>, credential: Option<Credential>,
                    verified: Option<Principal>): Decision {
    if NormalizeRequestPath(request.path).None? || policy.None? || p.toUpperCase(request.httpMethod) !in policy.value.methods
       || policy.value.upstreamUrl == "" || policy.value.productId == "" then Decision(false, "deny_by_default", None)
    else if credential.None? then Decision(false, "missing_credential", None)
    else if verified.None? then Decision(false, "invalid_credential", None)
    else if !Intersects(policy.value.requiredRoles, verified.value.roles) then Decision(false, "missing_role", None)
    else Decision(true, "allowed", Some(BuildTrustedRequest(p, policy.value.upstreamUrl, request, verified.value)))
  }

  lemma RouteFollowsFirstMatch(p: Platform, path: string, httpMethod: string, policies: seq<RoutePolicy>)
    ensures ResolveGatewayRoute(p, path, httpMethod, BuildRouteRules(policies))
            == if NormalizeRequestPath(path).None? then RouteDecision(false, "", "", "invalid_path")
               else match FirstMatch(policies, path)
                 case None => RouteDecision(false, "", "", "no_route_rule")
                 case Some(q) => if p.toUpperCase(httpMethod) in q.methods then RouteDecision(true, q.productId, q.upstreamUrl, "matched")
                                 else RouteDecision(false, "", "", "method_not_allowed")
  {
    FindMapped(SortByPriority(Filter(policies, IsActivePolicy)), ToRouteRule,
               (q: RoutePolicy) => MatchPathPattern(q.pathPattern, path), (r: RouteRule) => MatchPathPattern(r.pathPattern, path));
  }

  lemma PolicyFollowsFirstMatch(p: Platform, principal: Principal, path: string, httpMethod: string,
                                policies: seq<RoutePolicy>)
    ensures EvaluatePolicy(p, principal, path, httpMethod, MapRows(BuildRouteRules(policies), ToPolicyRule))
            == if NormalizeRequestPath(path).None? then PolicyDecision(false, "invalid_path")
               else match FirstMatch(policies, path)
                 case None => PolicyDecision(false, "no_matching_rule")
                 case Some(q) => if p.toUpperCase(httpMethod) !in q.methods then PolicyDecision(false, "method_not_allowed")
                                 else if Intersects(q.requiredRoles, principal.roles) then PolicyDecision(true, "allowed")
                                 else PolicyDecision(false, "missing_role")
  {
    var onPolicy := (q: RoutePolicy) => MatchPathPattern(q.pathPattern, path);
    var onRoute := (r: RouteRule) => MatchPathPattern(r.pathPattern, path);
    var onRule := (r: PolicyRule) => MatchPathPattern(r.pathPattern, path);
    FindMapped(SortByPriority(Filter(policies, IsActivePolicy)), ToRouteRule, onPolicy, onRoute);
    FindMapped(BuildRouteRules(policies), ToPolicyRule, onRoute, onRule);
  }

  /** Both evaluators pick the same policy, so the decision is the one that policy makes alone. */
  lemma EvaluatorsAgree(p: Platform, request: GatewayRequest, policies: seq<RoutePolicy>,
                        credential: Option<Credential>, verified: Option<Principal>)
    ensures var rules := BuildRouteRules(policies);
            AuthorizeGatewayRequest(p, request, rules, MapRows(rules, ToPolicyRule), credential, verified)
            == DecideBy(p, request, FirstMatch(policies, request.path), credential, verified)
  {
    var rules := BuildRouteRules(policies);
    var route := ResolveGatewayRoute(p, request.path, request.httpMethod, rules);
    RouteFollowsFirstMatch(p, request.path, request.httpMethod, policies);
    if route.matched && route.upstreamUrl != "" && route.appId != "" && credential.Some? && verified.Some? {
      PolicyFollowsFirstMatch(p, verified.value, request.path, request.httpMethod, policies);
    }
  }

  /** Stored policy `i` lets the request through for this principal. */
  predicate Admits(p: Platform, policy: RoutePolicy, request: GatewayRequest, principal: Option<Principal>) {
    && policy.upstreamUrl != "" && policy.productId != ""
    && p.toUpperCase(request.httpMethod) in policy.methods
    && principal.Some?
    && Intersects(policy.requiredRoles, principal.value.roles)
  }

  /**
   * The gateway allows a request exactly when the highest-priority applicable policy, the earliest
   * stored on ties, has an upstream and a product, lists the method, and requires a role that the
   * verified principal holds; the request to forward then carries that policy's upstream URL.
   */
  lemma DecisionMeaning(p: Platform, s: PubAuthState, service: KeyService, issuer: string, sessionMode: bool,
                        request: GatewayRequest, now: Millis)
    ensures var decision := HandleGatewayRequest(p, s, service, issuer, sessionMode, request, now);
            var principal := VerifyCredential(p, s, service, issuer, CredentialOf(request, sessionMode), now);
            && (decision.allowed <==>
                && !("/_pubauth/" <= request.path)
                && NormalizeRequestPath(request.path).Some?
                && exists i :: Best(s.routePolicies, request.path, i) && Admits(p, s.routePolicies[i], request, principal))
            && (forall i :: decision.allowed && Best(s.routePolicies, request.path, i) ==>
                  Admits(p, s.routePolicies[i], request, principal)
                  && decision.upstream == Some(BuildTrustedRequest(p, s.routePolicies[i].upstreamUrl, request, principal.value)))
            && (!decision.allowed ==> decision.upstream == None)
  {
    var credential := CredentialOf(request, sessionMode);
    var principal := VerifyCredential(p, s, service, issuer, credential, now);
    EvaluatorsAgree(p, request, s.routePolicies, credential, principal);
    FirstMatchIsBest(s.routePolicies, request.path);
    DecideByBest(p, request, s.routePolicies, credential, principal);
  }

  lemma DecideByBest(p: Platform, request: GatewayRequest, policies: seq<RoutePolicy>, credential: Option<Credential>,
                     principal: Option<Principal>)
    requires credential.None? ==> principal.None?
    ensures var decision := DecideBy(p, request, FirstMatch(policies, request.path), credential, principal);
            && (decision.allowed <==> NormalizeRequestPath(request.path).Some?
                                      && exists i :: Best(policies, request.path, i) && Admits(p, policies[i], request, principal))
            && (forall i :: decision.allowed && Best(policies, request.path, i) ==>
                  Admits(p, policies[i], request, principal)
                  && decision.upstream == Some(BuildTrustedRequest(p, policies[i].upstreamUrl, request, principal.value)))
  {
    FirstMatchIsBest(policies, request.path);
    BestIsUnique(policies, request.path);
  }

  lemma BestIsUnique(policies: seq<RoutePolicy>, path: string)
    ensures forall i, j :: Best(policies, path, i) && Best(policies, path, j) ==> i == j
  {
  }

  /**
   * When no two stored policies that apply to the path share a priority, any reordering of the stored
   * policies leaves the whole decision unchanged.
   */
  lemma OrderIrrelevant(p: Platform, s: PubAuthState, reordered: seq<RoutePolicy>, service: KeyService, issuer: string,
                        sessionMode: bool,
                        request: GatewayRequest, now: Millis)
    requires multiset(reordered) == multiset(s.routePolicies)
    requires forall i, j :: 0 <= i < j < |s.routePolicies| && Applies(s.routePolicies[i], request.path) && Applies(s.routePolicies[j], request.path)
                            ==> s.routePolicies[i].priority != s.routePolicies[j].priority
    ensures HandleGatewayRequest(p, s.(routePolicies := reordered), service, issuer, sessionMode, request, now)
            == HandleGatewayRequest(p, s, service, issuer, sessionMode, request, now)
  {
    SameFirstMatch(s.routePolicies, reordered, request.path);
    var credential := CredentialOf(request, sessionMode);
    var principal := VerifyCredential(p, s, service, issuer, credential, now);
    CredentialIgnoresPolicies(p, s, reordered, service, issuer, credential, now);
    EvaluatorsAgree(p, request, s.routePolicies, credential, principal);
    EvaluatorsAgree(p, request, reordered, credential, principal);
  }

  lemma CredentialIgnoresPolicies(p: Platform, s: PubAuthState, policies: seq<RoutePolicy>, service: KeyService,
                                  issuer: string,
                                  credential: Option<Credential>, now: Millis)
    ensures VerifyCredential(p, s.(routePolicies := policies), service, issuer, credential, now)
            == VerifyCredential(p, s, service, issuer, credential, now)
  {
  }

  lemma SameFirstMatch(policies: seq<RoutePolicy>, reordered: seq<RoutePolicy>, path: string)
    requires multiset(reordered) == multiset(policies)
    requires forall i, j :: 0 <= i < j < |policies| && Applies(policies[i], path) && Applies(policies[j], path)
                            ==> policies[i].priority != policies[j].priority
    ensures FirstMatch(reordered, path) == FirstMatch(policies, path)
  {
    FirstMatchIsBest(policies, path);
    FirstMatchIsBest(reordered, path);
    assert forall x :: x in policies <==> x in multiset(policies);
    assert forall x :: x in reordered <==> x in multiset(reordered);
    var a, b := FirstMatch(policies, path), FirstMatch(reordered, path);
    if b.Some? {
      var k :| Best(reordered, path, k) && reordered[k] == b.value;
      assert b.value in policies;
      var j :| 0 <= j < |policies| && policies[j] == b.value;
      var i :| Best(policies, path, i) && policies[i] == a.value;
      assert policies[i] in reordered;
      var l :| 0 <= l < |reordered| && reordered[l] == a.value;
      assert a.value.priority == b.value.priority;
    }
  }

  /**
   * Upstream sees identity headers only as the gateway wrote them: whatever the caller sent under any
   * spelling of the prefix is gone, and every other header is passed on unchanged.
   */
  lemma IdentityHeadersAreTrusted(p: Platform, upstreamUrl: string, request: GatewayRequest, principal: Principal)
    ensures var headers := BuildTrustedRequest(p, upstreamUrl, request, principal).headers;
            && (forall name :: name in headers && IsPubAuthHeader(p, name) ==>
                  name in ForwardHeaders(principal) && headers[name] == ForwardHeaders(principal)[name])
            && (forall name :: name in ForwardHeaders(principal) ==> name in headers && headers[name] == ForwardHeaders(principal)[name])
            && (forall name :: name !in ForwardHeaders(principal) && !IsPubAuthHeader(p, name) ==>
                  (name in headers <==> name in request.headers) && (name in headers ==> headers[name] == request.headers[name]))
  {
  }
}
