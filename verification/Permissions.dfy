// The permission check for requests, and what it means for API tokens.
module Permissions {
  import opened Wrappers
  import opened Scopes

  datatype AuthMethod = JWT | APIToken | OAuth

  datatype Identity = Identity(userID: string, auth: AuthMethod, tokenScopes: seq<string>, resourceIDs: seq<string>,
                               isSystem: bool)

  // The policy store: a permission check, the organisation of a project, and
  // membership in its admin group, each of which may fail.
  datatype Policy = Policy(
    allows: (string, string, string, string) -> Option<bool>,
    organisation: string -> Option<string>,
    isOrgAdmin: (string, string) -> Option<bool>)

  datatype Verdict = Allowed | Unauthenticated | ScopeInsufficient | ResourceNotAuthorised | Insufficient

  datatype Request = Request(domain: string, resource: string, resourceID: string, action: string)

  predicate IsOrgAdminViaPolicy(policy: Policy, userID: string, projectID: string) {
    projectID != "" &&
    policy.organisation(projectID).Some? &&
    policy.isOrgAdmin(userID, policy.organisation(projectID).value) == Some(true)
  }

  // What the policy says of the user, however they authenticated. A failing
  // policy check refuses without the organisation admin fallback.
  predicate UserMay(policy: Policy, userID: string, request: Request) {
    var target := if request.resourceID != "" then request.resource + "/" + request.resourceID else request.resource;
    match policy.allows(userID, request.domain, target, request.action)
    case None => false
    case Some(allowed) => allowed || IsOrgAdminViaPolicy(policy, userID, request.domain)
  }

  ghost predicate SomeScopeCovers(scopes: seq<string>, request: Request) {
    exists i :: 0 <= i < |scopes| && Covers(RESOURCE_TYPES, scopes[i], request.resource, request.action)
  }

  predicate ResourceAuthorised(identity: Identity, request: Request) {
    identity.resourceIDs == [] || request.resourceID == "" || request.resourceID in identity.resourceIDs
  }

  ghost function VerdictOn(policy: Policy, identity: Option<Identity>, request: Request): Verdict {
    if identity.None? then Unauthenticated
    else
      var who := identity.value;
      if who.isSystem then Allowed
      else if who.auth.APIToken? && !SomeScopeCovers(who.tokenScopes, request) then ScopeInsufficient
      else if who.auth.APIToken? && !ResourceAuthorised(who, request) then ResourceNotAuthorised
      else if UserMay(policy, who.userID, request) then Allowed
      else Insufficient
  }

  method Check(policy: Policy, identity: Option<Identity>, request: Request) returns (verdict: Verdict)
    ensures verdict == VerdictOn(policy, identity, request)
  {
    if identity.None? {
      return Unauthenticated;
    }
    var who := identity.value;
    if who.isSystem {
      return Allowed;
    }
    if who.auth.APIToken? {
      var scopeAllowed := false;
      for i := 0 to |who.tokenScopes|
        invariant !scopeAllowed
        invariant forall j :: 0 <= j < i ==>
            !Covers(RESOURCE_TYPES, who.tokenScopes[j], request.resource, request.action)
      {
        var covers := ScopeCovers(RESOURCE_TYPES, who.tokenScopes[i], request.resource, request.action);
        if covers {
          scopeAllowed := true;
          break;
        }
      }
      if !scopeAllowed {
        return ScopeInsufficient;
      }
      if |who.resourceIDs| > 0 && request.resourceID != "" && request.resourceID !in who.resourceIDs {
        return ResourceNotAuthorised;
      }
    }
    var target := request.resource;
    if request.resourceID != "" {
      target := request.resource + "/" + request.resourceID;
    }
    var allowed := policy.allows(who.userID, request.domain, target, request.action);
    if allowed.None? {
      return Insufficient;
    }
    if allowed.value || IsOrgAdminViaPolicy(policy, who.userID, request.domain) {
      return Allowed;
    }
    return Insufficient;
  }

  // A user without a token is permitted exactly when the policy allows the
  // request, or denies it and the user is admin of the known organisation of the
  // project; when the policy does not answer, they are refused.
  lemma UserPermittedExactly(policy: Policy, user: Identity, request: Request)
    requires !user.isSystem && !user.auth.APIToken?
    ensures var target := if request.resourceID == "" then request.resource
                          else request.resource + "/" + request.resourceID;
            var answer := policy.allows(user.userID, request.domain, target, request.action);
            var verdict := VerdictOn(policy, Some(user), request);
            && (verdict == Allowed || verdict == Insufficient)
            && (verdict == Allowed <==>
                  || answer == Some(true)
                  || (&& answer == Some(false) && request.domain != ""
                      && AdminOfProject(policy, user.userID, request.domain)))
  {
    AdminExactly(policy, user.userID, request.domain);
    var target := if request.resourceID == "" then request.resource
                  else request.resource + "/" + request.resourceID;
    match policy.allows(user.userID, request.domain, target, request.action)
    case None => assert !UserMay(policy, user.userID, request);
    case Some(allowed) =>
      assert UserMay(policy, user.userID, request) <==>
             allowed || IsOrgAdminViaPolicy(policy, user.userID, request.domain);
  }

  lemma AdminExactly(policy: Policy, userID: string, projectID: string)
    ensures IsOrgAdminViaPolicy(policy, userID, projectID) <==>
            projectID != "" && AdminOfProject(policy, userID, projectID)
  {
    if IsOrgAdminViaPolicy(policy, userID, projectID) {
      var organisation := policy.organisation(projectID).value;
      assert policy.isOrgAdmin(userID, organisation) == Some(true);
    }
  }

  ghost predicate AdminOfProject(policy: Policy, userID: string, projectID: string) {
    exists organisation ::
      policy.isOrgAdmin(userID, organisation) == Some(true) && policy.organisation(projectID) == Some(organisation)
  }

  // Exactly when each of the other verdicts is given.
  lemma VerdictExactly(policy: Policy, identity: Option<Identity>, request: Request)
    ensures var verdict := VerdictOn(policy, identity, request);
            && (verdict == Unauthenticated <==> identity == None)
            && (identity.Some? && identity.value.isSystem ==> verdict == Allowed)
            && (verdict == ScopeInsufficient <==>
                  && identity.Some? && !identity.value.isSystem && identity.value.auth.APIToken?
                  && forall scope :: scope in identity.value.tokenScopes ==>
                       !Covers(RESOURCE_TYPES, scope, request.resource, request.action))
            && (verdict == ResourceNotAuthorised <==>
                  && identity.Some? && !identity.value.isSystem && identity.value.auth.APIToken?
                  && (exists scope :: scope in identity.value.tokenScopes &&
                        Covers(RESOURCE_TYPES, scope, request.resource, request.action))
                  && identity.value.resourceIDs != [] && request.resourceID != ""
                  && request.resourceID !in identity.value.resourceIDs)
  {
    if identity.Some? {
      var scopes := identity.value.tokenScopes;
      assert forall i :: 0 <= i < |scopes| ==> scopes[i] in scopes;
      if SomeScopeCovers(scopes, request) {
        var i :| 0 <= i < |scopes| && Covers(RESOURCE_TYPES, scopes[i], request.resource, request.action);
        assert scopes[i] in scopes;
      }
    }
  }

  // A token is permitted exactly when some scope covers the request, its
  // restriction to resources admits it, and the same user would be permitted
  // by an identity without token.
  lemma TokenPermittedExactly(policy: Policy, token: Identity, request: Request)
    requires token.auth.APIToken? && !token.isSystem
    ensures VerdictOn(policy, Some(token), request) == Allowed <==>
            && SomeScopeCovers(token.tokenScopes, request)
            && ResourceAuthorised(token, request)
            && VerdictOn(policy, Some(token.(auth := JWT, tokenScopes := [], resourceIDs := [])), request) == Allowed
  {}

  // Giving a token more scopes never takes a permission away.
  lemma MoreScopesPermitMore(policy: Policy, token: Identity, more: seq<string>, request: Request)
    requires VerdictOn(policy, Some(token), request) == Allowed
    ensures VerdictOn(policy, Some(token.(tokenScopes := token.tokenScopes + more)), request) == Allowed
  {
    var scopes := token.tokenScopes + more;
    if SomeScopeCovers(token.tokenScopes, request) {
      var i :| 0 <= i < |token.tokenScopes|
          && Covers(RESOURCE_TYPES, token.tokenScopes[i], request.resource, request.action);
      assert scopes[i] == token.tokenScopes[i];
    }
  }
}
