// API token scopes: which are valid, and what they cover.
module Scopes {
  import opened Wrappers
  import opened Splitting

  datatype ResourceType = ResourceType(name: string, parent: string, actions: seq<string>)

  const CRUD: seq<string> := ["read", "write", "delete", "list", "create"]
  const ALL_ACTIONS: seq<string> := ["read", "write", "delete", "list", "create", "logs", "exec"]

  const FULL_ACCESS := "*:*"

  const RESOURCE_TYPES: seq<ResourceType> := [
    ResourceType("stacks", "", ALL_ACTIONS),
    ResourceType("secrets", "", CRUD),
    ResourceType("registry-credentials", "", CRUD),
    ResourceType("git-integrations", "", CRUD),
    ResourceType("volumes", "", CRUD),
    ResourceType("clusters", "", CRUD),
    ResourceType("image-registries", "", CRUD),
    ResourceType("orgs", "", CRUD),
    ResourceType("addons/postgres", "addons", ALL_ACTIONS),
    ResourceType("object-stores", "", CRUD),
    ResourceType("users", "", CRUD),
    ResourceType("image-builds", "", CRUD),
    ResourceType("addons", "", ALL_ACTIONS),
    ResourceType("domains", "", CRUD),
    ResourceType("projects", "", CRUD),
    ResourceType("invites", "", CRUD),
    ResourceType("preview-configs", "", CRUD),
    ResourceType("preview-stacks", "", CRUD)]

  // Exactly one colon separates resource and action.
  function SplitScope(scope: string): Option<(string, string)> {
    var parts := Split(scope, ':');
    if |parts| == 2 then Some((parts[0], parts[1])) else None
  }

  predicate Matches(rt: ResourceType, resource: string) {
    rt.name == resource || (rt.parent != "" && rt.parent == resource)
  }

  predicate HasAction(rt: ResourceType, action: string) {
    action == "*" || action in rt.actions
  }

  // The first type in the table that matches decides.
  function FirstMatchHas(table: seq<ResourceType>, resource: string, action: string): bool {
    if table == [] then false
    else if Matches(table[0], resource) then HasAction(table[0], action)
    else FirstMatchHas(table[1..], resource, action)
  }

  function ScopeIsValid(table: seq<ResourceType>, scope: string): bool {
    scope == FULL_ACCESS ||
    var parts := SplitScope(scope);
    parts.Some? && FirstMatchHas(table, parts.value.0, parts.value.1)
  }

  method ValidateScope(scope: string) returns (valid: bool)
    ensures valid == ScopeIsValid(RESOURCE_TYPES, scope)
  {
    if scope == FULL_ACCESS {
      return true;
    }
    var parts := SplitScope(scope);
    if parts.None? {
      return false;
    }
    var (resource, action) := parts.value;
    valid := LookUp(RESOURCE_TYPES, resource, action);
  }

  method LookUp(table: seq<ResourceType>, resource: string, action: string) returns (found: bool)
    ensures found == FirstMatchHas(table, resource, action)
  {
    for i := 0 to |table|
      invariant FirstMatchHas(table, resource, action) == FirstMatchHas(table[i..], resource, action)
    {
      var rt := table[i];
      assert table[i..][1..] == table[i + 1..];
      if rt.name == resource || (rt.parent != "" && rt.parent == resource) {
        if action == "*" {
          return true;
        }
        return action in rt.actions;
      }
    }
    return false;
  }

  predicate ParentOf(table: seq<ResourceType>, parent: string, resource: string) {
    exists rt :: rt in table && rt.name == resource && rt.parent == parent
  }

  predicate Covers(table: seq<ResourceType>, granted: string, resource: string, action: string) {
    granted == FULL_ACCESS ||
    var parts := SplitScope(granted);
    && parts.Some?
    && (parts.value.0 == resource || ParentOf(table, parts.value.0, resource))
    && (parts.value.1 == "*" || parts.value.1 == action)
  }

  method ScopeCovers(table: seq<ResourceType>, granted: string, resource: string, action: string) returns (covers: bool)
    ensures covers == Covers(table, granted, resource, action)
  {
    if granted == FULL_ACCESS {
      return true;
    }
    var parts := SplitScope(granted);
    if parts.None? {
      return false;
    }
    var (scopeResource, scopeAction) := parts.value;
    var resourceMatch := scopeResource == resource;
    if !resourceMatch {
      for i := 0 to |table|
        invariant !resourceMatch
        invariant forall j :: 0 <= j < i ==> !(table[j].name == resource && table[j].parent == scopeResource)
      {
        if table[i].name == resource && table[i].parent == scopeResource {
          resourceMatch := true;
          break;
        }
      }
    }
    if !resourceMatch {
      return false;
    }
    return scopeAction == "*" || scopeAction == action;
  }

  // ---- Exactly which scopes cover a request ----

  lemma SplitExactly(scope: string, resource: string, action: string)
    requires ':' !in resource && ':' !in action
    ensures SplitScope(scope) == Some((resource, action)) <==> scope == resource + ":" + action
  {
    if scope == resource + ":" + action {
      SplitFirst(resource, ':', action);
      FirstAtIs(action, ':', |action|);
      assert scope == resource + ([':'] + action);
    }
    if SplitScope(scope) == Some((resource, action)) {
      ScopeParts(scope, resource, action);
      assert scope == resource + ":" + action;
    }
  }

  // The action itself or the wildcard, on a resource.
  predicate Grants(granted: string, resource: string, action: string) {
    granted == resource + ":" + action || granted == resource + ":*"
  }

  // These scopes cover a request, by their texts: full access, and those that
  // grant the action on the resource or on a registered parent of it.
  lemma CoversExactly(table: seq<ResourceType>, granted: string, resource: string, action: string)
    requires ':' !in resource && ':' !in action && forall rt :: rt in table ==> ':' !in rt.parent
    ensures Covers(table, granted, resource, action) <==>
            || granted == "*:*"
            || Grants(granted, resource, action)
            || exists rt :: rt in table && rt.name == resource && Grants(granted, rt.parent, action)
  {
    assert ':' !in "*";
    SplitExactly(granted, resource, action);
    SplitExactly(granted, resource, "*");
    forall rt | rt in table && rt.name == resource
      ensures Grants(granted, rt.parent, action) <==>
              SplitScope(granted) == Some((rt.parent, action)) || SplitScope(granted) == Some((rt.parent, "*"))
    {
      SplitExactly(granted, rt.parent, action);
      SplitExactly(granted, rt.parent, "*");
    }
  }

  // So a scope that does not end in the wildcard covers one action of a resource at most.
  lemma OneActionCovered(table: seq<ResourceType>, granted: string, resource: string, one: string, other: string)
    requires ':' !in resource && ':' !in one && ':' !in other && forall rt :: rt in table ==> ':' !in rt.parent
    requires Covers(table, granted, resource, one) && Covers(table, granted, resource, other)
    requires |granted| < 2 || granted[|granted| - 2..] != ":*"
    ensures one == other
  {
    CoversExactly(table, granted, resource, one);
    CoversExactly(table, granted, resource, other);
    NoWildcard(granted, "*");
    NoWildcard(granted, resource);
    forall rt | rt in table ensures granted != rt.parent + ":*" {
      NoWildcard(granted, rt.parent);
    }
    var parent :| ':' !in parent && granted == parent + ":" + one;
    var parent' :| ':' !in parent' && granted == parent' + ":" + other;
    SplitExactly(granted, parent, one);
    SplitExactly(granted, parent', other);
  }

  lemma NoWildcard(granted: string, resource: string)
    requires |granted| < 2 || granted[|granted| - 2..] != ":*"
    ensures granted != resource + ":*"
  {
    var wild := resource + ":*";
    assert wild[|wild| - 2..] == ":*";
  }

  // ---- Validity and usefulness ----

  // Some registered resource and one of its actions are covered.
  ghost predicate CoversSomething(table: seq<ResourceType>, scope: string) {
    exists rt, action :: rt in table && action in rt.actions && Covers(table, scope, rt.name, action)
  }

  // What the proof needs of a table: names identify types and are not empty,
  // every type has actions, and types that one resource string can match have
  // the same actions.
  ghost predicate Consistent(table: seq<ResourceType>) {
    && table != []
    && (forall rt :: rt in table ==> rt.name != "" && rt.actions != [])
    && (forall a, b :: a in table && b in table && a.name == b.name ==> a == b)
    && (forall a, b, r :: a in table && b in table && Matches(a, r) && Matches(b, r) ==> a.actions == b.actions)
  }

  lemma {:induction false} FirstMatchExactly(table: seq<ResourceType>, resource: string, action: string)
    requires forall a, b :: a in table && b in table && Matches(a, resource) && Matches(b, resource) ==>
        a.actions == b.actions
    ensures FirstMatchHas(table, resource, action) <==>
            exists rt :: rt in table && Matches(rt, resource) && HasAction(rt, action)
  {
    if table != [] {
      FirstMatchExactly(table[1..], resource, action);
      assert forall rt :: rt in table <==> rt == table[0] || rt in table[1..];
    }
  }

  // A scope whose resource part is empty.
  predicate BlankResource(scope: string) {
    scope != "" && scope[0] == ':'
  }

  // Validity is usefulness, but for scopes with a blank resource: those are
  // never valid, while the empty string is the parent of every type without one.
  lemma ValidExactlyWhenUseful(table: seq<ResourceType>, scope: string)
    requires Consistent(table)
    ensures ScopeIsValid(table, scope) <==> CoversSomething(table, scope) && !BlankResource(scope)
  {
    var parts := SplitScope(scope);
    if scope == FULL_ACCESS {
      var rt := table[0];
      assert rt in table && rt.actions[0] in rt.actions && Covers(table, scope, rt.name, rt.actions[0]);
    } else if parts.Some? {
      var (resource, action) := parts.value;
      ScopeParts(scope, resource, action);
      FirstMatchExactly(table, resource, action);
      if resource != "" {
        UsefulNamedScope(table, scope, resource, action);
      } else {
        assert forall rt :: rt in table ==> !Matches(rt, resource);
      }
    }
  }

  lemma ScopeParts(scope: string, resource: string, action: string)
    requires SplitScope(scope) == Some((resource, action))
    ensures scope == resource + ([':'] + action) && ':' !in resource && ':' !in action
    ensures BlankResource(scope) <==> resource == ""
  {
    JoinedSplit(scope, ':');
    PartsHaveNoSeparator(scope, ':');
  }

  lemma UsefulNamedScope(table: seq<ResourceType>, scope: string, resource: string, action: string)
    requires Consistent(table) && scope != FULL_ACCESS && SplitScope(scope) == Some((resource, action))
        && resource != ""
    ensures CoversSomething(table, scope) <==>
            exists rt :: rt in table && Matches(rt, resource) && HasAction(rt, action)
  {
    if rt :| rt in table && Matches(rt, resource) && HasAction(rt, action) {
      var covered := if action == "*" then rt.actions[0] else action;
      assert covered in rt.actions && Covers(table, scope, rt.name, covered);
    }
    if rt, a :| rt in table && a in rt.actions && Covers(table, scope, rt.name, a) {
      assert Matches(rt, resource) && HasAction(rt, action);
    }
  }

  // For a scope with a blank resource: it covers something exactly when its
  // action is the wildcard or an action of some type without a parent.
  lemma BlankScopeCovers(table: seq<ResourceType>, action: string)
    requires Consistent(table) && ':' !in action
    ensures CoversSomething(table, ":" + action) <==>
            exists rt :: rt in table && rt.parent == "" && HasAction(rt, action)
    ensures !ScopeIsValid(table, ":" + action)
  {
    var scope := ":" + action;
    BlankParts(action);
    ValidExactlyWhenUseful(table, scope);
    if rt :| rt in table && rt.parent == "" && HasAction(rt, action) {
      var covered := if action == "*" then rt.actions[0] else action;
      assert ParentOf(table, "", rt.name);
      assert covered in rt.actions && Covers(table, scope, rt.name, covered);
    }
    if rt, a :| rt in table && a in rt.actions && Covers(table, scope, rt.name, a) {
      assert ParentOf(table, "", rt.name);
      assert HasAction(rt, action);
    }
  }

  lemma BlankParts(action: string)
    requires ':' !in action
    ensures SplitScope(":" + action) == Some(("", action)) && ":" + action != FULL_ACCESS
  {
    SplitFirst("", ':', action);
    assert "" + ([':'] + action) == ":" + action;
    FirstAtIs(action, ':', |action|);
  }

  // ---- The table of the repository ----

  // Length and first letter tell its names apart.
  function Fingerprint(i: nat): (nat, char)
    requires i < 18
  {
    match i
    case 0 => (6, 's') case 1 => (7, 's') case 2 => (20, 'r')
    case 3 => (16, 'g') case 4 => (7, 'v') case 5 => (8, 'c')
    case 6 => (16, 'i') case 7 => (4, 'o') case 8 => (15, 'a')
    case 9 => (13, 'o') case 10 => (5, 'u') case 11 => (12, 'i')
    case 12 => (6, 'a') case 13 => (7, 'd') case 14 => (8, 'p')
    case 15 => (7, 'i') case 16 => (15, 'p') case _ => (14, 'p')
  }

  predicate IsRow(rt: ResourceType, i: nat)
    requires i < 18
  {
    && rt.name != "" && (|rt.name|, rt.name[0]) == Fingerprint(i)
    && rt.parent == (if i == 8 then "addons" else "")
    && rt.actions == (if i == 0 || i == 8 || i == 12 then ALL_ACTIONS else CRUD)
  }

  lemma Row(i: nat)
    requires i < 18
    ensures |RESOURCE_TYPES| == 18 && IsRow(RESOURCE_TYPES[i], i)
  {}

  lemma TableIsConsistent()
    ensures Consistent(RESOURCE_TYPES)
  {
    Row(0);
    forall i: nat | i < 18 ensures IsRow(RESOURCE_TYPES[i], i) {
      Row(i);
    }
    RowsAreConsistent(RESOURCE_TYPES);
  }

  lemma RowsAreConsistent(table: seq<ResourceType>)
    requires |table| == 18 && forall i: nat :: i < 18 ==> IsRow(table[i], i)
    ensures Consistent(table)
  {
    forall a, b | a in table && b in table && a.name == b.name ensures a == b {
      var i :| 0 <= i < |table| && table[i] == a;
      var j :| 0 <= j < |table| && table[j] == b;
      SameFingerprint(a, i, b, j);
    }
    forall a, b, r | a in table && b in table && Matches(a, r) && Matches(b, r) ensures a.actions == b.actions {
      var i :| 0 <= i < |table| && table[i] == a;
      var j :| 0 <= j < |table| && table[j] == b;
      SameActions(a, i, b, j, r);
    }
  }

  lemma SameFingerprint(a: ResourceType, i: nat, b: ResourceType, j: nat)
    requires i < 18 && j < 18 && IsRow(a, i) && IsRow(b, j) && a.name == b.name
    ensures i == j
  {}

  lemma SameActions(a: ResourceType, i: nat, b: ResourceType, j: nat, r: string)
    requires i < 18 && j < 18 && IsRow(a, i) && IsRow(b, j) && Matches(a, r) && Matches(b, r)
    ensures a.actions == b.actions
  {}

  // Exactly the scopes whose validity is not their usefulness: a blank resource
  // with the wildcard or an action of the table, such as ":read".
  lemma ValidityFailsExactly(scope: string)
    ensures (ScopeIsValid(RESOURCE_TYPES, scope) <==> CoversSomething(RESOURCE_TYPES, scope)) <==>
            !(BlankResource(scope) && (scope[1..] == "*" || scope[1..] in ALL_ACTIONS))
  {
    TableIsConsistent();
    ValidExactlyWhenUseful(RESOURCE_TYPES, scope);
    if BlankResource(scope) {
      assert scope == ":" + scope[1..];
      BlankScopeUseful(scope[1..]);
    }
  }

  lemma BlankScopeUseful(action: string)
    ensures CoversSomething(RESOURCE_TYPES, ":" + action) <==> action == "*" || action in ALL_ACTIONS
  {
    TableIsConsistent();
    ActionsHaveNoColon();
    if ':' in action {
      ManyColons(":" + action, action);
    } else {
      BlankScopeCovers(RESOURCE_TYPES, action);
      RootActions(action);
    }
  }

  lemma ActionsHaveNoColon()
    ensures ':' !in "*" && forall a :: a in ALL_ACTIONS ==> ':' !in a
  {}

  // Some type without a parent has every action there is.
  lemma RootActions(action: string)
    ensures (exists rt :: rt in RESOURCE_TYPES && rt.parent == "" && HasAction(rt, action)) <==>
            action == "*" || action in ALL_ACTIONS
  {
    Row(0);
    forall i: nat | i < 18 ensures IsRow(RESOURCE_TYPES[i], i) {
      Row(i);
    }
    RootActionsOfRows(RESOURCE_TYPES, action);
  }

  lemma RootActionsOfRows(table: seq<ResourceType>, action: string)
    requires |table| == 18 && forall i: nat :: i < 18 ==> IsRow(table[i], i)
    ensures (exists rt :: rt in table && rt.parent == "" && HasAction(rt, action)) <==>
            action == "*" || action in ALL_ACTIONS
  {
    assert IsRow(table[0], 0) && table[0] in table;
    if rt :| rt in table && rt.parent == "" && HasAction(rt, action) {
      var i :| 0 <= i < |table| && table[i] == rt;
      RowActions(rt, i, action);
    }
  }

  lemma RowActions(rt: ResourceType, i: nat, action: string)
    requires i < 18 && IsRow(rt, i) && HasAction(rt, action)
    ensures action == "*" || action in ALL_ACTIONS
  {
    if action in CRUD {
      CRUDIsPart(action);
    }
  }

  lemma CRUDIsPart(action: string)
    requires action in CRUD
    ensures action in ALL_ACTIONS
  {
    var i :| 0 <= i < |CRUD| && CRUD[i] == action;
    assert ALL_ACTIONS[i] == action;
  }

  lemma ManyColons(scope: string, action: string)
    requires scope == ":" + action && ':' in action
    ensures SplitScope(scope).None? && scope != FULL_ACCESS
  {
    SplitFirst("", ':', action);
    assert "" + ([':'] + action) == scope;
    var e := FirstAt(action, ':');
    assert e < |action| by {
      var k :| 0 <= k < |action| && action[k] == ':';
    }
  }
}
