/** Role defaults, overrides and effective permissions: app/core/permissions.py and _permission_overrides
    of app/api/routes/admin_members.py. */
module Permissions {
  import opened Wrappers

  datatype Permission =
    | MembersRead | MembersManage | KnowledgeRead | KnowledgeManage | ChatRead | ChatWrite | ChatDelete
    | DocumentRead | DocumentWrite | AuditRead
    | ProductsSearch | ContentSearch | KnowledgeBasesList | KnowledgeFilesList | KnowledgeBaseRead
    | KnowledgeFileRead | KnowledgeFileExtract | KnowledgeBaseSearch
    | Unlisted(code: string)   // any code outside the catalog

  datatype Role = Owner | Admin | Editor | Employee | Viewer | OtherRole

  datatype Effect = Grant | Deny | OtherEffect

  datatype Override = Override(effect: Effect, permission: Permission)

  const AGENT_TOOLS: seq<Permission> :=
    [ProductsSearch, ContentSearch, KnowledgeBasesList, KnowledgeFilesList, KnowledgeBaseRead, KnowledgeFileRead,
     KnowledgeFileExtract, KnowledgeBaseSearch]

  const CATALOG: seq<Permission> :=
    [MembersRead, MembersManage, KnowledgeRead, KnowledgeManage, ChatRead, ChatWrite, ChatDelete, DocumentRead,
     DocumentWrite, AuditRead] + AGENT_TOOLS

  predicate AgentTool(p: Permission) {
    p.ProductsSearch? || p.ContentSearch? || p.KnowledgeBasesList? || p.KnowledgeFilesList? || p.KnowledgeBaseRead?
    || p.KnowledgeFileRead? || p.KnowledgeFileExtract? || p.KnowledgeBaseSearch?
  }

  /** DEFAULT_PERMISSIONS_BY_ROLE. */
  predicate RoleDefault(role: Role, p: Permission) {
    match role
    case Owner => !p.Unlisted?
    case Admin => !p.Unlisted?
    case Editor =>
      p.KnowledgeRead? || p.KnowledgeManage? || p.ChatRead? || p.ChatWrite? || p.ChatDelete? || p.DocumentRead?
      || p.DocumentWrite? || AgentTool(p)
    case Employee =>
      p.KnowledgeRead? || p.ChatRead? || p.ChatWrite? || p.ChatDelete? || p.DocumentRead? || p.DocumentWrite?
      || (AgentTool(p) && !p.KnowledgeFileExtract?)
    case Viewer =>
      p.KnowledgeRead? || p.ChatRead? || p.ChatWrite? || p.DocumentRead? || (AgentTool(p) && !p.KnowledgeFileExtract?)
    case OtherRole => false
  }

  predicate Default(role: Role, guest: bool, p: Permission) {
    if guest then p.ChatRead? || p.ChatWrite? else RoleDefault(role, p)
  }

  /** Owners and admins may do everything in the catalog, editors all but managing members and reading the audit
      log, employees also not managing knowledge and extracting files, viewers also not deleting chats and writing
      documents; other roles nothing. A guest may only read and write chats, whatever its role. */
  lemma RolesAreOrdered(p: Permission)
    ensures RoleDefault(Owner, p) <==> p in CATALOG
    ensures RoleDefault(Admin, p) <==> p in CATALOG
    ensures RoleDefault(Editor, p) <==> RoleDefault(Owner, p) && p !in {MembersRead, MembersManage, AuditRead}
    ensures RoleDefault(Employee, p) <==> RoleDefault(Editor, p) && p !in {KnowledgeManage, KnowledgeFileExtract}
    ensures RoleDefault(Viewer, p) <==> RoleDefault(Employee, p) && p !in {ChatDelete, DocumentWrite}
    ensures !RoleDefault(OtherRole, p)
    ensures forall role: Role :: Default(role, true, p) <==> p in {ChatRead, ChatWrite}
  {
  }

  /** get_forbidden_permissions. */
  predicate Forbidden(role: Role, p: Permission) {
    role.Employee? && p.KnowledgeManage?
  }

  // ---- Effective permissions ----

  /** The effect of the last grant or deny of p. */
  function LastEffect(overrides: seq<Override>, p: Permission): Option<Effect> {
    if overrides == [] then None
    else
      var last := overrides[|overrides| - 1];
      if last.permission == p && !last.effect.OtherEffect? then Some(last.effect)
      else LastEffect(overrides[..|overrides| - 1], p)
  }

  /** A permission is in effect if the last override of it grants it, or if it is a default and no override
      concerns it; unknown and forbidden permissions never are. */
  predicate InEffect(role: Role, overrides: seq<Override>, guest: bool, p: Permission) {
    && !p.Unlisted? && !Forbidden(role, p)
    && match LastEffect(overrides, p)
       case Some(effect) => effect.Grant?
       case None => Default(role, guest, p)
  }

  /** A listed permission whose last override grants it is in effect for every role, except that an employee never
      may manage knowledge. */
  lemma OnlyManagingKnowledgeIsForbidden(role: Role, overrides: seq<Override>, guest: bool, p: Permission)
    ensures p in CATALOG && LastEffect(overrides, p) == Some(Grant) ==>
      (InEffect(role, overrides, guest, p) <==> !(role == Employee && p == KnowledgeManage))
    ensures !InEffect(Employee, overrides, guest, KnowledgeManage)
    ensures InEffect(role, [], guest, p) <==> p in CATALOG && Default(role, guest, p)
  {
  }

  /** The members of a set in catalog order. */
  function Listed(catalog: seq<Permission>, permissions: set<Permission>): seq<Permission> {
    if catalog == [] then []
    else
      var last := catalog[|catalog| - 1];
      Listed(catalog[..|catalog| - 1], permissions) + if last in permissions then [last] else []
  }

  lemma {:induction false} ListedIs(catalog: seq<Permission>, permissions: set<Permission>, p: Permission)
    ensures p in Listed(catalog, permissions) <==> p in catalog && p in permissions
  {
    if catalog != [] {
      ListedIs(catalog[..|catalog| - 1], permissions, p);
      assert catalog == catalog[..|catalog| - 1] + [catalog[|catalog| - 1]];
    }
  }

  function DefaultSet(role: Role, guest: bool): set<Permission> {
    set p | p in CATALOG && Default(role, guest, p)
  }

  /** What the loop has made of the set. */
  ghost predicate Applied(role: Role, guest: bool, overrides: seq<Override>, permissions: set<Permission>) {
    forall p: Permission :: p in permissions <==>
      !p.Unlisted? &&
      match LastEffect(overrides, p)
      case Some(effect) => effect.Grant?
      case None => Default(role, guest, p)
  }

  lemma LastEffectNext(overrides: seq<Override>, o: Override, p: Permission)
    ensures LastEffect(overrides + [o], p) ==
      if o.permission == p && !o.effect.OtherEffect? then Some(o.effect) else LastEffect(overrides, p)
  {
    assert (overrides + [o])[..|overrides|] == overrides;
  }

  lemma AppliedNext(role: Role, guest: bool, overrides: seq<Override>, o: Override, permissions: set<Permission>)
    requires Applied(role, guest, overrides, permissions)
    ensures Applied(role, guest, overrides + [o],
      if o.permission.Unlisted? || o.effect.OtherEffect? then permissions
      else if o.effect.Grant? then permissions + {o.permission}
      else permissions - {o.permission})
  {
    hide LastEffect, Default;
    var next := if o.permission.Unlisted? || o.effect.OtherEffect? then permissions
                else if o.effect.Grant? then permissions + {o.permission} else permissions - {o.permission};
    forall p: Permission ensures p in next <==>
      !p.Unlisted? &&
      match LastEffect(overrides + [o], p)
      case Some(effect) => effect.Grant?
      case None => Default(role, guest, p)
    {
      LastEffectNext(overrides, o, p);
    }
  }

  lemma AppliedAtFirst(role: Role, guest: bool)
    ensures Applied(role, guest, [], DefaultSet(role, guest))
  {
    forall p: Permission ensures p in CATALOG <==> !p.Unlisted? {}
  }

  /** get_effective_permissions: exactly the permissions in effect. */
  method GetEffectivePermissions(role: Role, overrides: seq<Override>, guest: bool) returns (effective: seq<Permission>)
    ensures forall p: Permission :: p in effective <==> InEffect(role, overrides, guest, p)
    ensures effective == Listed(CATALOG, set p | p in CATALOG && InEffect(role, overrides, guest, p))
  {
    hide LastEffect, Default;
    var permissions := DefaultSet(role, guest);
    AppliedAtFirst(role, guest);
    assert overrides[..0] == [];
    for i := 0 to |overrides|
      invariant Applied(role, guest, overrides[..i], permissions)
    {
      AppliedNext(role, guest, overrides[..i], overrides[i], permissions);
      assert overrides[..i + 1] == overrides[..i] + [overrides[i]];
      var o := overrides[i];
      if o.permission in CATALOG {
        match o.effect
        case Grant => permissions := permissions + {o.permission};
        case Deny => permissions := permissions - {o.permission};
        case OtherEffect =>
      }
    }
    assert overrides[..|overrides|] == overrides;
    permissions := set p | p in permissions && !Forbidden(role, p);
    EffectiveSet(role, overrides, guest, permissions);
    effective := Listed(CATALOG, permissions);
  }

  lemma EffectiveSet(role: Role, overrides: seq<Override>, guest: bool, permissions: set<Permission>)
    requires forall p: Permission :: p in permissions <==> InEffect(role, overrides, guest, p)
    ensures forall p: Permission :: p in Listed(CATALOG, permissions) <==> InEffect(role, overrides, guest, p)
    ensures permissions == set p | p in CATALOG && InEffect(role, overrides, guest, p)
  {
    hide InEffect;
    forall p: Permission
      ensures p in Listed(CATALOG, permissions) <==> InEffect(role, overrides, guest, p)
      ensures InEffect(role, overrides, guest, p) ==> p in CATALOG
    {
      ListedIs(CATALOG, permissions, p);
      EffectiveIsListed(role, overrides, guest, p);
    }
  }

  lemma EffectiveIsListed(role: Role, overrides: seq<Override>, guest: bool, p: Permission)
    ensures InEffect(role, overrides, guest, p) ==> !p.Unlisted?
  {
  }

  // ---- Overrides ----

  /** A role's own permissions. */
  predicate Base(role: Role, p: Permission) {
    InEffect(role, [], false, p)
  }

  predicate DistinctPermissions(overrides: seq<Override>) {
    forall i, j :: 0 <= i < j < |overrides| ==> overrides[i].permission != overrides[j].permission
  }

  /** The override that turns the role's own permissions into the requested ones at p, if one is needed. */
  predicate Needed(role: Role, requested: seq<Permission>, o: Override) {
    match o.effect
    case Grant => o.permission in requested && !Base(role, o.permission)
    case Deny => o.permission !in requested && Base(role, o.permission)
    case OtherEffect => false
  }

  /** Exactly the needed overrides, each once. */
  ghost predicate AreOverrides(role: Role, requested: seq<Permission>, overrides: seq<Override>) {
    && DistinctPermissions(overrides)
    && forall o: Override :: o in overrides <==> Needed(role, requested, o)
  }

  predicate Distinct(permissions: seq<Permission>) {
    forall i, j :: 0 <= i < j < |permissions| ==> permissions[i] != permissions[j]
  }

  /** What has been collected: the grants of some requested permissions and the denials of some defaults. */
  ghost predicate Collected(overrides: seq<Override>, grants: set<Permission>, denials: set<Permission>) {
    && DistinctPermissions(overrides)
    && forall o: Override :: o in overrides <==>
         (o.effect.Grant? && o.permission in grants) || (o.effect.Deny? && o.permission in denials)
  }

  /** The grants: requested permissions beyond the defaults. */
  method Grants(requested: seq<Permission>, defaults: set<Permission>)
    returns (overrides: seq<Override>, ghost grants: set<Permission>)
    requires Distinct(requested)
    ensures Collected(overrides, grants, {})
    ensures forall p: Permission :: p in grants <==> p in requested && p !in defaults
  {
    overrides, grants := [], {};
    for i := 0 to |requested|
      invariant Collected(overrides, grants, {})
      invariant forall p: Permission :: p in grants <==> p in requested[..i] && p !in defaults
    {
      var p := requested[i];
      assert p !in requested[..i];
      assert requested[..i + 1] == requested[..i] + [p];
      if p !in defaults {
        overrides := overrides + [Override(Grant, p)];
        grants := grants + {p};
      }
    }
    assert requested[..|requested|] == requested;
  }

  /** The denials: defaults that are not requested, in any order. */
  method Denials(overrides0: seq<Override>, requested: seq<Permission>, defaults: set<Permission>,
                 ghost grants: set<Permission>)
    returns (overrides: seq<Override>, ghost denials: set<Permission>)
    requires Collected(overrides0, grants, {}) && grants !! defaults
    ensures Collected(overrides, grants, denials)
    ensures forall p: Permission :: p in denials <==> p in defaults && p !in requested
  {
    overrides, denials := overrides0, {};
    var rest := defaults;
    while rest != {}
      invariant rest <= defaults
      invariant Collected(overrides, grants, denials)
      invariant forall p: Permission :: p in denials <==> p in defaults - rest && p !in requested
      decreases |rest|
    {
      var p :| p in rest;
      if p !in requested {
        overrides := overrides + [Override(Deny, p)];
        denials := denials + {p};
      }
      rest := rest - {p};
    }
  }

  /** _permission_overrides. */
  method PermissionOverrides(role: Role, requested: seq<Permission>) returns (overrides: seq<Override>)
    requires Distinct(requested)
    ensures AreOverrides(role, requested, overrides)
  {
    hide InEffect, Collected;
    var base := GetEffectivePermissions(role, [], false);
    var defaults := set p | p in base;
    ghost var grants, denials;
    overrides, grants := Grants(requested, defaults);
    overrides, denials := Denials(overrides, requested, defaults, grants);
  }

  // ---- The round trip ----

  lemma {:induction false} LastEffectOf(overrides: seq<Override>, p: Permission)
    requires DistinctPermissions(overrides)
    ensures match LastEffect(overrides, p)
            case Some(effect) => !effect.OtherEffect? && Override(effect, p) in overrides
            case None => Override(Grant, p) !in overrides && Override(Deny, p) !in overrides
  {
    if overrides != [] {
      var init, last := overrides[..|overrides| - 1], overrides[|overrides| - 1];
      LastEffectOf(init, p);
      forall o: Override ensures o in overrides <==> o in init || o == last {
        assert overrides == init + [last];
      }
    }
  }

  /** Storing overrides and recomputing gives back exactly the requested permissions that the role may have,
      for members that are no guests. */
  lemma OverridesRoundTrip(role: Role, requested: seq<Permission>, overrides: seq<Override>, p: Permission)
    requires AreOverrides(role, requested, overrides) && forall q <- requested :: !q.Unlisted?
    ensures InEffect(role, overrides, false, p) <==> p in requested && !Forbidden(role, p)
  {
    LastEffectOf(overrides, p);
    assert Override(Grant, p) in overrides <==> Needed(role, requested, Override(Grant, p));
    assert Override(Deny, p) in overrides <==> Needed(role, requested, Override(Deny, p));
  }

  /** For a guest, the overrides still stand against the role's own permissions but are read on top of the
      guest ones. At a permission this gives back the request exactly if the permission is forbidden, has
      an override, or is requested just if guests have it. */
  lemma GuestRoundTripIff(role: Role, requested: seq<Permission>, overrides: seq<Override>, p: Permission)
    requires AreOverrides(role, requested, overrides) && forall q <- requested :: !q.Unlisted?
    requires !p.Unlisted?
    ensures (InEffect(role, overrides, true, p) <==> p in requested && !Forbidden(role, p)) <==>
      || Forbidden(role, p)
      || (p in requested) != Base(role, p)
      || (p in requested) == Default(role, true, p)
  {
    LastEffectOf(overrides, p);
    assert Override(Grant, p) in overrides <==> Needed(role, requested, Override(Grant, p));
    assert Override(Deny, p) in overrides <==> Needed(role, requested, Override(Deny, p));
  }

  /** The order in which the overrides are read back does not matter. */
  lemma AnyOrder(role: Role, requested: seq<Permission>, overrides: seq<Override>, shuffled: seq<Override>)
    requires AreOverrides(role, requested, overrides) && multiset(shuffled) == multiset(overrides)
    ensures AreOverrides(role, requested, shuffled)
  {
    hide Needed;
    forall o: Override ensures o in shuffled <==> o in overrides {
      assert o in shuffled <==> o in multiset(shuffled);
      assert o in overrides <==> o in multiset(overrides);
    }
    forall i, j | 0 <= i < j < |shuffled| ensures shuffled[i].permission != shuffled[j].permission {
      assert shuffled[i] in overrides && shuffled[j] in overrides;
      OccursOnce(overrides, shuffled[i]);
      OccursTwice(shuffled, i, j);
    }
  }

  lemma OccursOnce(overrides: seq<Override>, o: Override)
    requires DistinctPermissions(overrides) && o in overrides
    ensures multiset(overrides)[o] == 1
  {
    var x :| 0 <= x < |overrides| && overrides[x] == o;
    assert overrides == overrides[..x] + [o] + overrides[x + 1..];
    assert o !in overrides[..x];
    assert o !in overrides[x + 1..];
  }

  lemma OccursTwice(s: seq<Override>, i: nat, j: nat)
    requires i < j < |s|
    ensures s[i] == s[j] ==> multiset(s)[s[i]] >= 2
  {
    assert s == s[..j] + [s[j]] + s[j + 1..];
    assert s[..j][i] == s[i];
    assert s[i] in multiset(s[..j]);
  }
}
