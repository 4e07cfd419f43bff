/** Member administration of one workspace, app/api/routes/admin_members.py with the access check of
    app/core/workspace_access.py: serial runs keep an owner and the acting member's own access. */
module AdminMembers {
  import opened Permissions
  import opened Wrappers

  type UserId = nat

  datatype User = User(active: bool, anonymous: bool)

  /** A membership; there is at most one per user. */
  datatype Member = Member(role: Role, active: bool, overrides: seq<Override>)

  datatype Workspace = Workspace(members: map<UserId, Member>, users: map<UserId, User>)

  /** Who acts; `guest` says that the token's claims mark a guest. */
  datatype Actor = Actor(user: UserId, guest: bool)

  // ---- Access ----

  predicate IsGuest(ws: Workspace, actor: Actor)
    requires actor.user in ws.users
  {
    actor.guest || ws.users[actor.user].anonymous
  }

  /** require_workspace_permission(..., "members.manage"). */
  predicate Authorized(ws: Workspace, actor: Actor) {
    && actor.user in ws.members && actor.user in ws.users && ws.members[actor.user].active
    && InEffect(ws.members[actor.user].role, ws.members[actor.user].overrides, IsGuest(ws, actor), MembersManage)
  }

  function Owners(members: map<UserId, Member>): set<UserId> {
    set u | u in members && members[u].role.Owner? && members[u].active
  }

  predicate NoneForbidden(role: Role, permissions: seq<Permission>) {
    forall i :: 0 <= i < |permissions| ==> !Forbidden(role, permissions[i])
  }

  /** What the request models validate. */
  predicate ValidPermissions(permissions: seq<Permission>) {
    Distinct(permissions) && forall i :: 0 <= i < |permissions| ==> !permissions[i].Unlisted?
  }

  // ---- The operations ----

  datatype Operation =
    | Create(target: UserId, role: Role, permissions: seq<Permission>)
    | Update(target: UserId, role: Role, permissions: seq<Permission>)
    | SetStatus(target: UserId, active: bool)

  predicate Valid(op: Operation) {
    op.SetStatus? || (ValidPermissions(op.permissions) && !op.role.OtherRole?)
  }

  predicate CanCreate(ws: Workspace, actor: Actor, target: UserId, role: Role, permissions: seq<Permission>) {
    && Authorized(ws, actor)
    && (role.Owner? ==> ws.members[actor.user].role.Owner?)
    && NoneForbidden(role, permissions)
    && target in ws.users && ws.users[target].active && !ws.users[target].anonymous
    && target !in ws.members
  }

  predicate CanUpdate(ws: Workspace, actor: Actor, target: UserId, role: Role, permissions: seq<Permission>) {
    && Authorized(ws, actor) && target in ws.members
    && var actorRole, targetRole := ws.members[actor.user].role, ws.members[target].role;
       && (targetRole.Owner? ==> actorRole.Owner?)
       && (role.Owner? ==> actorRole.Owner?)
       && NoneForbidden(role, permissions)
       && (target == actor.user ==> MembersManage in permissions && (role.Owner? || role.Admin?))
       && (targetRole.Owner? && !role.Owner? ==> |Owners(ws.members)| > 1)
  }

  predicate CanSetStatus(ws: Workspace, actor: Actor, target: UserId, active: bool) {
    && Authorized(ws, actor) && target in ws.members
    && (ws.members[target].active != active ==>
          && (target == actor.user ==> active)
          && (ws.members[target].role.Owner? ==> ws.members[actor.user].role.Owner?)
          && (ws.members[target].active && ws.members[target].role.Owner? ==> |Owners(ws.members)| > 1))
  }

  predicate Can(ws: Workspace, actor: Actor, op: Operation) {
    match op
    case Create(target, role, permissions) => CanCreate(ws, actor, target, role, permissions)
    case Update(target, role, permissions) => CanUpdate(ws, actor, target, role, permissions)
    case SetStatus(target, active) => CanSetStatus(ws, actor, target, active)
  }

  /** A new membership has the requested permissions, or the role's own if none are given. */
  ghost predicate StoredFor(role: Role, permissions: seq<Permission>, member: Member, orDefaults: bool) {
    && member.role == role
    && if permissions == [] && orDefaults then member.overrides == [] else AreOverrides(role, permissions, member.overrides)
  }

  /** The effect of an operation; one that raises changes nothing. */
  ghost predicate Step(ws: Workspace, actor: Actor, op: Operation, ws': Workspace) {
    && ws'.users == ws.users
    && if !Can(ws, actor, op) then ws'.members == ws.members
       else
         && op.target in ws'.members
         && ws'.members == ws.members[op.target := ws'.members[op.target]]
         && match op
            case Create(target, role, permissions) =>
              ws'.members[target].active && StoredFor(role, permissions, ws'.members[target], true)
            case Update(target, role, permissions) =>
              ws'.members[target].active == ws.members[target].active
              && StoredFor(role, permissions, ws'.members[target], false)
            case SetStatus(target, active) =>
              ws'.members[target] == ws.members[target].(active := active)
  }

  // ---- The routes ----

  datatype AccessError = NotAuthorized | OwnerOnly | ForbiddenPermission | UserNotFound | UserSuspended | AnonymousUser
    | AlreadyMember | MemberNotFound | OwnAccess | LastOwner

  /** Each error is raised for its own reason. */
  predicate ErrorFits(error: AccessError, ws: Workspace, actor: Actor, op: Operation) {
    match error
    case NotAuthorized => !Authorized(ws, actor)
    case MemberNotFound => !op.Create? && op.target !in ws.members
    case OwnerOnly =>
      && actor.user in ws.members && ws.members[actor.user].role != Owner
      && ((!op.SetStatus? && op.role == Owner)
          || (!op.Create? && op.target in ws.members && ws.members[op.target].role == Owner))
    case ForbiddenPermission => !op.SetStatus? && !NoneForbidden(op.role, op.permissions)
    case OwnAccess =>
      && !op.Create? && op.target == actor.user
      && (op.Update? ==> MembersManage !in op.permissions || op.role !in {Owner, Admin})
      && (op.SetStatus? ==> !op.active)
    case LastOwner =>
      && !op.Create? && op.target in ws.members && ws.members[op.target].role == Owner
      && (op.Update? ==> op.role != Owner) && (op.SetStatus? ==> !op.active)
      && |Owners(ws.members)| <= 1
    case UserNotFound => op.Create? && op.target !in ws.users
    case UserSuspended => op.Create? && op.target in ws.users && !ws.users[op.target].active
    case AnonymousUser => op.Create? && op.target in ws.users && ws.users[op.target].anonymous
    case AlreadyMember => op.Create? && op.target in ws.members
  }

  class MemberAdministration {
    var members: map<UserId, Member>
    var users: map<UserId, User>

    function Contents(): Workspace
      reads this
    {
      Workspace(members, users)
    }

    constructor (ws: Workspace)
      ensures Contents() == ws
    {
      members, users := ws.members, ws.users;
    }

    method HasForbidden(role: Role, permissions: seq<Permission>) returns (found: bool)
      ensures found <==> !NoneForbidden(role, permissions)
    {
      found := exists i :: 0 <= i < |permissions| && Forbidden(role, permissions[i]);
    }

    /** The access check, made before every operation. */
    method Authorize(actor: Actor) returns (ok: bool)
      ensures ok <==> Authorized(Contents(), actor)
    {
      if actor.user !in members || actor.user !in users || !members[actor.user].active { return false; }
      var member := members[actor.user];
      var effective := GetEffectivePermissions(member.role, member.overrides, actor.guest || users[actor.user].anonymous);
      return MembersManage in effective;
    }

    /** _create_member_access; an empty or absent permission list means the role's own permissions. */
    method CreateMemberAccess(actor: Actor, target: UserId, role: Role, permissions: seq<Permission>)
      returns (r: Result<(), AccessError>)
      requires ValidPermissions(permissions)
      modifies this`members
      ensures r.Ok? <==> CanCreate(old(Contents()), actor, target, role, permissions)
      ensures Step(old(Contents()), actor, Create(target, role, permissions), Contents())
      ensures r.Err? ==> ErrorFits(r.error, old(Contents()), actor, Create(target, role, permissions))
    {
      hide InEffect, AreOverrides;
      var ok := Authorize(actor);
      if !ok { return Err(NotAuthorized); }
      if role.Owner? && !members[actor.user].role.Owner? { return Err(OwnerOnly); }
      var forbidden := HasForbidden(role, permissions);
      if forbidden { return Err(ForbiddenPermission); }
      if target !in users { return Err(UserNotFound); }
      if !users[target].active { return Err(UserSuspended); }
      if users[target].anonymous { return Err(AnonymousUser); }
      if target in members { return Err(AlreadyMember); }
      var overrides: seq<Override> := [];
      if permissions != [] { overrides := PermissionOverrides(role, permissions); }
      members := members[target := Member(role, true, overrides)];
      return Ok(());
    }

    /** _update_member_access. */
    method UpdateMemberAccess(actor: Actor, target: UserId, role: Role, permissions: seq<Permission>)
      returns (r: Result<(), AccessError>)
      requires ValidPermissions(permissions)
      modifies this`members
      ensures r.Ok? <==> CanUpdate(old(Contents()), actor, target, role, permissions)
      ensures Step(old(Contents()), actor, Update(target, role, permissions), Contents())
      ensures r.Err? ==> ErrorFits(r.error, old(Contents()), actor, Update(target, role, permissions))
    {
      hide InEffect, AreOverrides;
      var ok := Authorize(actor);
      if !ok { return Err(NotAuthorized); }
      if target !in members { return Err(MemberNotFound); }
      var actorRole, targetRole := members[actor.user].role, members[target].role;
      if targetRole.Owner? && !actorRole.Owner? { return Err(OwnerOnly); }
      if role.Owner? && !actorRole.Owner? { return Err(OwnerOnly); }
      var forbidden := HasForbidden(role, permissions);
      if forbidden { return Err(ForbiddenPermission); }
      if target == actor.user && (MembersManage !in permissions || !(role.Owner? || role.Admin?)) {
        return Err(OwnAccess);
      }
      if targetRole.Owner? && !role.Owner? {
        var count := |Owners(members)|;
        if count <= 1 { return Err(LastOwner); }
      }
      var overrides := PermissionOverrides(role, permissions);
      members := members[target := Member(role, members[target].active, overrides)];
      return Ok(());
    }

    /** _update_member_status. */
    method UpdateMemberStatus(actor: Actor, target: UserId, active: bool) returns (r: Result<(), AccessError>)
      modifies this`members
      ensures r.Ok? <==> CanSetStatus(old(Contents()), actor, target, active)
      ensures Step(old(Contents()), actor, SetStatus(target, active), Contents())
      ensures r.Err? ==> ErrorFits(r.error, old(Contents()), actor, SetStatus(target, active))
    {
      hide InEffect, AreOverrides;
      var ok := Authorize(actor);
      if !ok { return Err(NotAuthorized); }
      if target !in members { return Err(MemberNotFound); }
      var member := members[target];
      if member.active != active {
        if target == actor.user && !active { return Err(OwnAccess); }
        if member.role.Owner? && !members[actor.user].role.Owner? { return Err(OwnerOnly); }
        if member.active && !active && member.role.Owner? {
          var count := |Owners(members)|;
          if count <= 1 { return Err(LastOwner); }
        }
      }
      members := members[target := member.(active := active)];
      return Ok(());
    }
  }

  // ---- An owner remains ----

  lemma SizeWithout(s: set<UserId>, u: UserId)
    ensures |s - {u}| >= |s| - 1 && (u !in s ==> s - {u} == s) && |s + {u}| >= |s|
  {
    if u in s {
      assert s == (s - {u}) + {u};
      assert s + {u} == s;
    } else {
      assert |s + {u}| == |s| + 1;
    }
  }

  lemma OwnersCount(ws: Workspace)
    ensures |Owners(ws.members)| >= 1 <==>
      exists u :: u in ws.members && ws.members[u].role == Owner && ws.members[u].active
  {
    if |Owners(ws.members)| >= 1 {
      var u := Element(Owners(ws.members));
    }
    forall u | u in ws.members && ws.members[u].role == Owner && ws.members[u].active ensures u in Owners(ws.members) {}
  }

  lemma StepKeepsOwner(ws: Workspace, actor: Actor, op: Operation, ws': Workspace)
    requires Step(ws, actor, op, ws')
    requires exists u :: u in ws.members && ws.members[u].role == Owner && ws.members[u].active
    ensures exists u :: u in ws'.members && ws'.members[u].role == Owner && ws'.members[u].active
  {
    hide InEffect, AreOverrides;
    OwnersCount(ws);
    OwnersCount(ws');
    if Can(ws, actor, op) {
      SizeWithout(Owners(ws.members), op.target);
    }
  }

  // ---- The acting member keeps its access ----

  /** For a guest the overrides are computed against the role's permissions but read back against the guest
      ones: updating itself, a guest loses the access it asked to keep. */
  lemma GuestLosesAccess(ws: Workspace, actor: Actor, role: Role, permissions: seq<Permission>, ws': Workspace)
    requires Step(ws, actor, Update(actor.user, role, permissions), ws')
    requires Can(ws, actor, Update(actor.user, role, permissions))
    requires IsGuest(ws, actor)
    ensures !Authorized(ws', actor)
  {
    var overrides := ws'.members[actor.user].overrides;
    LastEffectOf(overrides, MembersManage);
    assert Override(Grant, MembersManage) in overrides <==> Needed(role, permissions, Override(Grant, MembersManage));
  }

  /** An actor that may act still may after its operation, except exactly when it is a guest that updated
      its own role and permissions. */
  lemma ActorKeepsAccess(ws: Workspace, actor: Actor, op: Operation, ws': Workspace)
    requires Step(ws, actor, op, ws') && Valid(op) && Authorized(ws, actor)
    ensures Authorized(ws', actor) <==>
      !(IsGuest(ws, actor) && Can(ws, actor, op) && op.Update? && op.target == actor.user)
  {
    if Can(ws, actor, op) && op.Update? && op.target == actor.user {
      if IsGuest(ws, actor) {
        GuestLosesAccess(ws, actor, op.role, op.permissions, ws');
      } else {
        OverridesRoundTrip(op.role, op.permissions, ws'.members[op.target].overrides, MembersManage);
      }
    }
  }

  /** Such a guest: a viewer that was granted members.manage makes itself an admin and asks to keep it. */
  lemma GuestUpdatesItself(user: UserId) returns (ws: Workspace, actor: Actor, op: Operation)
    ensures Valid(op) && Authorized(ws, actor) && IsGuest(ws, actor) && Can(ws, actor, op)
    ensures op == Update(user, Admin, [MembersManage]) && actor.user == user
    ensures forall ws' | Step(ws, actor, op, ws') :: !Authorized(ws', actor)
  {
    var granted := [Override(Grant, MembersManage)];
    assert granted[..0] == [];
    ws := Workspace(map[user := Member(Viewer, true, granted)], map[user := User(true, false)]);
    actor, op := Actor(user, true), Update(user, Admin, [MembersManage]);
    assert LastEffect(granted, MembersManage) == Some(Grant);
    forall ws' | Step(ws, actor, op, ws') ensures !Authorized(ws', actor) {
      ActorKeepsAccess(ws, actor, op, ws');
    }
  }

  // ---- Runs ----

  /** A serial run: states[i + 1] is the effect of the i-th operation. */
  ghost predicate Run(states: seq<Workspace>, actors: seq<Actor>, ops: seq<Operation>) {
    && |actors| == |ops| && |states| == |ops| + 1
    && forall i :: 0 <= i < |ops| ==> Valid(ops[i]) && Step(states[i], actors[i], ops[i], states[i + 1])
  }

  /** At least one active owner remains throughout. */
  lemma {:induction false} OwnerRemains(states: seq<Workspace>, actors: seq<Actor>, ops: seq<Operation>, n: nat)
    requires Run(states, actors, ops) && n < |states|
    requires exists u :: u in states[0].members && states[0].members[u].role == Owner && states[0].members[u].active
    ensures exists u :: u in states[n].members && states[n].members[u].role == Owner && states[n].members[u].active
  {
    if n > 0 {
      OwnerRemains(states, actors, ops, n - 1);
      assert Step(states[n - 1], actors[n - 1], ops[n - 1], states[n]);
      StepKeepsOwner(states[n - 1], actors[n - 1], ops[n - 1], states[n]);
    }
  }

  /** After each operation of a run the member that acted is still active with members.manage, unless it
      is a guest that updated itself. */
  lemma ActingMembersStay(states: seq<Workspace>, actors: seq<Actor>, ops: seq<Operation>, n: nat)
    requires Run(states, actors, ops) && n < |ops| && Authorized(states[n], actors[n])
    ensures Authorized(states[n + 1], actors[n]) <==>
      !(IsGuest(states[n], actors[n]) && Can(states[n], actors[n], ops[n])
        && ops[n].Update? && ops[n].target == actors[n].user)
  {
    assert Step(states[n], actors[n], ops[n], states[n + 1]);
    ActorKeepsAccess(states[n], actors[n], ops[n], states[n + 1]);
  }
}
