/** Organizations, memberships, invitations and role catalogs: the SQL statements and the role rules. */
module OrgTables {
  import opened Prelude

  type Id = nat

  datatype Status = Active | Removed

  datatype Organization = Organization(slug: string, creator: Id)

  datatype Membership = Membership(role: string, status: Status, dept: Option<Id>, level: Option<Id>)

  /** `dept` and `level` are the ids read from the invitation's payload. */
  datatype Invite = Invite(org: Id, role: string, expiresAt: int, accepted: bool, revoked: bool,
                           dept: Option<Id>, level: Option<Id>)

  /** Departments and levels map to the organization they belong to; memberships are keyed by
      organization and user. */
  datatype Tables = Tables(orgs: map<Id, Organization>, roles: set<(Id, string)>, depts: map<Id, Id>,
                           levels: map<Id, Id>, members: map<(Id, Id), Membership>, invites: map<Id, Invite>)

  /** Accepting an invitation, statement by statement: the two lookups, the membership, the mark. */
  datatype AcceptStage = CheckDept | CheckLevel(dept: Option<Id>) | Join(dept: Option<Id>, level: Option<Id>) | Mark

  // ----- statements -----

  function InsertOrg(t: Tables, org: Id, o: Organization): Option<Tables> {
    if org in t.orgs || exists x :: x in t.orgs && t.orgs[x].slug == o.slug then None
    else Some(t.(orgs := t.orgs[org := o]))
  }

  function SeedDefaultRoles(t: Tables, org: Id): Tables {
    t.(roles := t.roles + {(org, "owner"), (org, "admin"), (org, "member")})
  }

  predicate IsLower(c: char) {
    'a' <= c <= 'z'
  }

  /** `^[a-z][a-z0-9_]{1,49}$` */
  predicate RolePattern(name: string) {
    && 2 <= |name| <= 50 && IsLower(name[0])
    && forall i :: 0 <= i < |name| ==> IsLower(name[i]) || '0' <= name[i] <= '9' || name[i] == '_'
  }

  lemma RolePatternSpelledOut(name: string)
    ensures RolePattern(name) <==>
      && 2 <= |name| <= 50 && name[0] in "abcdefghijklmnopqrstuvwxyz"
      && forall i :: 0 <= i < |name| ==> name[i] in "abcdefghijklmnopqrstuvwxyz0123456789_"
  {
    forall c: char
      ensures IsLower(c) <==> c in "abcdefghijklmnopqrstuvwxyz"
      ensures IsLower(c) || '0' <= c <= '9' || c == '_' <==> c in "abcdefghijklmnopqrstuvwxyz0123456789_"
    {
      LowerCaseLetter(c);
      LowerCaseMore(c);
    }
  }

  lemma LowerCaseLetter(c: char)
    ensures IsLower(c) <==> c in "abcdefghijklmnopqrstuvwxyz"
  {
    var letters := "abcdefghijklmnopqrstuvwxyz";
    if IsLower(c) {
      assert letters[c as int - 97] as int == c as int;
    }
  }

  lemma LowerCaseMore(c: char)
    ensures IsLower(c) || '0' <= c <= '9' || c == '_' <==> c in "abcdefghijklmnopqrstuvwxyz0123456789_"
  {
    LowerCaseLetter(c);
    var digits := "0123456789";
    if '0' <= c <= '9' {
      assert digits[c as int - 48] as int == c as int;
    }
    assert "abcdefghijklmnopqrstuvwxyz0123456789_" == "abcdefghijklmnopqrstuvwxyz" + digits + "_";
  }

  function Coalesce(a: Option<Id>, b: Option<Id>): Option<Id> {
    if a.Some? then a else b
  }

  /** `INSERT ... ON CONFLICT (organization_id, user_id) DO UPDATE`: role and status are replaced,
      department and level only when given. Foreign keys must exist. */
  function UpsertMember(t: Tables, org: Id, user: Id, role: string, dept: Option<Id>, level: Option<Id>): Option<Tables> {
    if org !in t.orgs || (dept.Some? && dept.value !in t.depts) || (level.Some? && level.value !in t.levels) then None
    else if (org, user) in t.members then
      var m := t.members[(org, user)];
      Some(t.(members := t.members[(org, user) := Membership(role, Active, Coalesce(dept, m.dept), Coalesce(level, m.level))]))
    else Some(t.(members := t.members[(org, user) := Membership(role, Active, dept, level)]))
  }

  function KeptDept(members: map<(Id, Id), Membership>, org: Id, user: Id): Option<Id> {
    if (org, user) in members then members[(org, user)].dept else None
  }

  function KeptLevel(members: map<(Id, Id), Membership>, org: Id, user: Id): Option<Id> {
    if (org, user) in members then members[(org, user)].level else None
  }

  predicate IsActive(t: Tables, org: Id, user: Id) {
    (org, user) in t.members && t.members[(org, user)].status == Active
  }

  function UpdateRole(t: Tables, org: Id, user: Id, role: string): Tables {
    if IsActive(t, org, user) then t.(members := t.members[(org, user) := t.members[(org, user)].(role := role)]) else t
  }

  function RemoveRow(t: Tables, org: Id, user: Id): Tables {
    if IsActive(t, org, user) then t.(members := t.members[(org, user) := t.members[(org, user)].(status := Removed)]) else t
  }

  predicate IsOwner(t: Tables, org: Id, user: Id) {
    IsActive(t, org, user) && Lower(t.members[(org, user)].role) == "owner"
  }

  function Owners(t: Tables, org: Id): set<Id> {
    set k | k in t.members && k.0 == org && IsOwner(t, org, k.1) :: k.1
  }

  /** `CountActiveRole(org, "owner")`. */
  function OwnerCount(t: Tables, org: Id): nat {
    |Owners(t, org)|
  }

  function AcceptRow(t: Tables, inv: Id): Option<Tables> {
    if inv in t.invites && !t.invites[inv].accepted && !t.invites[inv].revoked then
      Some(t.(invites := t.invites[inv := t.invites[inv].(accepted := true)]))
    else None
  }

  function RevokeRow(t: Tables, inv: Id): Tables {
    if inv in t.invites && !t.invites[inv].accepted && !t.invites[inv].revoked then
      t.(invites := t.invites[inv := t.invites[inv].(revoked := true)])
    else t
  }

  /** `CreateRole`, for a name of the permitted form once it is cleaned up, but not owner. */
  function CreateRole(t: Tables, org: Id, name: string): Tables {
    if org in t.orgs && Normalize(name) != "owner" && RolePattern(Normalize(name)) then t.(roles := t.roles + {(org, Normalize(name))}) else t
  }

  /** A change or removal written late leaves a row that is not active any more as it is. */
  lemma LateWritesTouchActiveRows(t: Tables, org: Id, user: Id, role: string)
    ensures var active := (org, user) in t.members && t.members[(org, user)].status == Active;
      && UpdateRole(t, org, user, role) ==
         (if active then t.(members := t.members[(org, user) := t.members[(org, user)].(role := role)]) else t)
      && RemoveRow(t, org, user) ==
         (if active then t.(members := t.members[(org, user) := t.members[(org, user)].(status := Removed)]) else t)
  {
  }

  function ClearIf(o: Option<Id>, id: Id): Option<Id> {
    if o == Some(id) then None else o
  }

  /** Deleting a department sets it to null in every membership that names it. */
  function DeleteDept(t: Tables, org: Id, id: Id): Tables {
    if id in t.depts && t.depts[id] == org then
      t.(depts := t.depts - {id},
         members := map k | k in t.members :: t.members[k].(dept := ClearIf(t.members[k].dept, id)))
    else t
  }

  function DeleteLevel(t: Tables, org: Id, id: Id): Tables {
    if id in t.levels && t.levels[id] == org then
      t.(levels := t.levels - {id},
         members := map k | k in t.members :: t.members[k].(level := ClearIf(t.members[k].level, id)))
    else t
  }

  /** What the host's changes to a catalog come to, row by row: each touches its own role, department,
      level or invitation, where there is one to touch, and no other. */
  lemma CatalogChanges(t: Tables, org: Id, name: string, id: Id)
    ensures forall k :: k in CreateRole(t, org, name).roles <==>
      k in t.roles || (k == (org, Normalize(name)) && org in t.orgs && k.1 != "owner" && RolePattern(k.1))
    ensures CreateRole(t, org, name).members == t.members && CreateRole(t, org, name).invites == t.invites
    ensures var own := id in t.levels && t.levels[id] == org; var t' := DeleteLevel(t, org, id);
      && t'.levels == (if own then t.levels - {id} else t.levels) && t'.members.Keys == t.members.Keys
      && forall k :: k in t.members ==>
        t'.members[k] == if own && t.members[k].level == Some(id) then t.members[k].(level := None) else t.members[k]
    ensures AcceptRow(t, id).Some? <==> id in t.invites && !t.invites[id].accepted && !t.invites[id].revoked
    ensures AcceptRow(t, id).Some? ==> AcceptRow(t, id).value == t.(invites := t.invites[id := t.invites[id].(accepted := true)])
    ensures RevokeRow(t, id).invites.Keys == t.invites.Keys
    ensures forall i :: i in t.invites ==>
      RevokeRow(t, id).invites[i] ==
        t.invites[i].(revoked := t.invites[i].revoked || (i == id && !t.invites[i].accepted))
  {
    hide RolePattern, Normalize;
  }

  // ----- who may change whom -----

  datatype Denial = Forbidden | RoleReserved | LastOwner

  /** Whether a member with `actor` role may set `target` role to `next`; the empty role removes. */
  function MemberRoleDecision(actor: string, target: string, next: string, owners: nat): Option<Denial> {
    var a, t, n := Normalize(actor), Normalize(target), Normalize(next);
    if a != "owner" && a != "admin" then Some(Forbidden)
    else if n == "owner" then Some(RoleReserved)
    else if t == "owner" && n != "owner" && owners <= 1 then Some(LastOwner)
    else if a == "admin" && (t == "owner" || t == "admin" || n == "admin") then Some(Forbidden)
    else None
  }

  ghost predicate Is(role: string, name: string) {
    Normalize(role) == name
  }

  /** Owners may do anything short of naming an owner or losing the last one; admins only move
      people between roles below admin. */
  lemma DecisionTable(actor: string, target: string, next: string, owners: nat)
    ensures MemberRoleDecision(actor, target, next, owners).None? <==>
      && !Is(next, "owner") && (Is(target, "owner") ==> Is(actor, "owner") && owners > 1)
      && (Is(actor, "owner") || (Is(actor, "admin") && !Is(target, "admin") && !Is(next, "admin")))
  {
  }

  /** Refusals are told apart in this order: nobody else may change members, nobody may name an owner, the
      last owner stays, and admins stay below admin. */
  lemma RefusalTable(actor: string, target: string, next: string, owners: nat)
    ensures var d := MemberRoleDecision(actor, target, next, owners);
      && (!Is(actor, "owner") && !Is(actor, "admin") ==> d == Some(Forbidden))
      && ((Is(actor, "owner") || Is(actor, "admin")) && Is(next, "owner") ==> d == Some(RoleReserved))
      && ((Is(actor, "owner") || Is(actor, "admin")) && !Is(next, "owner") && Is(target, "owner") && owners <= 1 ==> d == Some(LastOwner))
      && (Is(actor, "admin") && !Is(next, "owner") && !Is(target, "owner") && (Is(target, "admin") || Is(next, "admin")) ==>
            d == Some(Forbidden))
      && (Is(actor, "admin") && !Is(next, "owner") && Is(target, "owner") && owners > 1 ==> d == Some(Forbidden))
  {
  }

  // ----- whole operations, taken as one step -----

  /** `ChangeMemberRole` when nothing interferes; none when refused. */
  function ChangeRole(t: Tables, org: Id, actor: Id, target: Id, next: string): Option<Tables> {
    var role := Normalize(next);
    if !IsActive(t, org, actor) || !IsActive(t, org, target) then None
    else if MemberRoleDecision(t.members[(org, actor)].role, t.members[(org, target)].role, role, OwnerCount(t, org)).Some? then None
    else if role == "" || (org, role) !in t.roles then None
    else Some(UpdateRole(t, org, target, role))
  }

  /** `RemoveMember` when nothing interferes. */
  function RemoveMember(t: Tables, org: Id, actor: Id, target: Id): Option<Tables> {
    if !IsActive(t, org, actor) || !IsActive(t, org, target) then None
    else if MemberRoleDecision(t.members[(org, actor)].role, t.members[(org, target)].role, "", OwnerCount(t, org)).Some? then None
    else Some(RemoveRow(t, org, target))
  }

  /** The role names seeded besides the three built-in ones. */
  function ExtraRoles(names: seq<string>): set<string> {
    set n | n in names && RolePattern(Normalize(n)) :: Normalize(n)
  }

  function SeedExtraRoles(t: Tables, org: Id, names: seq<string>): Tables {
    t.(roles := t.roles + set n | n in ExtraRoles(names) :: (org, n))
  }

  lemma SeedingKeeps(t: Tables, org: Id, names: seq<string>)
    ensures SeedDefaultRoles(t, org) == t.(roles := SeedDefaultRoles(t, org).roles)
    ensures SeedExtraRoles(t, org, names) == t.(roles := SeedExtraRoles(t, org, names).roles)
  {
  }

  /** `Create` for a user under the membership limit. It stops after `reach` statements: 4 is success. */
  function CreateOrg(t: Tables, org: Id, user: Id, slug: string, names: seq<string>, reach: nat): Tables {
    var inserted := InsertOrg(t, org, Organization(slug, user));
    if reach == 0 || inserted.None? then t
    else if reach == 1 then inserted.value
    else
      var seeded := SeedDefaultRoles(inserted.value, org);
      if reach == 2 then seeded
      else
        var extra := SeedExtraRoles(seeded, org, names);
        var owned := UpsertMember(extra, org, user, "owner", None, None);
        if reach == 3 || owned.None? then extra else owned.value
  }

  /** The role an invitation is for: the given one, or the configured default. */
  function InviteRole(defaultRole: string, role: string): string {
    if Normalize(role) != "" then Normalize(role)
    else if Normalize(defaultRole) != "" then Normalize(defaultRole)
    else "member"
  }

  /** `Invite`, or `PlatformInvite` without an actor. */
  function Invitable(t: Tables, org: Id, actor: Option<Id>, role: string): bool {
    && org in t.orgs
    && (actor.Some? ==> IsActive(t, org, actor.value) && Lower(t.members[(org, actor.value)].role) in {"owner", "admin"})
    && role != "owner" && (org, role) in t.roles
  }

  /** A department or level of another organization, or a deleted one, is dropped. */
  function Within(owner: map<Id, Id>, id: Option<Id>, org: Id): Option<Id> {
    if id.Some? && id.value in owner && owner[id.value] == org then id else None
  }

  predicate Acceptable(t: Tables, inv: Id, now: int) {
    inv in t.invites && !t.invites[inv].accepted && !t.invites[inv].revoked && now <= t.invites[inv].expiresAt
  }

  /** `AcceptInvite` for a user under the membership limit: first the membership, then the mark. */
  function AcceptInvite(t: Tables, inv: Id, user: Id, now: int): Option<Tables> {
    if !Acceptable(t, inv, now) then None
    else
      var i := t.invites[inv];
      match UpsertMember(t, i.org, user, i.role, Within(t.depts, i.dept, i.org), Within(t.levels, i.level, i.org))
      case None => None
      case Some(t') => AcceptRow(t', inv)
  }

  lemma OwnerIsCounted(t: Tables, org: Id, user: Id)
    ensures user in Owners(t, org) <==> IsOwner(t, org, user)
  {
    if IsOwner(t, org, user) {
      assert (org, user) in t.members;
    }
  }

  lemma FoldedOwnerIsOwner(role: string)
    requires Lower(role) == "owner"
    ensures Normalize(role) == "owner"
  {
    assert Trim("owner") == "owner";
  }

  /** Changing one member's row leaves every other owner in place. */
  lemma OtherOwnersStay(t: Tables, t': Tables, org: Id, target: Id)
    requires forall k :: k in t.members && k != (org, target) ==> k in t'.members && t'.members[k] == t.members[k]
    ensures Owners(t, org) - {target} <= Owners(t', org)
  {
    forall u | u in Owners(t, org) - {target} ensures u in Owners(t', org) {
      OwnerIsCounted(t, org, u);
      OwnerIsCounted(t', org, u);
      assert (org, u) != (org, target);
    }
  }

  /** From any state with an owner, whatever roles and actors are involved, changing a member's role in
      one step leaves an owner. */
  lemma ChangeKeepsAnOwner(t: Tables, org: Id, actor: Id, target: Id, next: string)
    requires OwnerCount(t, org) >= 1
    ensures ChangeRole(t, org, actor, target, next).Some? ==> OwnerCount(ChangeRole(t, org, actor, target, next).value, org) >= 1
  {
    if ChangeRole(t, org, actor, target, next).Some? {
      RemainsAfter(t, ChangeRole(t, org, actor, target, next).value, org, actor, target, Normalize(next));
    }
  }

  /** The same for removing a member. */
  lemma RemovalKeepsAnOwner(t: Tables, org: Id, actor: Id, target: Id)
    requires OwnerCount(t, org) >= 1
    ensures RemoveMember(t, org, actor, target).Some? ==> OwnerCount(RemoveMember(t, org, actor, target).value, org) >= 1
  {
    if RemoveMember(t, org, actor, target).Some? {
      RemainsAfter(t, RemoveMember(t, org, actor, target).value, org, actor, target, "");
    }
  }

  lemma RemainsAfter(t: Tables, t': Tables, org: Id, actor: Id, target: Id, next: string)
    requires OwnerCount(t, org) >= 1 && IsActive(t, org, actor) && IsActive(t, org, target)
    requires MemberRoleDecision(t.members[(org, actor)].role, t.members[(org, target)].role, next, OwnerCount(t, org)).None?
    requires forall k :: k in t.members && k != (org, target) ==> k in t'.members && t'.members[k] == t.members[k]
    ensures OwnerCount(t', org) >= 1
  {
    OtherOwnersStay(t, t', org, target);
    DecisionTable(t.members[(org, actor)].role, t.members[(org, target)].role, next, OwnerCount(t, org));
    hide MemberRoleDecision;
    OwnerIsCounted(t, org, target);
    if target in Owners(t, org) {
      FoldedOwnerIsOwner(t.members[(org, target)].role);
      assert |Owners(t, org) - {target}| >= 1;
      NonEmpty(Owners(t, org) - {target}, Owners(t', org));
    } else {
      assert Owners(t, org) - {target} == Owners(t, org);
      NonEmpty(Owners(t, org), Owners(t', org));
    }
  }

  lemma NonEmpty<T>(a: set<T>, b: set<T>)
    requires a <= b && |a| >= 1
    ensures |b| >= 1
  {
    assert a != {};
    var x :| x in a;
    assert x in b;
  }

  lemma OwnersAfterAccept(t: Tables, org: Id, user: Id, role: string, dept: Option<Id>, level: Option<Id>)
    requires Lower(role) != "owner" && UpsertMember(t, org, user, role, dept, level).Some?
    ensures forall u :: u in Owners(UpsertMember(t, org, user, role, dept, level).value, org) <==> u != user && IsOwner(t, org, u)
  {
    var t' := UpsertMember(t, org, user, role, dept, level).value;
    forall u ensures u in Owners(t', org) <==> u != user && IsOwner(t, org, u) {
      OwnerIsCounted(t', org, u);
      assert u != user ==> (org, u) != (org, user);
    }
  }

  /** A membership written with a role other than owner leaves an owner exactly when someone else is one. */
  lemma UpsertKeepsAnOwnerIff(t: Tables, org: Id, user: Id, role: string, dept: Option<Id>, level: Option<Id>)
    requires Lower(role) != "owner" && UpsertMember(t, org, user, role, dept, level).Some?
    ensures OwnerCount(UpsertMember(t, org, user, role, dept, level).value, org) >= 1 <==>
      exists other: Id :: other != user && IsOwner(t, org, other)
  {
    var t' := UpsertMember(t, org, user, role, dept, level).value;
    OwnersAfterAccept(t, org, user, role, dept, level);
    hide Owners, IsOwner, UpsertMember;
    if other: Id :| other != user && IsOwner(t, org, other) {
      assert other in Owners(t', org);
      NonEmpty({other}, Owners(t', org));
    } else {
      assert Owners(t', org) == {};
    }
  }
}
